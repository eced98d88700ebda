/** The one way an object goes astray between requests served one after another. */
module SerialExamples {
  import opened Records
  import opened Keys
  import opened Stores
  import opened World
  import opened Signatures
  import opened Uploads
  import opened VisibilityPatch
  import opened Tasks
  import opened SerialRuns
  import opened SerialObjects

  const REQUEST := VideoRequest([], "mp4", "balanced", None, None, None)

  ghost const EXT := VideoExt("")
  ghost const FIRST := Key(false, "raw/videos", "0", false, None, EXT)
  ghost const COPY := Key(true, "raw/videos", "00", false, None, EXT)
  ghost const OUT := OutputKey("000", Private, OutputExt("mp4"))

  /** The upload, a PATCH while its task is queued, and the task. */
  const JOBS := [
    PutVideo("owner", REQUEST, Public, "", false),
    Patch(0, "owner", Private),
    Compress(0, Some([1]), false, None)]

  ghost function Uploaded0(hash: Bytes -> string, digest: string -> string): Row {
    Row("owner", Video, FIRST, map[], Processing, Public, Some(ContentHash(hash, digest, REQUEST)), None, false)
  }

  ghost function Moved0(hash: Bytes -> string, digest: string -> string): Row {
    Uploaded0(hash, digest).(visibility := Private, storageKey := COPY)
  }

  ghost function After1(hash: Bytes -> string, digest: string -> string): Moment {
    Moment(Contents(map[FIRST := []], map[0 := Uploaded0(hash, digest)]), {"0"}, 1,
           [VideoTask(FIRST, 0, "mp4")], [], [], 0)
  }

  /** The delete of the original has raised. */
  ghost function After2(hash: Bytes -> string, digest: string -> string): Moment {
    Moment(Contents(map[FIRST := [], COPY := []], map[0 := Moved0(hash, digest)]), {"0", "00"}, 1,
           [VideoTask(FIRST, 0, "mp4")], [Attempt(FIRST, false)], [], 1)
  }

  ghost function After3(hash: Bytes -> string, digest: string -> string): Moment {
    Moment(Contents(map[COPY := [], OUT := [1]],
                    map[0 := Moved0(hash, digest).(storageKey := OUT, status := Ready)]),
           {"0", "00", "000"}, 1, [], [Attempt(FIRST, false), Attempt(FIRST, true)], [], 1)
  }

  lemma KeysAreProper()
    ensures ProperExt(EXT) && ProperKey(FIRST) && ProperKey(COPY) && ProperKey(OUT)
    ensures Plain("0") && Plain("00") && Plain("000")
  {
    assert "raw/videos"[0] != PRIVATE[0];
    TaskKeysAreProper("000", Private, "mp4");
  }

  lemma FirstRow(hash: Bytes -> string, digest: string -> string)
    ensures var row := Uploaded0(hash, digest);
            && OwnKeys(row) && ProperRow(row) && TracedTo(row, REQUEST, hash, digest) && Proper(REQUEST)
            && RecordedAs(row, "owner", Video, Processing, Public, ContentHash(hash, digest, REQUEST), false,
                          "raw/videos", EXT)
  {
    KeysAreProper();
    RowIsProper(Uploaded0(hash, digest), "owner", Video, "raw/videos", "0", EXT, Processing, Public,
                ContentHash(hash, digest, REQUEST), false);
    assert ColonFree("mp4") && ColonFree("balanced");
  }

  lemma FirstUpload(hash: Bytes -> string, digest: string -> string)
    ensures Uploaded(Empty, After1(hash, digest), "owner", REQUEST, true, Uploaded0(hash, digest), hash, digest)
  {
    KeysAreProper();
    FirstRow(hash, digest);
    assert UploadEffect(Empty.contents, After1(hash, digest).contents, {}, 0, Uploaded0(hash, digest));
  }

  lemma FirstIsServed(hash: Bytes -> string, digest: string -> string)
    ensures LeadsTo(JOBS[0], Empty, After1(hash, digest), hash, digest)
  {
    KeysAreProper();
    FirstRow(hash, digest);
    FirstUpload(hash, digest);
    assert VideoServed(Empty, After1(hash, digest), "owner", REQUEST, Public, EXT, false, Uploaded0(hash, digest), hash,
                       digest);
  }

  lemma MovedIsSound(hash: Bytes -> string, digest: string -> string)
    ensures SoundSnap(SnapOf(After2(hash, digest)))
  {
    KeysAreProper();
  }

  lemma CopyIsMade(hash: Bytes -> string, digest: string -> string)
    ensures var n := After2(hash, digest);
            PatchMade(SnapOf(After1(hash, digest)), SnapOf(n), 0, Private, n.deletes, 0)
  {
    KeysAreProper();
    var s, t := SnapOf(After1(hash, digest)), SnapOf(After2(hash, digest));
    var log := [Attempt(FIRST, false)];
    assert Copies(s.objects, s.rows[0], COPY) == map[];
    assert log[0] == Attempt(FIRST, false);
    assert KeysOf(s.rows[0]) == {FIRST} && KeysOf(t.rows[0]) == {COPY};
    assert Repointed(s, t, 0, Private, log, 0);
  }

  lemma SecondIsServed(hash: Bytes -> string, digest: string -> string)
    ensures LeadsTo(JOBS[1], After1(hash, digest), After2(hash, digest), hash, digest)
  {
    KeysAreProper();
    MovedIsSound(hash, digest);
    CopyIsMade(hash, digest);
  }

  /** The task before its clean-up. */
  ghost function Body3(hash: Bytes -> string, digest: string -> string): Contents {
    Contents(map[FIRST := [], COPY := [], OUT := [1]], After3(hash, digest).contents.rows)
  }

  lemma BodyRuns(hash: Bytes -> string, digest: string -> string, log: seq<Attempt>)
    ensures CompressEffect(After2(hash, digest).contents, Body3(hash, digest), 0, 1, "000", Private, OutputExt("mp4"),
                           Some([1]), Success, log, 1)
  {
    forall k: Key | k.uuid != "000"
      ensures Kept(After2(hash, digest).contents.objects, Body3(hash, digest).objects, k)
    {
    }
  }

  /** The one queued task runs to success, and its raw object goes. */
  lemma TaskServed(m: Moment, n: Moment, body: Contents, task: VideoTask, visibility: Visibility, uuid: string,
                   encoded: Option<Bytes>)
    requires m.pending == [task] && n.pending == [] && task.id in m.contents.rows && m.nextId !in m.contents.rows
    requires Plain(uuid) && uuid !in m.issued && n.issued == m.issued + {uuid} && task.raw in m.contents.objects
    requires visibility == m.contents.rows[task.id].visibility
    requires n.deletes == m.deletes + [Attempt(task.raw, true)]
    requires CompressEffect(m.contents, body, task.id, m.nextId, uuid, visibility, OutputExt(task.format), encoded,
                            Success, m.deletes, |m.deletes|)
    requires n.contents == Contents(body.objects - {task.raw}, body.rows)
    ensures Compressed(m, n, 0, encoded, uuid, Success)
  {
    RunIsDone(m.contents, body, n.contents, task.raw, task.id, m.nextId, uuid, task.format, visibility, encoded,
              Success, m.deletes, n.deletes, |m.deletes|, true);
  }

  lemma ThirdRuns(hash: Bytes -> string, digest: string -> string)
    ensures Compressed(After2(hash, digest), After3(hash, digest), 0, Some([1]), "000", Success)
  {
    KeysAreProper();
    var m, n, body := After2(hash, digest), After3(hash, digest), Body3(hash, digest);
    BodyRuns(hash, digest, m.deletes);
    assert n.contents.objects == body.objects - {FIRST};
    TaskServed(m, n, body, VideoTask(FIRST, 0, "mp4"), Private, "000", Some([1]));
  }

  lemma RunServes(job: Job, m: Moment, n: Moment, uuid: string, r: TaskResult, hash: Bytes -> string,
                  digest: string -> string)
    requires job.Compress? && m.pending != [] && Later(m, n)
    requires Compressed(m, n, job.pick % |m.pending|, job.encoded, uuid, r)
    ensures Served(job, m, n, hash, digest)
  {
  }

  lemma ThirdIsServed(hash: Bytes -> string, digest: string -> string)
    ensures LeadsTo(JOBS[2], After2(hash, digest), After3(hash, digest), hash, digest)
  {
    KeysAreProper();
    ThirdRuns(hash, digest);
    RunServes(JOBS[2], After2(hash, digest), After3(hash, digest), "000", Success, hash, digest);
  }

  /** A PATCH of a video whose compression is still queued copies the raw object, and the
      delete of the original raises once.  The task then finds the original and re-points
      the row at its output: the copy stays behind for ever, although no delete call on it
      was ever made, let alone refused. */
  lemma RefusedOriginalStrandsItsCopy(hash: Bytes -> string, digest: string -> string)
    returns (history: seq<Moment>)
    ensures Run(JOBS, history, hash, digest) && Stranded(history[3], COPY)
  {
    history := [Empty, After1(hash, digest), After2(hash, digest), After3(hash, digest)];
    forall i | 0 <= i < |JOBS| ensures LeadsTo(JOBS[i], history[i], history[i + 1], hash, digest) {
      if i == 0 { FirstIsServed(hash, digest); }
      else if i == 1 { SecondIsServed(hash, digest); }
      else { ThirdIsServed(hash, digest); }
    }
    CopyIsStranded(hash, digest);
  }

  /** Stored, with nothing left to run, in no row, and never tried to be deleted. */
  ghost predicate Stranded(m: Moment, k: Key) {
    && m.pending == [] && k in m.contents.objects && !Pointed(m.contents.rows, k)
    && forall i :: 0 <= i < |m.deletes| ==> m.deletes[i].key != k
  }

  lemma CopyIsStranded(hash: Bytes -> string, digest: string -> string)
    ensures Stranded(After3(hash, digest), COPY)
  {
    assert KeysOf(After3(hash, digest).contents.rows[0]) == {OUT};
  }
}
