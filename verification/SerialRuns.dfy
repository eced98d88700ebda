/** Serving requests and tasks one after another: the `private/` boundary and the
    uniqueness of usable uploads over whole runs, under any faults. */
module SerialRuns {
  import opened Records
  import opened Keys
  import opened Stores
  import opened World
  import opened Signatures
  import opened ImageUpload
  import opened Uploads
  import opened VisibilityPatch
  import opened Management
  import opened Tasks

  // ----- How rows may change -------------------------------------------------------------

  /** A row an upload of the same request would be answered with. */
  ghost predicate Usable(row: Row) {
    row.status.Ready? || (row.status.Processing? && row.kind.Video?)
  }

  ghost predicate SameUpload(a: Row, b: Row) {
    Usable(a) && Usable(b) && a.contentHash.Some? && a.contentHash == b.contentHash && a.owner == b.owner
  }

  /** At most one usable row per owner and content hash. */
  ghost predicate UniqueUsable(rows: map<Id, Row>) {
    forall i, j :: i in rows && j in rows && i != j ==> !SameUpload(rows[i], rows[j])
  }

  /** `row.contentHash` was computed from a request of the row's own kind. */
  ghost predicate TracedTo(row: Row, request: Request, hash: Bytes -> string, digest: string -> string) {
    Proper(request) && KindOf(request) == row.kind && row.contentHash == Some(ContentHash(hash, digest, request))
  }

  ghost predicate Traced(row: Row, hash: Bytes -> string, digest: string -> string) {
    row.contentHash.Some? ==> exists request :: TracedTo(row, request, hash, digest)
  }

  ghost predicate PlainVideo(row: Row) {
    row.kind.Video? ==> row.renditions == map[]
  }

  /** What a row is for good: only a processing video can change its status. */
  ghost predicate Descends(now: Row, was: Row) {
    && now.owner == was.owner && now.kind == was.kind && now.contentHash == was.contentHash
    && (was.renditions == map[] ==> now.renditions == map[])
    && (now.status == was.status || (was.kind.Video? && was.status.Processing?))
  }

  /** Rows go or evolve, and only posters are added; `worked` is the row a task owns. */
  ghost predicate Evolve(before: map<Id, Row>, after: map<Id, Row>, worked: Option<Id>) {
    forall id :: id in after ==>
      if id in before
      then Descends(after[id], before[id]) && (Some(id) != worked ==> after[id].status == before[id].status)
      else after[id].kind.Image? && after[id].contentHash.None?
  }

  lemma EvolvingKeepsUnique(before: map<Id, Row>, after: map<Id, Row>, worked: Option<Id>)
    requires UniqueUsable(before) && Evolve(before, after, worked)
    ensures UniqueUsable(after)
  {
    forall i, j | i in after && j in after && i != j && SameUpload(after[i], after[j]) ensures false {
      assert SameUpload(before[i], before[j]);
    }
  }

  lemma EvolvingKeepsTraces(before: map<Id, Row>, after: map<Id, Row>, worked: Option<Id>, hash: Bytes -> string,
                            digest: string -> string)
    requires Evolve(before, after, worked)
    requires forall id :: id in before ==> Traced(before[id], hash, digest) && PlainVideo(before[id])
    ensures forall id :: id in after ==> Traced(after[id], hash, digest) && PlainVideo(after[id])
  {
    forall id | id in after ensures Traced(after[id], hash, digest) {
      if after[id].contentHash.Some? {
        var request :| TracedTo(before[id], request, hash, digest);
        assert TracedTo(after[id], request, hash, digest);
      }
    }
  }

  /** What the idempotency lookup of an upload of this kind finds. */
  ghost predicate Hit(rows: map<Id, Row>, owner: string, kind: Kind, contentHash: string) {
    if kind.Video? then VideoHit(rows, owner, contentHash) else ReadyHit(rows, owner, contentHash)
  }

  /** The lookups are blind to kind, or look at videos only; either way, an upload that
      found nothing adds the only usable row for its request.  This is where signatures
      of different kinds must not coincide. */
  lemma NewRowIsUnique(rows: map<Id, Row>, id: Id, row: Row, request: Request, hash: Bytes -> string,
                       digest: string -> string)
    requires GoodHash(hash) && GoodDigest(digest) && id !in rows && UniqueUsable(rows)
    requires forall i :: i in rows ==> Traced(rows[i], hash, digest)
    requires TracedTo(row, request, hash, digest)
    requires !Hit(rows, row.owner, row.kind, ContentHash(hash, digest, request))
    ensures UniqueUsable(rows[id := row])
  {
    forall i | i in rows && (SameUpload(rows[i], row) || SameUpload(row, rows[i])) ensures false {
      var other :| TracedTo(rows[i], other, hash, digest);
      ContentHashInjective(hash, digest, other, request);
    }
  }

  // ----- Each kind of request keeps the two stores sound and the boundary intact -----------

  ghost predicate Settled(row: Row) {
    row.storageKey.hidden <==> row.visibility.Private?
  }

  ghost predicate Carried(s: Contents, t: Contents, id: Id) {
    && id in s.rows && id in t.rows
    && t.rows[id].storageKey == s.rows[id].storageKey && t.rows[id].visibility == s.rows[id].visibility
    && (t.rows[id].storageKey in t.objects ==> s.rows[id].storageKey in s.objects)
  }

  lemma BoundaryCarried(s: Contents, t: Contents)
    requires forall id :: id in s.rows ==> OwnKeys(s.rows[id])
    requires forall id :: id in t.rows ==> OwnKeys(t.rows[id])
    requires Boundary(s.objects, s.rows)
    requires forall id :: id in t.rows ==> Carried(s, t, id) || Settled(t.rows[id])
    ensures Boundary(t.objects, t.rows)
  {
    BoundaryByMainKey(s.objects, s.rows);
    BoundaryByMainKey(t.objects, t.rows);
  }

  lemma UploadKeepsSound(s: Contents, t: Contents, issued: set<string>, now: set<string>, id: Id, row: Row)
    requires Sound(s.objects, s.rows, issued) && issued <= now && id !in s.rows
    requires UploadEffect(s, t, issued, id, row) && (row.storageKey.uuid in now || t == s)
    requires forall k :: k in t.objects ==> k.uuid in now
    ensures Sound(t.objects, t.rows, now)
  {
    forall i | i in t.rows ensures OwnKeys(t.rows[i]) && ProperRow(t.rows[i]) && t.rows[i].storageKey.uuid in now {}
  }

  lemma UploadKeepsStores(s: Contents, t: Contents, issued: set<string>, now: set<string>, id: Id, row: Row)
    requires Sound(s.objects, s.rows, issued) && Boundary(s.objects, s.rows) && issued <= now && id !in s.rows
    requires UploadEffect(s, t, issued, id, row) && (row.storageKey.uuid in now || t == s)
    requires forall k :: k in t.objects ==> k.uuid in now
    ensures Sound(t.objects, t.rows, now) && Boundary(t.objects, t.rows)
  {
    UploadKeepsSound(s, t, issued, now, id, row);
    forall i | i in s.rows ensures Kept(s.objects, t.objects, s.rows[i].storageKey) {}
    BoundaryCarried(s, t);
  }

  lemma DeleteKeepsStores(s: Contents, t: Contents, issued: set<string>, id: Id, owner: string, r: DeleteResult,
                          clean: bool, log: seq<Attempt>, from: nat)
    requires Sound(s.objects, s.rows, issued) && Boundary(s.objects, s.rows)
    requires DeleteAttempt(s, t, id, owner, r, clean, log, from)
    ensures Sound(t.objects, t.rows, issued) && Boundary(t.objects, t.rows) && Evolve(s.rows, t.rows, None)
  {
    BoundaryCarried(s, t);
  }

  lemma PatchEvolves(s: Snapshot, t: Snapshot, id: Id, visibility: Visibility, log: seq<Attempt>, from: nat)
    requires PatchRefused(s, t, log, from) || PatchMade(s, t, id, visibility, log, from)
    ensures Evolve(s.rows, t.rows, None)
  {
    forall j | j in t.rows ensures Descends(t.rows[j], s.rows[j]) && t.rows[j].status == s.rows[j].status {
      assert Untouched(s, t, j) || Flipped(s, t, j, visibility) || Repointed(s, t, j, visibility, log, from);
    }
  }

  /** What a poster task makes of one row. */
  lemma PosterTaskRow(s: Contents, t: Contents, video: Id, p: Id, uuid: string, visibility: Visibility, owner: string,
                      frame: Option<Bytes>, linked: bool, log: seq<Attempt>, from: nat, issued: set<string>, i: Id)
    requires Sound(s.objects, s.rows, issued) && Plain(uuid) && i in t.rows
    requires PosterEffect(s, t, video, p, PosterKey(uuid, visibility), frame, PosterRow(owner, uuid, visibility),
                          linked, log, from)
    ensures OwnKeys(t.rows[i]) && ProperRow(t.rows[i]) && t.rows[i].poster != Some(i)
    ensures || (i in s.rows && t.rows[i].storageKey == s.rows[i].storageKey)
            || (i == p && t.rows[i].storageKey == PosterKey(uuid, visibility))
    ensures if i in s.rows then Descends(t.rows[i], s.rows[i]) && t.rows[i].status == s.rows[i].status
            else t.rows[i].kind.Image? && t.rows[i].contentHash.None?
  {
    assert ProperBase("posters") && ProperExt("webp");
    assert OwnKeys(PosterRow(owner, uuid, visibility));
  }

  lemma PosterKeepsSound(s: Contents, t: Contents, video: Id, p: Id, uuid: string, visibility: Visibility,
                         owner: string, frame: Option<Bytes>, linked: bool, log: seq<Attempt>, from: nat,
                         issued: set<string>)
    requires Sound(s.objects, s.rows, issued) && Boundary(s.objects, s.rows) && uuid !in issued && Plain(uuid)
    requires PosterEffect(s, t, video, p, PosterKey(uuid, visibility), frame, PosterRow(owner, uuid, visibility),
                          linked, log, from)
    ensures Sound(t.objects, t.rows, issued + {uuid}) && Evolve(s.rows, t.rows, None)
  {
    assert PosterKey(uuid, visibility).uuid == uuid;
    forall i | i in t.rows
      ensures OwnKeys(t.rows[i]) && ProperRow(t.rows[i]) && t.rows[i].poster != Some(i)
      ensures t.rows[i].storageKey.uuid in issued + {uuid}
      ensures if i in s.rows then Descends(t.rows[i], s.rows[i]) && t.rows[i].status == s.rows[i].status
              else t.rows[i].kind.Image? && t.rows[i].contentHash.None?
    {
      PosterTaskRow(s, t, video, p, uuid, visibility, owner, frame, linked, log, from, issued, i);
    }
    forall i, j | i in t.rows && j in t.rows && i != j ensures !SameStem(t.rows[i].storageKey, t.rows[j].storageKey) {
      PosterTaskRow(s, t, video, p, uuid, visibility, owner, frame, linked, log, from, issued, i);
      PosterTaskRow(s, t, video, p, uuid, visibility, owner, frame, linked, log, from, issued, j);
    }
  }

  lemma PosterKeepsStores(s: Contents, t: Contents, video: Id, p: Id, uuid: string, visibility: Visibility,
                          owner: string, frame: Option<Bytes>, linked: bool, log: seq<Attempt>, from: nat,
                          issued: set<string>)
    requires Sound(s.objects, s.rows, issued) && Boundary(s.objects, s.rows) && uuid !in issued && Plain(uuid)
    requires PosterEffect(s, t, video, p, PosterKey(uuid, visibility), frame, PosterRow(owner, uuid, visibility),
                          linked, log, from)
    ensures Sound(t.objects, t.rows, issued + {uuid}) && Boundary(t.objects, t.rows) && Evolve(s.rows, t.rows, None)
  {
    PosterKeepsSound(s, t, video, p, uuid, visibility, owner, frame, linked, log, from, issued);
    forall i | i in t.rows ensures Carried(s, t, i) || Settled(t.rows[i]) {
      if i != p { assert s.rows[i].storageKey != PosterKey(uuid, visibility); }
    }
    BoundaryCarried(s, t);
  }

  /** What the body of a compression task makes of one row. */
  lemma BodyRow(s: Contents, m: Contents, id: Id, p: Id, uuid: string, ext: string, encoded: Option<Bytes>,
                r: TaskResult,
                        log: seq<Attempt>, from: nat, issued: set<string>, i: Id)
    requires Sound(s.objects, s.rows, issued) && Boundary(s.objects, s.rows) && uuid !in issued && Plain(uuid)
    requires ProperExt(ext)
    requires i in m.rows
    requires id in s.rows ==> s.rows[id].kind.Video? && s.rows[id].status.Processing? && s.rows[id].renditions == map[]
    requires CompressEffect(s, m, id, p, uuid, if id in s.rows then s.rows[id].visibility else Public, ext, encoded, r,
                            log, from)
    ensures OwnKeys(m.rows[i]) && ProperRow(m.rows[i]) && m.rows[i].poster != Some(i)
    ensures || (i in s.rows && m.rows[i].storageKey == s.rows[i].storageKey)
            || (i == id && SameStem(m.rows[i].storageKey, OutputKey(uuid, Public, ext)))
            || (i == p && SameStem(m.rows[i].storageKey, PosterKey(uuid, Public)))
    ensures if i in s.rows then Descends(m.rows[i], s.rows[i]) && (i != id ==> m.rows[i] == s.rows[i])
            else m.rows[i].kind.Image? && m.rows[i].contentHash.None?
  {
    assert ProperBase("videos") && ProperBase("posters") && ProperExt("webp");
  }

  lemma BodyKeepsSound(s: Contents, m: Contents, id: Id, p: Id, uuid: string, ext: string, encoded: Option<Bytes>,
                       r: TaskResult,
                        log: seq<Attempt>, from: nat, issued: set<string>)
    requires Sound(s.objects, s.rows, issued) && Boundary(s.objects, s.rows) && uuid !in issued && Plain(uuid)
    requires ProperExt(ext)
    requires id in s.rows ==> s.rows[id].kind.Video? && s.rows[id].status.Processing? && s.rows[id].renditions == map[]
    requires CompressEffect(s, m, id, p, uuid, if id in s.rows then s.rows[id].visibility else Public, ext, encoded, r,
                            log, from)
    ensures Sound(m.objects, m.rows, issued + {uuid}) && Evolve(s.rows, m.rows, Some(id))
  {
    forall k | k in m.objects ensures k.uuid in issued + {uuid} {
      if k.uuid != uuid { assert Kept(s.objects, m.objects, k); }
    }
    forall i | i in m.rows
      ensures OwnKeys(m.rows[i]) && ProperRow(m.rows[i]) && m.rows[i].poster != Some(i)
      ensures m.rows[i].storageKey.uuid in issued + {uuid}
      ensures i in s.rows ==> Descends(m.rows[i], s.rows[i]) && (i != id ==> m.rows[i] == s.rows[i])
      ensures i !in s.rows ==> m.rows[i].kind.Image? && m.rows[i].contentHash.None?
    {
      BodyRow(s, m, id, p, uuid, ext, encoded, r, log, from, issued, i);
    }
    forall i, j | i in m.rows && j in m.rows && i != j ensures !SameStem(m.rows[i].storageKey, m.rows[j].storageKey) {
      BodyRow(s, m, id, p, uuid, ext, encoded, r, log, from, issued, i);
      BodyRow(s, m, id, p, uuid, ext, encoded, r, log, from, issued, j);
    }
  }

  /** The body of a compression task, before the raw object goes. */
  lemma BodyKeepsStores(s: Contents, m: Contents, id: Id, p: Id, uuid: string, ext: string, encoded: Option<Bytes>,
                        r: TaskResult, log: seq<Attempt>, from: nat, issued: set<string>)
    requires Sound(s.objects, s.rows, issued) && Boundary(s.objects, s.rows) && uuid !in issued && Plain(uuid)
    requires ProperExt(ext)
    requires id in s.rows ==> s.rows[id].kind.Video? && s.rows[id].status.Processing? && s.rows[id].renditions == map[]
    requires CompressEffect(s, m, id, p, uuid, if id in s.rows then s.rows[id].visibility else Public, ext, encoded, r,
                            log, from)
    ensures Sound(m.objects, m.rows, issued + {uuid}) && Boundary(m.objects, m.rows) && Evolve(s.rows, m.rows, Some(id))
  {
    BodyKeepsSound(s, m, id, p, uuid, ext, encoded, r, log, from, issued);
    forall i | i in m.rows ensures Carried(s, m, i) || Settled(m.rows[i]) {
      if i in s.rows { assert Kept(s.objects, m.objects, s.rows[i].storageKey); }
    }
    BoundaryCarried(s, m);
  }

  lemma FewerObjects(m: Contents, t: Contents, issued: set<string>)
    requires Sound(m.objects, m.rows, issued) && Boundary(m.objects, m.rows)
    requires t.rows == m.rows && forall k :: k in t.objects ==> k in m.objects
    ensures Sound(t.objects, t.rows, issued) && Boundary(t.objects, t.rows)
  {
  }

  lemma RunKeepsStores(s: Contents, t: Contents, raw: Key, id: Id, p: Id, uuid: string, ext: string,
                       encoded: Option<Bytes>, r: TaskResult, log: seq<Attempt>, from: nat, issued: set<string>)
    requires Sound(s.objects, s.rows, issued) && Boundary(s.objects, s.rows) && uuid !in issued && Plain(uuid)
    requires ProperExt(ext)
    requires id in s.rows ==> s.rows[id].kind.Video? && s.rows[id].status.Processing? && s.rows[id].renditions == map[]
    requires RunEffect(s, t, raw, id, p, uuid, ext, encoded, r, log, from)
    ensures Sound(t.objects, t.rows, issued + {uuid}) && Boundary(t.objects, t.rows) && Evolve(s.rows, t.rows, Some(id))
    ensures forall i :: i in t.rows && i !in s.rows ==> i == p
  {
    if !r.LoadFailed? {
      var m: Contents :|
        && CompressEffect(s, m, id, p, uuid, if id in s.rows then s.rows[id].visibility else Public, ext, encoded, r,
                          log, from)
        && t.rows == m.rows
        && (t.objects == m.objects - {raw} || (t.objects == m.objects && Refused(log, from, raw)));
      BodyKeepsStores(s, m, id, p, uuid, ext, encoded, r, log, from, issued);
      assert forall i :: i in m.rows && i !in s.rows ==> i == p;
      FewerObjects(m, t, issued + {uuid});
    }
  }

  // ----- Requests and tasks --------------------------------------------------------------

  /** A request or task, with what the codecs will make of its input.  A missing file name
      is an empty one. */
  datatype Job =
    | PutImage(owner: string, image: Request, encodedImage: Option<(Bytes, map<string, Bytes>)>, raiseOnError: bool)
    | PutFile(owner: string, file: Request, filename: string)
    | PutVideo(owner: string, video: Request, visibility: Visibility, filename: string, callback: bool)
    | Compress(pick: nat, encoded: Option<Bytes>, withPoster: bool, frame: Option<Bytes>)
    | MakePoster(id: Id, frame: Option<Bytes>)
    | Patch(id: Id, owner: string, visibility: Visibility)
    | Remove(id: Id, owner: string)

  /** The image library names renditions canonically. */
  ghost predicate WellFormed(job: Job) {
    match job
    case PutImage(_, request, encoded, _) =>
      request.ImageRequest? && Proper(request) && (encoded.Some? ==> encoded.value.1.Keys <= CANONICAL_NAMES)
    case PutFile(_, request, _) => request.FileRequest? && Proper(request)
    case PutVideo(_, request, _, _, _) => request.VideoRequest? && Proper(request)
    case _ => true
  }

  /** Everything a job may change, with the logs of what raised. */
  datatype Moment = Moment(
    contents: Contents,
    issued: set<string>,
    nextId: Id,
    pending: seq<VideoTask>,
    deletes: seq<Attempt>,
    tableFaults: seq<TableFault>,
    otherFaults: nat)

  const Empty := Moment(Contents(map[], map[]), {}, 0, [], [], [], 0)

  ghost predicate Clean(m: Moment, n: Moment) {
    n.tableFaults == m.tableFaults && n.otherFaults == m.otherFaults
  }

  ghost predicate Later(m: Moment, n: Moment) {
    && m.issued <= n.issued && m.nextId <= n.nextId && m.deletes <= n.deletes
    && m.tableFaults <= n.tableFaults && m.otherFaults <= n.otherFaults
  }

  /** An upload, whichever way it ended: it added row `row` only when no lookup found the
      request, or the lookup raised; and it did add it when nothing was found, nothing
      raised and the input was acceptable. */
  ghost predicate Uploaded(m: Moment, n: Moment, owner: string, request: Request, acceptable: bool, row: Row,
                           hash: Bytes -> string, digest: string -> string)
  {
    && UploadEffect(m.contents, n.contents, m.issued, m.nextId, row)
    && row.storageKey.uuid in n.issued && (forall k :: k in n.contents.objects ==> k.uuid in n.issued && ProperKey(k))
    && TracedTo(row, request, hash, digest) && row.owner == owner && PlainVideo(row)
    && NothingStray(m.contents.objects, n.contents.objects, n.contents.rows, m.nextId, n.deletes, |m.deletes|)
    && (n.contents.rows != m.contents.rows ==> m.nextId < n.nextId)
    && var hit := Hit(m.contents.rows, owner, row.kind, ContentHash(hash, digest, request));
    && (n.contents.rows != m.contents.rows ==> !hit || Raised(n.tableFaults, |m.tableFaults|, LookupFault))
    && (Clean(m, n) && !hit && acceptable ==> n.contents.rows == m.contents.rows[m.nextId := row])
  }

  /** A video upload queues its task exactly when it keeps its row and answers 202. */
  ghost predicate TaskQueued(m: Moment, n: Moment, row: Row, format: string) {
    || n.pending == m.pending
    || (n.contents.rows == m.contents.rows[m.nextId := row] && m.nextId < n.nextId
        && n.pending == m.pending + [VideoTask(row.storageKey, m.nextId, format)])
  }

  ghost predicate Compressed(m: Moment, n: Moment, at: nat, encoded: Option<Bytes>, uuid: string, r: TaskResult)
    requires at < |m.pending|
  {
    var task := m.pending[at];
    && n.pending == m.pending[..at] + m.pending[at + 1..]
    && uuid !in m.issued && Plain(uuid) && n.issued == m.issued + {uuid}
    && RunEffect(m.contents, n.contents, task.raw, task.id, m.nextId, uuid, OutputExt(task.format), encoded, r,
                 n.deletes, |m.deletes|)
    && Outcome(m.contents, n.contents, task.id, m.nextId, task.format, r)
    && (r.Success? ==> task.raw in m.contents.objects)
    && (r.LoadFailed? ==> Raised(n.tableFaults, |m.tableFaults|, LoadFault))
    && (Clean(m, n) && task.raw in m.contents.objects && encoded.Some? ==> r.Success? || r.Discarded?)
  }

  ghost predicate PosterMade(m: Moment, n: Moment, video: Id, frame: Option<Bytes>, uuid: string, linked: bool) {
    && uuid !in m.issued && Plain(uuid) && n.issued == m.issued + {uuid}
    && (frame.Some? && Clean(m, n) ==> (linked <==> ReadyVideo(m.contents.rows, m.contents.objects, video)))
    && (m.nextId in n.contents.rows ==>
          video in m.contents.rows && TakesAfter(n.contents.rows[m.nextId], m.contents.rows[video]))
    && (|| (n.contents == m.contents && !linked)
        || (video in m.contents.rows
            && var row := m.contents.rows[video];
               PosterEffect(m.contents, n.contents, video, m.nextId, PosterKey(uuid, row.visibility), frame,
                            PosterRow(row.owner, uuid, row.visibility), linked, n.deletes, |m.deletes|)))
  }

  ghost function SnapOf(m: Moment): Snapshot {
    Snapshot(m.contents.objects, m.contents.rows, m.issued)
  }

  ghost predicate PatchServed(m: Moment, n: Moment, id: Id, owner: string, visibility: Visibility) {
    && (|| PatchMade(SnapOf(m), SnapOf(n), id, visibility, n.deletes, |m.deletes|)
        || PatchRefused(SnapOf(m), SnapOf(n), n.deletes, |m.deletes|))
    && SoundSnap(SnapOf(n))
    && (Clean(m, n) && Owns(m.contents, id, owner) ==>
          PatchMade(SnapOf(m), SnapOf(n), id, visibility, n.deletes, |m.deletes|))
  }

  ghost function FileExt(filename: string): string {
    SanitizeExtension(if filename == "" then "file.bin" else filename)
  }

  ghost function VideoExt(filename: string): string {
    SanitizeExtension(if filename == "" then "video.mp4" else filename)
  }

  ghost predicate ImageServed(m: Moment, n: Moment, owner: string, request: Request,
                              encoded: Option<(Bytes, map<string, Bytes>)>, row: Row,
                              hash: Bytes -> string, digest: string -> string)
  {
    && request.ImageRequest? && Uploaded(m, n, owner, request, encoded.Some?, row, hash, digest)
    && RecordedAs(row, owner, Image, Ready, request.visibility, ContentHash(hash, digest, request), false, "images",
                  "webp")
    && (n.contents.rows != m.contents.rows ==>
          encoded.Some? && Complete(row, m.contents.objects, n.contents.objects, encoded.value.0, encoded.value.1))
  }

  ghost predicate FileServed(m: Moment, n: Moment, owner: string, request: Request, ext: string, row: Row,
                             hash: Bytes -> string, digest: string -> string)
  {
    && request.FileRequest? && Uploaded(m, n, owner, request, true, row, hash, digest)
    && RecordedAs(row, owner, File, Ready, request.visibility, ContentHash(hash, digest, request), false, "files", ext)
  }

  ghost predicate VideoServed(m: Moment, n: Moment, owner: string, request: Request, visibility: Visibility,
                              ext: string, callback: bool, row: Row, hash: Bytes -> string, digest: string -> string)
  {
    && request.VideoRequest? && Uploaded(m, n, owner, request, true, row, hash, digest)
    && RecordedAs(row, owner, Video, Processing, visibility, ContentHash(hash, digest, request), callback, "raw/videos",
                  ext)
    && TaskQueued(m, n, row, request.format)
  }

  /** What serving `job` may do. */
  ghost predicate Served(job: Job, m: Moment, n: Moment, hash: Bytes -> string, digest: string -> string) {
    && Later(m, n)
    && (!job.PutVideo? && !job.Compress? ==> n.pending == m.pending)
    && match job
       case PutImage(owner, request, encoded, _) =>
         exists row: Row :: ImageServed(m, n, owner, request, encoded, row, hash, digest)
       case PutFile(owner, request, filename) =>
         exists row: Row :: FileServed(m, n, owner, request, FileExt(filename), row, hash, digest)
       case PutVideo(owner, request, visibility, filename, callback) =>
         exists row: Row ::
           VideoServed(m, n, owner, request, visibility, VideoExt(filename), callback, row, hash, digest)
       case Compress(pick, encoded, _, _) =>
         if m.pending == [] then n == m
         else exists uuid, r :: Compressed(m, n, pick % |m.pending|, encoded, uuid, r)
       case MakePoster(id, frame) =>
         if id >= m.nextId then n == m else exists uuid, linked :: PosterMade(m, n, id, frame, uuid, linked)
       case Patch(id, owner, visibility) => PatchServed(m, n, id, owner, visibility)
       case Remove(id, owner) =>
         exists r ::
           DeleteAttempt(m.contents, n.contents, id, owner, r, Clean(m, n), n.deletes, |m.deletes|)
  }

  // ----- Every job keeps the invariant --------------------------------------------------------

  /** A queued task still finds its row, if it is there, as its upload left it. */
  ghost predicate Awaits(rows: map<Id, Row>, task: VideoTask) {
    task.id in rows ==> rows[task.id].kind.Video? && rows[task.id].status.Processing?
  }

  ghost predicate Queued(rows: map<Id, Row>, nextId: Id, pending: seq<VideoTask>) {
    && (forall i :: 0 <= i < |pending| ==> pending[i].id < nextId && Awaits(rows, pending[i]))
    && (forall i, j :: 0 <= i < j < |pending| ==> pending[i].id != pending[j].id)
  }

  /** Tasks other than the one being worked on are undisturbed. */
  lemma StillQueued(before: map<Id, Row>, after: map<Id, Row>, nextId: Id, now: Id, pending: seq<VideoTask>,
                    worked: Option<Id>)
    requires Queued(before, nextId, pending) && nextId <= now && Evolve(before, after, worked)
    requires forall i :: 0 <= i < |pending| ==>
               Some(pending[i].id) != worked && (pending[i].id in after ==> pending[i].id in before)
    ensures Queued(after, now, pending)
  {
    forall i | 0 <= i < |pending| ensures Awaits(after, pending[i]) {
      assert Awaits(before, pending[i]);
    }
  }

  lemma UploadStillQueued(before: map<Id, Row>, after: map<Id, Row>, id: Id, now: Id, pending: seq<VideoTask>, row: Row)
    requires Queued(before, id, pending) && id <= now && (after == before || after == before[id := row])
    ensures Queued(after, now, pending)
  {
    forall i | 0 <= i < |pending| ensures Awaits(after, pending[i]) {
      assert Awaits(before, pending[i]);
    }
  }

  lemma TaskIsQueued(before: map<Id, Row>, id: Id, now: Id, pending: seq<VideoTask>, row: Row, task: VideoTask)
    requires Queued(before, id, pending) && id < now && row.kind.Video? && row.status.Processing? && task.id == id
    ensures Queued(before[id := row], now, pending + [task])
  {
    UploadStillQueued(before, before[id := row], id, now, pending, row);
  }

  lemma TakeTask(rows: map<Id, Row>, nextId: Id, pending: seq<VideoTask>, n: nat)
    requires Queued(rows, nextId, pending) && n < |pending|
    ensures var rest := pending[..n] + pending[n + 1..];
            && Queued(rows, nextId, rest)
            && (forall i :: 0 <= i < |rest| ==> rest[i].id != pending[n].id)
    ensures Awaits(rows, pending[n]) && pending[n].id < nextId
  {
    var rest := pending[..n] + pending[n + 1..];
    forall i | 0 <= i < |rest| ensures rest[i] == pending[if i < n then i else i + 1] {}
  }

  /** Between jobs. */
  ghost predicate Steady(m: Moment, hash: Bytes -> string, digest: string -> string) {
    && Sound(m.contents.objects, m.contents.rows, m.issued)
    && (forall k :: k in m.contents.objects ==> ProperKey(k))
    && Boundary(m.contents.objects, m.contents.rows)
    && (forall id :: id in m.contents.rows ==>
          id < m.nextId && Traced(m.contents.rows[id], hash, digest) && PlainVideo(m.contents.rows[id]))
    && Queued(m.contents.rows, m.nextId, m.pending)
    && (LookupFault !in m.tableFaults ==> UniqueUsable(m.contents.rows))
  }

  lemma NoLookupFaultYet(m: Moment, n: Moment)
    requires m.tableFaults <= n.tableFaults && LookupFault !in n.tableFaults
    ensures LookupFault !in m.tableFaults && !Raised(n.tableFaults, |m.tableFaults|, LookupFault)
  {
    forall f | f in m.tableFaults ensures f in n.tableFaults {
      var i :| 0 <= i < |m.tableFaults| && m.tableFaults[i] == f;
      assert n.tableFaults[i] == f;
    }
  }

  /** All of the invariant but the task queue, after an upload. */
  lemma UploadKeepsSteady(m: Moment, n: Moment, owner: string, request: Request, acceptable: bool, row: Row,
                          hash: Bytes -> string, digest: string -> string)
    requires GoodHash(hash) && GoodDigest(digest) && Steady(m, hash, digest) && Later(m, n)
    requires Uploaded(m, n, owner, request, acceptable, row, hash, digest)
    requires Queued(n.contents.rows, n.nextId, n.pending)
    ensures Steady(n, hash, digest)
  {
    UploadKeepsStores(m.contents, n.contents, m.issued, n.issued, m.nextId, row);
    UploadKeepsUnique(m, n, owner, request, acceptable, row, hash, digest);
    assert Traced(row, hash, digest) && PlainVideo(row);
    assert forall id :: id in n.contents.rows ==> id < n.nextId;
  }

  lemma UploadKeepsUnique(m: Moment, n: Moment, owner: string, request: Request, acceptable: bool, row: Row,
                          hash: Bytes -> string, digest: string -> string)
    requires GoodHash(hash) && GoodDigest(digest) && Steady(m, hash, digest) && Later(m, n)
    requires Uploaded(m, n, owner, request, acceptable, row, hash, digest)
    ensures LookupFault !in n.tableFaults ==> UniqueUsable(n.contents.rows)
  {
    if LookupFault !in n.tableFaults {
      NoLookupFaultYet(m, n);
      if n.contents.rows != m.contents.rows { NewRowIsUnique(m.contents.rows, m.nextId, row, request, hash, digest); }
    }
  }

  /** After a job that adds no upload. */
  lemma EvolveKeepsSteady(m: Moment, n: Moment, worked: Option<Id>, hash: Bytes -> string, digest: string -> string)
    requires Steady(m, hash, digest) && Later(m, n) && Evolve(m.contents.rows, n.contents.rows, worked)
    requires Sound(n.contents.objects, n.contents.rows, n.issued) && Boundary(n.contents.objects, n.contents.rows)
    requires forall k :: k in n.contents.objects ==> ProperKey(k)
    requires forall id :: id in n.contents.rows && id !in m.contents.rows ==> m.nextId <= id < n.nextId
    requires Queued(m.contents.rows, m.nextId, n.pending)
    requires forall i :: 0 <= i < |n.pending| ==> Some(n.pending[i].id) != worked
    ensures Steady(n, hash, digest)
  {
    EvolvingKeepsTraces(m.contents.rows, n.contents.rows, worked, hash, digest);
    StillQueued(m.contents.rows, n.contents.rows, m.nextId, n.nextId, n.pending, worked);
    if LookupFault !in n.tableFaults {
      NoLookupFaultYet(m, n);
      EvolvingKeepsUnique(m.contents.rows, n.contents.rows, worked);
    }
  }

  ghost predicate Tidy(n: Moment) {
    && (forall k :: k in n.contents.objects ==> ProperKey(k))
    && (forall id :: id in n.contents.rows ==> id < n.nextId)
  }

  /** Whatever a job does, it keeps the invariant. */
  lemma ServedKeepsSteady(job: Job, m: Moment, n: Moment, hash: Bytes -> string, digest: string -> string)
    requires GoodHash(hash) && GoodDigest(digest) && Steady(m, hash, digest)
    requires Served(job, m, n, hash, digest) && Tidy(n)
    ensures Steady(n, hash, digest)
  {
    match job
    case PutImage(owner, request, encoded, _) =>
      var row: Row :| ImageServed(m, n, owner, request, encoded, row, hash, digest);
      UploadStillQueued(m.contents.rows, n.contents.rows, m.nextId, n.nextId, m.pending, row);
      UploadKeepsSteady(m, n, owner, request, encoded.Some?, row, hash, digest);
    case PutFile(owner, request, filename) =>
      var row: Row :| FileServed(m, n, owner, request, FileExt(filename), row, hash, digest);
      UploadStillQueued(m.contents.rows, n.contents.rows, m.nextId, n.nextId, m.pending, row);
      UploadKeepsSteady(m, n, owner, request, true, row, hash, digest);
    case PutVideo(owner, request, _, _, _) => VideoKeepsSteady(job, m, n, hash, digest);
    case Compress(_, _, _, _) => CompressKeepsSteady(job, m, n, hash, digest);
    case MakePoster(_, _) => PosterKeepsSteady(job, m, n, hash, digest);
    case Patch(id, owner, visibility) =>
      PatchKeepsBoundary(SnapOf(m), SnapOf(n), id, visibility, n.deletes, |m.deletes|);
      PatchEvolves(SnapOf(m), SnapOf(n), id, visibility, n.deletes, |m.deletes|);
      EvolveKeepsSteady(m, n, None, hash, digest);
    case Remove(id, owner) =>
      var r :| DeleteAttempt(m.contents, n.contents, id, owner, r, Clean(m, n), n.deletes, |m.deletes|);
      DeleteKeepsSteady(m, n, id, owner, r, hash, digest);
  }

  lemma VideoKeepsSteady(job: Job, m: Moment, n: Moment, hash: Bytes -> string, digest: string -> string)
    requires GoodHash(hash) && GoodDigest(digest) && Steady(m, hash, digest)
    requires job.PutVideo? && Served(job, m, n, hash, digest)
    ensures Steady(n, hash, digest)
  {
    var row: Row :| VideoServed(m, n, job.owner, job.video, job.visibility, VideoExt(job.filename), job.callback, row,
                                hash, digest);
    if n.pending == m.pending {
      UploadStillQueued(m.contents.rows, n.contents.rows, m.nextId, n.nextId, m.pending, row);
    } else {
      TaskIsQueued(m.contents.rows, m.nextId, n.nextId, m.pending, row,
                   VideoTask(row.storageKey, m.nextId, job.video.format));
    }
    UploadKeepsSteady(m, n, job.owner, job.video, true, row, hash, digest);
  }

  lemma CompressKeepsSteady(job: Job, m: Moment, n: Moment, hash: Bytes -> string, digest: string -> string)
    requires Steady(m, hash, digest) && job.Compress? && Served(job, m, n, hash, digest) && Tidy(n)
    ensures Steady(n, hash, digest)
  {
    if m.pending != [] {
      var at := job.pick % |m.pending|;
      var uuid, r :| Compressed(m, n, at, job.encoded, uuid, r);
      var task := m.pending[at];
      TakeTask(m.contents.rows, m.nextId, m.pending, at);
      assert ProperExt(OutputExt(task.format)) by { assert ProperExt("webm") && ProperExt("mp4"); }
      RunKeepsStores(m.contents, n.contents, task.raw, task.id, m.nextId, uuid, OutputExt(task.format), job.encoded, r,
                     n.deletes, |m.deletes|, m.issued);
      EvolveKeepsSteady(m, n, Some(task.id), hash, digest);
    }
  }

  lemma PosterKeepsSteady(job: Job, m: Moment, n: Moment, hash: Bytes -> string, digest: string -> string)
    requires Steady(m, hash, digest) && job.MakePoster? && Served(job, m, n, hash, digest) && Tidy(n)
    ensures Steady(n, hash, digest)
  {
    if job.id < m.nextId {
      var uuid, linked :| PosterMade(m, n, job.id, job.frame, uuid, linked);
      if n.contents == m.contents {
        assert Evolve(m.contents.rows, n.contents.rows, None);
      } else {
        var row := m.contents.rows[job.id];
        PosterKeepsStores(m.contents, n.contents, job.id, m.nextId, uuid, row.visibility, row.owner, job.frame, linked,
                          n.deletes, |m.deletes|, m.issued);
      }
      EvolveKeepsSteady(m, n, None, hash, digest);
    }
  }

  lemma DeleteKeepsSteady(m: Moment, n: Moment, id: Id, owner: string, r: DeleteResult, hash: Bytes -> string,
                          digest: string -> string)
    requires Steady(m, hash, digest) && Later(m, n) && n.pending == m.pending
    requires DeleteAttempt(m.contents, n.contents, id, owner, r, Clean(m, n), n.deletes, |m.deletes|)
    ensures Steady(n, hash, digest)
  {
    DeleteKeepsStores(m.contents, n.contents, n.issued, id, owner, r, Clean(m, n), n.deletes, |m.deletes|);
    EvolveKeepsSteady(m, n, None, hash, digest);
  }

  // ----- Runs ------------------------------------------------------------------------------------

  /** A run: a history with one moment more than jobs, each job leading to the next moment. */
  ghost predicate Run(jobs: seq<Job>, history: seq<Moment>, hash: Bytes -> string, digest: string -> string) {
    && |history| == |jobs| + 1 && history[0] == Empty
    && forall i :: 0 <= i < |jobs| ==> LeadsTo(jobs[i], history[i], history[i + 1], hash, digest)
  }

  ghost predicate LeadsTo(job: Job, m: Moment, n: Moment, hash: Bytes -> string, digest: string -> string) {
    WellFormed(job) && Served(job, m, n, hash, digest) && Tidy(n)
  }

  lemma EmptyIsSteady(hash: Bytes -> string, digest: string -> string)
    ensures Steady(Empty, hash, digest)
  {
  }

  lemma {:induction false} RunsStaySteady(jobs: seq<Job>, history: seq<Moment>, hash: Bytes -> string,
                                          digest: string -> string, i: nat)
    requires GoodHash(hash) && GoodDigest(digest) && Run(jobs, history, hash, digest) && i < |history|
    ensures Steady(history[i], hash, digest)
  {
    if i == 0 {
      EmptyIsSteady(hash, digest);
    } else {
      RunsStaySteady(jobs, history, hash, digest, i - 1);
      ServedKeepsSteady(jobs[i - 1], history[i - 1], history[i], hash, digest);
    }
  }

  /** At every moment of every run, under any faults: what is private, and it alone, is
      spelled under `private/`; no two keys in use are spelled alike; and unless one of the
      idempotency lookups has raised, no two usable rows of one owner carry the same hash. */
  lemma SerialRunsAreSafe(jobs: seq<Job>, history: seq<Moment>, hash: Bytes -> string, digest: string -> string, i: nat)
    requires GoodHash(hash) && GoodDigest(digest) && Run(jobs, history, hash, digest) && i < |history|
    ensures SpelledBoundary(history[i].contents.objects, history[i].contents.rows)
    ensures LookupFault !in history[i].tableFaults ==> UniqueUsable(history[i].contents.rows)
    ensures forall a, b :: a in history[i].contents.rows && b in history[i].contents.rows && a != b ==>
              KeysOf(history[i].contents.rows[a]) !! KeysOf(history[i].contents.rows[b])
  {
    var m := history[i];
    RunsStaySteady(jobs, history, hash, digest, i);
    BoundaryIsSpelled(m.contents.objects, m.contents.rows, m.issued);
    forall a, b | a in m.contents.rows && b in m.contents.rows && a != b
      ensures KeysOf(m.contents.rows[a]) !! KeysOf(m.contents.rows[b])
    {
      RowsAreDisjoint(m.contents.objects, m.contents.rows, m.issued, a, b);
    }
  }

  /** An upload handler's contract, as a step of a run. */
  lemma UploadIsStep(m: Moment, n: Moment, owner: string, request: Request, acceptable: bool, row: Row, hit: bool,
                     hash: Bytes -> string, digest: string -> string)
    requires UploadEffect(m.contents, n.contents, m.issued, m.nextId, row) && row.storageKey.uuid in n.issued
    requires forall k :: k in n.contents.objects ==> k.uuid in n.issued && ProperKey(k)
    requires Proper(request) && KindOf(request) == row.kind && PlainVideo(row)
    requires row.contentHash == Some(ContentHash(hash, digest, request)) && row.owner == owner
    requires n.contents.rows != m.contents.rows ==> m.nextId < n.nextId
    requires hit == Hit(m.contents.rows, owner, row.kind, ContentHash(hash, digest, request))
    requires n.contents.rows != m.contents.rows ==> !hit || Raised(n.tableFaults, |m.tableFaults|, LookupFault)
    requires Clean(m, n) && !hit && acceptable ==> n.contents.rows == m.contents.rows[m.nextId := row]
    requires NothingStray(m.contents.objects, n.contents.objects, n.contents.rows, m.nextId, n.deletes, |m.deletes|)
    ensures Uploaded(m, n, owner, request, acceptable, row, hash, digest)
  {
  }

  // ----- The service ---------------------------------------------------------------------------

  /** What the handlers count on. */
  ghost predicate Servable(m: Moment) {
    && Sound(m.contents.objects, m.contents.rows, m.issued)
    && (forall i :: 0 <= i < |m.pending| ==> m.pending[i].id < m.nextId)
  }

  lemma SteadyIsServable(jobs: seq<Job>, history: seq<Moment>, hash: Bytes -> string, digest: string -> string, i: nat)
    requires GoodHash(hash) && GoodDigest(digest) && Run(jobs, history, hash, digest) && i < |history|
    ensures Servable(history[i])
  {
    RunsStaySteady(jobs, history, hash, digest, i);
  }

  /** The handlers put together: what they do is a run. */
  class Service {
    const storage: ObjectStore
    const table: RowTable
    const uuids: Uuids
    const tasks: TaskQueue
    const hooks: WebhookQueue
    const hash: Bytes -> string
    const digest: string -> string

    ghost predicate Valid()
      reads storage, table, uuids
    {
      storage.Valid() && table.Valid() && uuids.Valid()
    }

    ghost function Now(): Moment
      reads storage, table, uuids, tasks
    {
      Moment(Contents(storage.objects, table.rows), uuids.issued, table.nextId, tasks.pending, storage.deletes,
             table.faults, storage.faults + tasks.faults)
    }

    constructor (hash: Bytes -> string, digest: string -> string)
      ensures Valid() && Now() == Empty && this.hash == hash && this.digest == digest
      ensures fresh(storage) && fresh(table) && fresh(uuids) && fresh(tasks) && fresh(hooks)
    {
      storage := new ObjectStore();
      table := new RowTable();
      uuids := new Uuids();
      tasks := new TaskQueue();
      hooks := new WebhookQueue();
      this.hash, this.digest := hash, digest;
    }

    method ServeImage(job: Job) returns (ghost row: Row)
      requires Valid() && job.PutImage? && WellFormed(job)
      requires forall k :: k in storage.objects ==> k.uuid in uuids.issued
      modifies storage, table, uuids
      ensures Valid() && Later(old(Now()), Now()) && tasks.pending == old(tasks.pending)
      ensures ImageServed(old(Now()), Now(), job.owner, job.image, job.encodedImage, row, hash, digest)
    {
      ghost var m := Now();
      var r;
      r, row := ProcessSingleImage(storage, table, uuids, job.owner, hash, digest, job.image, job.encodedImage,
                                       job.raiseOnError);
      UploadIsStep(m, Now(), job.owner, job.image, job.encodedImage.Some?, row,
                   ReadyHit(m.contents.rows, job.owner, ContentHash(hash, digest, job.image)), hash, digest);
    }

    method ServeFile(job: Job) returns (ghost row: Row)
      requires Valid() && job.PutFile? && WellFormed(job) && forall k :: k in storage.objects ==> k.uuid in uuids.issued
      modifies storage, table, uuids
      ensures Valid() && Later(old(Now()), Now()) && tasks.pending == old(tasks.pending)
      ensures FileServed(old(Now()), Now(), job.owner, job.file, FileExt(job.filename), row, hash, digest)
    {
      ghost var m := Now();
      var ext := SanitizeExtension(if job.filename == "" then "file.bin" else job.filename);
      var r;
      r, row := UploadFile(storage, table, uuids, job.owner, hash, digest, job.file, ext);
      UploadIsStep(m, Now(), job.owner, job.file, true, row,
                   ReadyHit(m.contents.rows, job.owner, ContentHash(hash, digest, job.file)), hash, digest);
    }

    method ServeVideo(job: Job) returns (ghost row: Row)
      requires Valid() && job.PutVideo? && WellFormed(job)
      requires forall k :: k in storage.objects ==> k.uuid in uuids.issued
      modifies storage, table, uuids, tasks
      ensures Valid() && Later(old(Now()), Now())
      ensures VideoServed(old(Now()), Now(), job.owner, job.video, job.visibility, VideoExt(job.filename), job.callback,
                          row, hash, digest)
    {
      ghost var m := Now();
      var ext := SanitizeExtension(if job.filename == "" then "video.mp4" else job.filename);
      var r;
      r, row := UploadVideo(storage, table, uuids, tasks, job.owner, hash, digest, job.video, job.visibility, ext,
                                job.callback);
      UploadIsStep(m, Now(), job.owner, job.video, true, row,
                   VideoHit(m.contents.rows, job.owner, ContentHash(hash, digest, job.video)), hash, digest);
      assert TaskQueued(m, Now(), row, job.video.format);
    }

    /** A worker takes one task off the queue and runs it. */
    method ServeCompress(job: Job)
      requires Valid() && job.Compress? && tasks.pending != []
      requires forall k :: k in storage.objects ==> k.uuid in uuids.issued
      requires forall i :: 0 <= i < |tasks.pending| ==> tasks.pending[i].id < table.nextId
      modifies storage, table, uuids, tasks, hooks
      ensures Valid() && Later(old(Now()), Now())
      ensures exists uuid, r ::
                Compressed(old(Now()), Now(), job.pick % |old(Now()).pending|, job.encoded, uuid, r)
    {
      ghost var m := Now();
      var at := job.pick % |tasks.pending|;
      var task := tasks.pending[at];
      tasks.pending := tasks.pending[..at] + tasks.pending[at + 1..];
      var r, u := CompressVideo(storage, table, uuids, hooks, task.raw, task.id, task.format, job.encoded,
                                job.withPoster, job.frame);
      assert Compressed(m, Now(), at, job.encoded, u, r);
    }

    method ServePoster(job: Job)
      requires Valid() && job.MakePoster? && job.id < table.nextId
      requires forall k :: k in storage.objects ==> k.uuid in uuids.issued
      modifies storage, table, uuids
      ensures Valid() && Later(old(Now()), Now()) && tasks.pending == old(tasks.pending)
      ensures exists uuid, linked :: PosterMade(old(Now()), Now(), job.id, job.frame, uuid, linked)
    {
      ghost var m := Now();
      var r, u := GeneratePoster(storage, table, uuids, job.id, job.frame);
      assert PosterMade(m, Now(), job.id, job.frame, u, r.Linked?);
    }

    method ServePatch(job: Job)
      requires Valid() && job.Patch? && SoundSnap(SnapOf(Now()))
      modifies storage, table, uuids
      ensures Valid() && Later(old(Now()), Now()) && tasks.pending == old(tasks.pending)
      ensures PatchServed(old(Now()), Now(), job.id, job.owner, job.visibility)
    {
      var r := SetFileVisibility(storage, table, uuids, job.id, job.owner, job.visibility);
    }

    method ServeRemove(job: Job)
      requires Valid() && job.Remove? && forall i :: i in table.rows ==> table.rows[i].poster != Some(i)
      modifies storage, table
      ensures Valid() && Later(old(Now()), Now()) && tasks.pending == old(tasks.pending)
      ensures exists r ::
                DeleteAttempt(old(Now()).contents, Now().contents, job.id, job.owner, r, Clean(old(Now()), Now()),
                              storage.deletes, |old(storage.deletes)|)
    {
      ghost var m := Now();
      var r := DeleteUpload(storage, table, job.id, job.owner);
      assert DeleteAttempt(m.contents, Now().contents, job.id, job.owner, r, Clean(m, Now()), storage.deletes,
                           |old(storage.deletes)|);
    }

    method Serve(job: Job)
      requires Valid() && Servable(Now()) && WellFormed(job)
      modifies storage, table, uuids, tasks, hooks
      ensures Valid() && Served(job, old(Now()), Now(), hash, digest) && Tidy(Now())
    {
      match job
      case PutImage(_, _, _, _) => ghost var row := ServeImage(job);
      case PutFile(_, _, _) => ghost var row := ServeFile(job);
      case PutVideo(_, _, _, _, _) => ghost var row := ServeVideo(job);
      case Compress(_, _, _, _) => if tasks.pending != [] { ServeCompress(job); }
      case MakePoster(_, _) => if job.id < table.nextId { ServePoster(job); }
      case Patch(_, _, _) => ServePatch(job);
      case Remove(_, _) => ServeRemove(job);
    }

    /** One more job of a run. */
    method ServeNext(jobs: seq<Job>, i: nat, ghost history: seq<Moment>)
      requires GoodHash(hash) && GoodDigest(digest) && i < |jobs| && WellFormed(jobs[i])
      requires Valid() && Run(jobs[..i], history, hash, digest) && history[i] == Now()
      modifies storage, table, uuids, tasks, hooks
      ensures Valid() && Run(jobs[..i + 1], history + [Now()], hash, digest)
    {
      SteadyIsServable(jobs[..i], history, hash, digest, i);
      Serve(jobs[i]);
      LongerRun(jobs, i, history, Now(), hash, digest);
    }
  }

  /** Any number of requests and tasks, one after another, with any faults: what the handlers
      do is a run, so that all that is said of runs holds of them. */
  method ServeAll(hash: Bytes -> string, digest: string -> string, jobs: seq<Job>)
    returns (service: Service, ghost history: seq<Moment>)
    requires GoodHash(hash) && GoodDigest(digest)
    requires forall i :: 0 <= i < |jobs| ==> WellFormed(jobs[i])
    ensures Run(jobs, history, hash, digest) && service.Now() == history[|jobs|]
    ensures SpelledBoundary(service.storage.objects, service.table.rows)
    ensures LookupFault !in service.table.faults ==> UniqueUsable(service.table.rows)
  {
    service := new Service(hash, digest);
    history := [service.Now()];
    for i := 0 to |jobs|
      invariant fresh(service.storage) && fresh(service.table) && fresh(service.uuids)
      invariant fresh(service.tasks) && fresh(service.hooks)
      invariant service.Valid() && service.hash == hash && service.digest == digest
      invariant Run(jobs[..i], history, hash, digest) && history[i] == service.Now()
    {
      service.ServeNext(jobs, i, history);
      history := history + [service.Now()];
    }
    assert jobs[..|jobs|] == jobs;
    SerialRunsAreSafe(jobs, history, hash, digest, |jobs|);
  }

  lemma LongerRun(jobs: seq<Job>, i: nat, history: seq<Moment>, next: Moment, hash: Bytes -> string,
                  digest: string -> string)
    requires i < |jobs| && Run(jobs[..i], history, hash, digest)
    requires LeadsTo(jobs[i], history[i], next, hash, digest)
    ensures Run(jobs[..i + 1], history + [next], hash, digest)
  {
    var longer, served := history + [next], jobs[..i + 1];
    forall k | 0 <= k < |served| ensures LeadsTo(served[k], longer[k], longer[k + 1], hash, digest) {
      if k < i { assert served[k] == jobs[..i][k] && longer[k + 1] == history[k + 1]; }
    }
  }
}
