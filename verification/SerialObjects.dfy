/** Where every stored object is accounted for between requests: in a row, or among the keys
    whose delete call raised; and the one way an object goes astray without either. */
module SerialObjects {
  import opened Records
  import opened Stores
  import opened World
  import opened Uploads
  import opened VisibilityPatch
  import opened Management
  import opened Tasks
  import opened Signatures
  import opened SerialRuns

  const RAW := "raw/videos"

  ghost predicate Pointed(rows: map<Id, Row>, k: Key) {
    exists id :: id in rows && k in KeysOf(rows[id])
  }

  /** A raw video, where the delete of another raw video has raised. */
  ghost predicate Superseded(log: seq<Attempt>, k: Key) {
    k.base == RAW && exists i :: 0 <= i < |log| && !log[i].ok && log[i].key.base == RAW && log[i].key != k
  }

  ghost predicate Accounted(m: Moment, k: Key) {
    Pointed(m.contents.rows, k) || Refused(m.deletes, 0, k) || Superseded(m.deletes, k)
  }

  /** What a queued task finds: its row, if it is there, points at the raw object, or at a copy
      that a PATCH made, the original being gone unless its delete raised. */
  ghost predicate Knows(m: Moment, task: VideoTask) {
    && task.raw.base == RAW && task.raw.uuid in m.issued
    && (task.id in m.contents.rows ==>
          var row := m.contents.rows[task.id];
          && row.storageKey.base == RAW && row.renditions == map[]
          && (row.storageKey == task.raw || task.raw !in m.contents.objects || Refused(m.deletes, 0, task.raw)))
  }

  ghost predicate Tallied(m: Moment) {
    && (forall k :: k in m.contents.objects ==> Accounted(m, k))
    && (forall i :: 0 <= i < |m.pending| ==> Knows(m, m.pending[i]))
  }

  lemma RefusedForGood(log: seq<Attempt>, longer: seq<Attempt>, from: nat, k: Key)
    requires log <= longer && Refused(longer, from, k)
    ensures Refused(longer, 0, k)
  {
    RefusedLater(longer, 0, from, k);
  }

  /** What was accounted for without its row still is, as the log only grows. */
  lemma StillAccounted(m: Moment, n: Moment, k: Key)
    requires m.deletes <= n.deletes && Accounted(m, k)
    requires Pointed(m.contents.rows, k) ==> Accounted(n, k)
    ensures Accounted(n, k)
  {
    if Refused(m.deletes, 0, k) { RefusedStays(m.deletes, n.deletes, 0, k); }
    if Superseded(m.deletes, k) {
      var i :| 0 <= i < |m.deletes| && !m.deletes[i].ok && m.deletes[i].key.base == RAW && m.deletes[i].key != k;
      assert n.deletes[i] == m.deletes[i];
    }
  }

  /** A job that leaves a task's row and its raw object alone, or drops the row. */
  lemma StillKnows(m: Moment, n: Moment, task: VideoTask)
    requires Knows(m, task) && m.deletes <= n.deletes && m.issued <= n.issued
    requires task.raw in n.contents.objects ==> task.raw in m.contents.objects
    requires task.id in n.contents.rows ==>
               && task.id in m.contents.rows
               && n.contents.rows[task.id].storageKey == m.contents.rows[task.id].storageKey
               && n.contents.rows[task.id].renditions == m.contents.rows[task.id].renditions
    ensures Knows(n, task)
  {
    if Refused(m.deletes, 0, task.raw) { RefusedStays(m.deletes, n.deletes, 0, task.raw); }
  }

  // ----- Uploads ----------------------------------------------------------------------------

  lemma UploadStaysTallied(m: Moment, n: Moment, owner: string, request: Request, acceptable: bool, row: Row,
                           hash: Bytes -> string, digest: string -> string)
    requires Tallied(m) && Later(m, n) && Tidy(m) && Uploaded(m, n, owner, request, acceptable, row, hash, digest)
    ensures forall k :: k in n.contents.objects ==> Accounted(n, k)
  {
    forall k | k in n.contents.objects ensures Accounted(n, k) {
      if k in m.contents.objects {
        if Pointed(m.contents.rows, k) {
          var id :| id in m.contents.rows && k in KeysOf(m.contents.rows[id]);
          assert id in n.contents.rows && n.contents.rows[id] == m.contents.rows[id];
        }
        StillAccounted(m, n, k);
      } else if m.nextId in n.contents.rows && k in KeysOf(n.contents.rows[m.nextId]) {
        assert Pointed(n.contents.rows, k);
      } else {
        RefusedForGood(m.deletes, n.deletes, |m.deletes|, k);
      }
    }
  }

  lemma UploadLeavesTasks(m: Moment, n: Moment, owner: string, request: Request, acceptable: bool, row: Row,
                          hash: Bytes -> string, digest: string -> string, task: VideoTask)
    requires Later(m, n) && Knows(m, task) && Uploaded(m, n, owner, request, acceptable, row, hash, digest)
    requires task.id < m.nextId
    ensures Knows(n, task)
  {
    assert Kept(m.contents.objects, n.contents.objects, task.raw);
    StillKnows(m, n, task);
  }

  lemma QueuedTaskKnows(m: Moment, n: Moment, row: Row, task: VideoTask)
    requires n.contents.rows == m.contents.rows[m.nextId := row] && task.raw == row.storageKey && task.id == m.nextId
    requires row.storageKey.base == RAW && row.storageKey.uuid in n.issued && row.renditions == map[]
    ensures Knows(n, task)
  {
  }

  // ----- PATCH ------------------------------------------------------------------------------

  /** What a PATCH makes of one row: the same keys, or copies, its old objects then being
      gone or refused. */
  lemma PatchedRow(m: Moment, n: Moment, id: Id, visibility: Visibility, j: Id)
    requires PatchMade(SnapOf(m), SnapOf(n), id, visibility, n.deletes, |m.deletes|)
             || PatchRefused(SnapOf(m), SnapOf(n), n.deletes, |m.deletes|)
    requires j in m.contents.rows
    ensures j in n.contents.rows
    ensures var was, now := m.contents.rows[j], n.contents.rows[j];
            || (now.storageKey == was.storageKey && now.renditions == was.renditions)
            || (now.storageKey.base == was.storageKey.base && (was.renditions == map[] ==> now.renditions == map[])
                && forall k :: k in KeysOf(was) && k in n.contents.objects ==> Refused(n.deletes, |m.deletes|, k))
  {
    var s, t := SnapOf(m), SnapOf(n);
    assert Untouched(s, t, j) || Flipped(s, t, j, visibility) || Repointed(s, t, j, visibility, n.deletes, |m.deletes|);
  }

  lemma PatchNothingNew(m: Moment, n: Moment, id: Id, visibility: Visibility, k: Key)
    requires PatchMade(SnapOf(m), SnapOf(n), id, visibility, n.deletes, |m.deletes|)
             || PatchRefused(SnapOf(m), SnapOf(n), n.deletes, |m.deletes|)
    requires k in n.contents.objects
    ensures || (k.uuid in m.issued && k in m.contents.objects)
            || Pointed(n.contents.rows, k) || Refused(n.deletes, |m.deletes|, k)
  {
  }

  lemma PatchStaysTallied(m: Moment, n: Moment, id: Id, owner: string, visibility: Visibility)
    requires Tallied(m) && Later(m, n) && PatchServed(m, n, id, owner, visibility) && n.pending == m.pending
    ensures Tallied(n)
  {
    forall k | k in n.contents.objects ensures Accounted(n, k) {
      PatchNothingNew(m, n, id, visibility, k);
      if Refused(n.deletes, |m.deletes|, k) {
        RefusedForGood(m.deletes, n.deletes, |m.deletes|, k);
      } else if k in m.contents.objects {
        if Pointed(m.contents.rows, k) {
          var j :| j in m.contents.rows && k in KeysOf(m.contents.rows[j]);
          PatchedRow(m, n, id, visibility, j);
          assert k in KeysOf(n.contents.rows[j]);
        }
        StillAccounted(m, n, k);
      }
    }
    forall i | 0 <= i < |n.pending| ensures Knows(n, n.pending[i]) {
      PatchLeavesTask(m, n, id, owner, visibility, n.pending[i]);
    }
  }

  lemma PatchLeavesTask(m: Moment, n: Moment, id: Id, owner: string, visibility: Visibility, task: VideoTask)
    requires Later(m, n) && PatchServed(m, n, id, owner, visibility) && Knows(m, task)
    ensures Knows(n, task)
  {
    assert task.raw in n.contents.objects ==> task.raw in m.contents.objects;
    if task.id in m.contents.rows {
      PatchedRow(m, n, id, visibility, task.id);
      var was, now := m.contents.rows[task.id], n.contents.rows[task.id];
      if now.storageKey == was.storageKey && now.renditions == was.renditions {
        StillKnows(m, n, task);
      } else {
        if Refused(m.deletes, 0, task.raw) { RefusedStays(m.deletes, n.deletes, 0, task.raw); }
        if was.storageKey == task.raw && task.raw in n.contents.objects {
          RefusedForGood(m.deletes, n.deletes, |m.deletes|, task.raw);
        }
      }
    } else {
      StillKnows(m, n, task);
    }
  }

  // ----- DELETE -----------------------------------------------------------------------------

  lemma DeleteStaysTallied(m: Moment, n: Moment, id: Id, owner: string, r: DeleteResult)
    requires Tallied(m) && Later(m, n) && n.pending == m.pending
    requires DeleteAttempt(m.contents, n.contents, id, owner, r, Clean(m, n), n.deletes, |m.deletes|)
    ensures Tallied(n)
  {
    forall k | k in n.contents.objects ensures Accounted(n, k) {
      assert k in m.contents.objects;
      if Pointed(m.contents.rows, k) {
        var j :| j in m.contents.rows && k in KeysOf(m.contents.rows[j]);
        if j in n.contents.rows {
          assert Pointed(n.contents.rows, k);
        } else {
          assert Attempted(n.deletes, |m.deletes|, k);
          LeftIsRefused(m.contents.objects, n.contents.objects, n.deletes, |m.deletes|, k);
          RefusedForGood(m.deletes, n.deletes, |m.deletes|, k);
        }
      }
      StillAccounted(m, n, k);
    }
    forall i | 0 <= i < |n.pending| ensures Knows(n, n.pending[i]) { StillKnows(m, n, n.pending[i]); }
  }

  // ----- Posters ----------------------------------------------------------------------------

  lemma PosterStaysTallied(m: Moment, n: Moment, video: Id, frame: Option<Bytes>, uuid: string, linked: bool)
    requires Tallied(m) && Later(m, n) && Tidy(m) && n.pending == m.pending
    requires forall i :: 0 <= i < |m.pending| ==> m.pending[i].id < m.nextId
    requires PosterMade(m, n, video, frame, uuid, linked)
    ensures Tallied(n)
  {
    forall k | k in n.contents.objects ensures Accounted(n, k) { PosterAccounts(m, n, video, frame, uuid, linked, k); }
    forall i | 0 <= i < |n.pending| ensures Knows(n, n.pending[i]) {
      assert m.pending[i].raw.uuid != uuid;
      StillKnows(m, n, n.pending[i]);
    }
  }

  lemma PosterAccounts(m: Moment, n: Moment, video: Id, frame: Option<Bytes>, uuid: string, linked: bool, k: Key)
    requires Tallied(m) && Later(m, n) && Tidy(m)
    requires PosterMade(m, n, video, frame, uuid, linked) && k in n.contents.objects
    ensures Accounted(n, k)
  {
    if k in m.contents.objects {
      if Pointed(m.contents.rows, k) {
        var j :| j in m.contents.rows && k in KeysOf(m.contents.rows[j]);
        assert j in n.contents.rows && KeysOf(n.contents.rows[j]) == KeysOf(m.contents.rows[j]);
      }
      StillAccounted(m, n, k);
    } else if m.nextId in n.contents.rows {
      assert k in KeysOf(n.contents.rows[m.nextId]);
    } else {
      RefusedForGood(m.deletes, n.deletes, |m.deletes|, k);
    }
  }

  // ----- Compression ------------------------------------------------------------------------

  /** The row a successful run re-points: its old object was the task's own, or a copy made of
      an original whose delete had raised. */
  lemma OldKeyAccounts(m: Moment, n: Moment, task: VideoTask, k: Key)
    requires Knows(m, task) && task.raw in m.contents.objects && m.deletes <= n.deletes
    requires task.id in m.contents.rows && k in KeysOf(m.contents.rows[task.id])
    requires k == task.raw ==> Refused(n.deletes, |m.deletes|, k)
    ensures Refused(n.deletes, 0, k) || Superseded(n.deletes, k)
  {
    if k == task.raw {
      RefusedForGood(m.deletes, n.deletes, |m.deletes|, k);
    } else {
      var i :| 0 <= i < |m.deletes| && m.deletes[i] == Attempt(task.raw, false);
      assert n.deletes[i] == Attempt(task.raw, false);
    }
  }

  /** What a run for row `id` does, as far as the accounting goes. */
  ghost predicate Ran(s: Contents, t: Contents, issued: set<string>, id: Id, success: bool, log: seq<Attempt>,
                      from: nat)
  {
    && (forall k :: k in t.objects && k !in s.objects ==> Pointed(t.rows, k) || Refused(log, from, k))
    && (forall k :: k in t.objects && k.uuid in issued ==> k in s.objects)
    && (forall j :: j in s.rows && (j != id || !success) ==> j in t.rows && KeysOf(t.rows[j]) == KeysOf(s.rows[j]))
    && (forall j :: j in s.rows && j != id ==> j in t.rows && t.rows[j] == s.rows[j])
  }

  lemma BodyObject(s: Contents, m: Contents, issued: set<string>, id: Id, p: Id, uuid: string, visibility: Visibility,
                   ext: string, encoded: Option<Bytes>, r: TaskResult, log: seq<Attempt>, from: nat, k: Key)
    requires CompressEffect(s, m, id, p, uuid, visibility, ext, encoded, r, log, from) && k in m.objects
    requires (forall k :: k in s.objects ==> k.uuid in issued) && uuid !in issued
    ensures k in s.objects || Pointed(m.rows, k) || Refused(log, from, k)
    ensures k.uuid in issued ==> k in s.objects
  {
    if k.uuid != uuid {
      assert Kept(s.objects, m.objects, k);
    } else if k == OutputKey(uuid, visibility, ext) && r.Success? {
      assert k in KeysOf(m.rows[id]);
    } else if k == PosterKey(uuid, visibility) && p in m.rows {
      assert k in KeysOf(m.rows[p]);
    }
  }

  lemma BodyRan(s: Contents, m: Contents, issued: set<string>, id: Id, p: Id, uuid: string, visibility: Visibility,
                ext: string, encoded: Option<Bytes>, r: TaskResult, log: seq<Attempt>, from: nat)
    requires CompressEffect(s, m, id, p, uuid, visibility, ext, encoded, r, log, from)
    requires (forall k :: k in s.objects ==> k.uuid in issued) && uuid !in issued
    ensures Ran(s, m, issued, id, r.Success?, log, from)
  {
    forall k | k in m.objects
      ensures k in s.objects || Pointed(m.rows, k) || Refused(log, from, k)
      ensures k.uuid in issued ==> k in s.objects
    {
      BodyObject(s, m, issued, id, p, uuid, visibility, ext, encoded, r, log, from, k);
    }
  }

  lemma StillRan(s: Contents, m: Contents, t: Contents, issued: set<string>, id: Id, success: bool, log: seq<Attempt>,
                 from: nat)
    requires Ran(s, m, issued, id, success, log, from)
    requires t.rows == m.rows && forall k :: k in t.objects ==> k in m.objects
    ensures Ran(s, t, issued, id, success, log, from)
  {
  }

  lemma RunRan(s: Contents, t: Contents, issued: set<string>, raw: Key, id: Id, p: Id, uuid: string, ext: string,
               encoded: Option<Bytes>, r: TaskResult, log: seq<Attempt>, from: nat)
    requires RunEffect(s, t, raw, id, p, uuid, ext, encoded, r, log, from)
    requires (forall k :: k in s.objects ==> k.uuid in issued) && uuid !in issued
    ensures Ran(s, t, issued, id, r.Success?, log, from)
    ensures !r.LoadFailed? && raw in t.objects ==> Refused(log, from, raw)
  {
    if !r.LoadFailed? {
      var visibility := if id in s.rows then s.rows[id].visibility else Public;
      var m: Contents :|
        && CompressEffect(s, m, id, p, uuid, visibility, ext, encoded, r, log, from) && t.rows == m.rows
        && (t.objects == m.objects - {raw} || (t.objects == m.objects && Refused(log, from, raw)));
      BodyRan(s, m, issued, id, p, uuid, visibility, ext, encoded, r, log, from);
      StillRan(s, m, t, issued, id, r.Success?, log, from);
    }
  }

  lemma RunAccounts(m: Moment, n: Moment, task: VideoTask, success: bool, k: Key)
    requires Tallied(m) && m.deletes <= n.deletes && Knows(m, task) && k in n.contents.objects
    requires Ran(m.contents, n.contents, m.issued, task.id, success, n.deletes, |m.deletes|)
    requires success ==>
               && task.raw in m.contents.objects
               && (task.raw in n.contents.objects ==> Refused(n.deletes, |m.deletes|, task.raw))
    ensures Accounted(n, k)
  {
    if k !in m.contents.objects {
      if Refused(n.deletes, |m.deletes|, k) { RefusedForGood(m.deletes, n.deletes, |m.deletes|, k); }
    } else {
      if Pointed(m.contents.rows, k) {
        var j :| j in m.contents.rows && k in KeysOf(m.contents.rows[j]);
        if j == task.id && success {
          OldKeyAccounts(m, n, task, k);
        } else {
          assert k in KeysOf(n.contents.rows[j]);
        }
      }
      StillAccounted(m, n, k);
    }
  }

  lemma RunLeavesTask(m: Moment, n: Moment, task: VideoTask, success: bool, other: VideoTask)
    requires m.deletes <= n.deletes && m.issued <= n.issued && other.id != task.id
    requires Ran(m.contents, n.contents, m.issued, task.id, success, n.deletes, |m.deletes|)
    requires Knows(m, other) && (other.id in n.contents.rows ==> other.id in m.contents.rows)
    ensures Knows(n, other)
  {
    StillKnows(m, n, other);
  }

  lemma RunStaysTallied(m: Moment, n: Moment, at: nat, task: VideoTask, success: bool)
    requires Tallied(m) && Later(m, n) && at < |m.pending| && task == m.pending[at]
    requires n.pending == m.pending[..at] + m.pending[at + 1..] && Queued(m.contents.rows, m.nextId, m.pending)
    requires forall id :: id in n.contents.rows && id !in m.contents.rows ==> id >= m.nextId
    requires Ran(m.contents, n.contents, m.issued, task.id, success, n.deletes, |m.deletes|)
    requires success ==>
               && task.raw in m.contents.objects
               && (task.raw in n.contents.objects ==> Refused(n.deletes, |m.deletes|, task.raw))
    ensures Tallied(n)
  {
    forall k | k in n.contents.objects ensures Accounted(n, k) { RunAccounts(m, n, task, success, k); }
    forall i | 0 <= i < |n.pending| ensures Knows(n, n.pending[i]) {
      var j := if i < at then i else i + 1;
      assert n.pending[i] == m.pending[j];
      RunLeavesTask(m, n, task, success, m.pending[j]);
    }
  }

  lemma CompressStaysTallied(m: Moment, n: Moment, at: nat, encoded: Option<Bytes>, uuid: string, r: TaskResult)
    requires Tallied(m) && Later(m, n) && at < |m.pending| && Compressed(m, n, at, encoded, uuid, r)
    requires Queued(m.contents.rows, m.nextId, m.pending) && forall k :: k in m.contents.objects ==> k.uuid in m.issued
    ensures Tallied(n)
  {
    var task := m.pending[at];
    RunRan(m.contents, n.contents, m.issued, task.raw, task.id, m.nextId, uuid, OutputExt(task.format), encoded, r,
           n.deletes, |m.deletes|);
    RunOnlyAdds(m, n, at, encoded, uuid, r);
    RunStaysTallied(m, n, at, task, r.Success?);
  }

  lemma RunOnlyAdds(m: Moment, n: Moment, at: nat, encoded: Option<Bytes>, uuid: string, r: TaskResult)
    requires at < |m.pending| && Compressed(m, n, at, encoded, uuid, r)
    ensures forall id :: id in n.contents.rows && id !in m.contents.rows ==> id == m.nextId
  {
  }

  // ----- Whole runs -------------------------------------------------------------------------

  lemma UploadTallied(m: Moment, n: Moment, owner: string, request: Request, acceptable: bool, row: Row,
                      hash: Bytes -> string, digest: string -> string)
    requires Steady(m, hash, digest) && Tallied(m) && Later(m, n)
    requires Uploaded(m, n, owner, request, acceptable, row, hash, digest) && n.pending == m.pending
    ensures Tallied(n)
  {
    UploadStaysTallied(m, n, owner, request, acceptable, row, hash, digest);
    forall i | 0 <= i < |n.pending| ensures Knows(n, n.pending[i]) {
      UploadLeavesTasks(m, n, owner, request, acceptable, row, hash, digest, m.pending[i]);
    }
  }

  lemma VideoTallied(m: Moment, n: Moment, job: Job, row: Row, hash: Bytes -> string, digest: string -> string)
    requires Steady(m, hash, digest) && Tallied(m) && Later(m, n) && job.PutVideo?
    requires VideoServed(m, n, job.owner, job.video, job.visibility, VideoExt(job.filename), job.callback, row, hash,
                         digest)
    ensures Tallied(n)
  {
    UploadStaysTallied(m, n, job.owner, job.video, true, row, hash, digest);
    forall i | 0 <= i < |n.pending| ensures Knows(n, n.pending[i]) {
      if i < |m.pending| {
        assert n.pending[i] == m.pending[i];
        UploadLeavesTasks(m, n, job.owner, job.video, true, row, hash, digest, m.pending[i]);
      } else {
        QueuedTaskKnows(m, n, row, n.pending[i]);
      }
    }
  }

  /** Whatever a job does, it keeps the accounts. */
  lemma ServedStaysTallied(job: Job, m: Moment, n: Moment, hash: Bytes -> string, digest: string -> string)
    requires Steady(m, hash, digest) && Tallied(m) && Served(job, m, n, hash, digest)
    ensures Tallied(n)
  {
    match job
    case PutImage(owner, request, encoded, _) =>
      var row: Row :| ImageServed(m, n, owner, request, encoded, row, hash, digest);
      UploadTallied(m, n, owner, request, encoded.Some?, row, hash, digest);
    case PutFile(owner, request, filename) =>
      var row: Row :| FileServed(m, n, owner, request, FileExt(filename), row, hash, digest);
      UploadTallied(m, n, owner, request, true, row, hash, digest);
    case PutVideo(owner, request, visibility, filename, callback) =>
      var row: Row :| VideoServed(m, n, owner, request, visibility, VideoExt(filename), callback, row, hash, digest);
      VideoTallied(m, n, job, row, hash, digest);
    case Compress(pick, encoded, _, _) =>
      if m.pending != [] {
        var uuid, r :| Compressed(m, n, pick % |m.pending|, encoded, uuid, r);
        CompressStaysTallied(m, n, pick % |m.pending|, encoded, uuid, r);
      }
    case MakePoster(id, frame) =>
      if id < m.nextId {
        var uuid, linked :| PosterMade(m, n, id, frame, uuid, linked);
        PosterStaysTallied(m, n, id, frame, uuid, linked);
      }
    case Patch(id, owner, visibility) => PatchStaysTallied(m, n, id, owner, visibility);
    case Remove(id, owner) =>
      var r :| DeleteAttempt(m.contents, n.contents, id, owner, r, Clean(m, n), n.deletes, |m.deletes|);
      DeleteStaysTallied(m, n, id, owner, r);
  }

  lemma {:induction false} RunsStayTallied(jobs: seq<Job>, history: seq<Moment>, hash: Bytes -> string,
                                           digest: string -> string, i: nat)
    requires GoodHash(hash) && GoodDigest(digest) && Run(jobs, history, hash, digest) && i < |history|
    ensures Tallied(history[i])
  {
    if i > 0 {
      RunsStayTallied(jobs, history, hash, digest, i - 1);
      RunsStaySteady(jobs, history, hash, digest, i - 1);
      assert LeadsTo(jobs[i - 1], history[i - 1], history[i], hash, digest);
      ServedStaysTallied(jobs[i - 1], history[i - 1], history[i], hash, digest);
    }
  }

  /** At every moment of every run, under any faults: a stored object is a key of some row, or
      a delete call on it has raised, or it is a raw video made redundant although its own
      delete never was refused, the delete of another raw video having raised.  So as long
      as no delete call raises, storage holds the keys of rows and nothing else. */
  lemma EveryObjectHasItsPlace(jobs: seq<Job>, history: seq<Moment>, hash: Bytes -> string, digest: string -> string,
                               i: nat)
    requires GoodHash(hash) && GoodDigest(digest) && Run(jobs, history, hash, digest) && i < |history|
    ensures var m := history[i];
            forall k :: k in m.contents.objects ==>
              Pointed(m.contents.rows, k) || Refused(m.deletes, 0, k) || Superseded(m.deletes, k)
    ensures var m := history[i];
            AllOk(m.deletes, 0) ==> forall k :: k in m.contents.objects ==> Pointed(m.contents.rows, k)
  {
    RunsStayTallied(jobs, history, hash, digest, i);
    forall k | k in history[i].contents.objects ensures Accounted(history[i], k) {}
  }

  /** What a successful run leaves of the row, of its old object, and of the other rows. */
  ghost predicate Republished(s: Contents, t: Contents, id: Id, uuid: string) {
    && id in s.rows && id in t.rows && t.rows[id].storageKey.uuid == uuid
    && t.rows[id].renditions == s.rows[id].renditions
    && (forall j :: j in t.rows && j != id ==>
          (j in s.rows && t.rows[j] == s.rows[j]) || KeysOf(t.rows[j]) == {PosterKey(uuid, s.rows[id].visibility)})
  }

  lemma BodyRepublishes(s: Contents, m: Contents, id: Id, p: Id, uuid: string, visibility: Visibility, ext: string,
                        encoded: Option<Bytes>, log: seq<Attempt>, from: nat, k: Key)
    requires CompressEffect(s, m, id, p, uuid, visibility, ext, encoded, Success, log, from) && k.uuid != uuid
    requires id in s.rows ==> visibility == s.rows[id].visibility
    ensures Republished(s, m, id, uuid) && (k in m.objects <==> k in s.objects)
  {
    assert Kept(s.objects, m.objects, k);
  }

  lemma OldKeyStays(s: Contents, t: Contents, raw: Key, id: Id, p: Id, uuid: string, ext: string,
                    encoded: Option<Bytes>, log: seq<Attempt>, from: nat, k: Key)
    requires RunEffect(s, t, raw, id, p, uuid, ext, encoded, Success, log, from) && k.uuid != uuid
    ensures Republished(s, t, id, uuid)
    ensures (k in t.objects ==> k in s.objects) && (k != raw && k in s.objects ==> k in t.objects)
  {
    var visibility := if id in s.rows then s.rows[id].visibility else Public;
    var m: Contents :|
      && CompressEffect(s, m, id, p, uuid, visibility, ext, encoded, Success, log, from) && t.rows == m.rows
      && (t.objects == m.objects - {raw} || (t.objects == m.objects && Refused(log, from, raw)));
    BodyRepublishes(s, m, id, p, uuid, visibility, ext, encoded, log, from, k);
  }

  /** Exactly when a successful run strands the object its video pointed at, the task's own
      raw object being deleted: when that is another one, and it is there. */
  lemma RunStrandsExactly(m: Moment, n: Moment, at: nat, encoded: Option<Bytes>, uuid: string,
                          hash: Bytes -> string, digest: string -> string)
    requires Steady(m, hash, digest) && at < |m.pending| && Compressed(m, n, at, encoded, uuid, Success)
    requires m.pending[at].raw !in n.contents.objects
    ensures var task := m.pending[at];
            && task.id in m.contents.rows
            && var k := m.contents.rows[task.id].storageKey;
               (k in n.contents.objects && !Pointed(n.contents.rows, k)) <==> (k in m.contents.objects && k != task.raw)
  {
    var s, t, task := m.contents, n.contents, m.pending[at];
    var k := s.rows[task.id].storageKey;
    OldKeyStays(s, t, task.raw, task.id, m.nextId, uuid, OutputExt(task.format), encoded, n.deletes, |m.deletes|, k);
    assert k in KeysOf(s.rows[task.id]) && PlainVideo(s.rows[task.id]);
    if Pointed(t.rows, k) {
      var j :| j in t.rows && k in KeysOf(t.rows[j]);
      if j != task.id && j in s.rows && t.rows[j] == s.rows[j] {
        RowsAreDisjoint(s.objects, s.rows, m.issued, j, task.id);
        assert false;
      }
    }
  }

  /** A row that a compression run or a poster task adds is a poster, and takes after its
      video: it is private exactly when the video is. */
  lemma PostersTakeAfterTheirVideo(job: Job, m: Moment, n: Moment, id: Id, hash: Bytes -> string,
                                   digest: string -> string)
    requires Steady(m, hash, digest) && Served(job, m, n, hash, digest) && (job.Compress? || job.MakePoster?)
    requires id in n.contents.rows && id !in m.contents.rows
    ensures exists video :: video in m.contents.rows && TakesAfter(n.contents.rows[id], m.contents.rows[video])
  {
    match job
    case Compress(pick, encoded, _, _) =>
      if m.pending != [] {
        var uuid, r :| Compressed(m, n, pick % |m.pending|, encoded, uuid, r);
        RunOnlyAdds(m, n, pick % |m.pending|, encoded, uuid, r);
        assert TakesAfter(n.contents.rows[id], m.contents.rows[m.pending[pick % |m.pending|].id]);
      }
    case MakePoster(video, frame) =>
      if video < m.nextId {
        var uuid, linked :| PosterMade(m, n, video, frame, uuid, linked);
        assert TakesAfter(n.contents.rows[id], m.contents.rows[video]);
      }
  }
}
