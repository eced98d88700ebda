/** Which columns of which row a call may change: nobody writes a column that is not his. */
module ProtocolRows {
  import opened Records
  import opened Protocol

  /** What no call ever changes in a row. */
  ghost predicate SameUpload(now: Row, was: Row) {
    now.owner == was.owner && now.kind == was.kind && now.contentHash == was.contentHash && now.callback == was.callback
  }

  /** What handler `a` may make of row `id` with its next call. */
  ghost predicate Allowed(a: Actor, id: Id, now: Row, was: Row) {
    && SameUpload(now, was)
    && (now.visibility != was.visibility ==> a.Repointing? && a.id == id && now.visibility == a.visibility)
    && (now.poster != was.poster ==> a.Linking? && a.video == id && now.poster == Some(a.poster))
    && (now.status != was.status ==>
          || (a.MarkingReady? && a.id == id && now.status.Ready?)
          || (a.MarkingFailed? && a.id == id && now.status.Failed?))
    && (now.storageKey != was.storageKey ==>
          || (a.MarkingReady? && a.id == id && now.storageKey == a.out && now.status.Ready?)
          || (a.Repointing? && a.id == id && a.adopt == Some(now.storageKey)))
    && (now.renditions != was.renditions ==> a.Repointing? && a.id == id && a.adopt.Some? && now.renditions == a.copied)
  }

  /** The row a handler may add. */
  ghost predicate Adds(a: Actor, row: Row) {
    || (a.StoringRenditions? && a.names == {} && row.status.Ready?
        && row == a.meta.(storageKey := a.main, renditions := a.stored, status := Ready, poster := None))
    || (a.Recording? && row.status.Processing?
        && row == a.meta.(storageKey := a.raw, renditions := map[], status := Processing, poster := None))
    || (a.PosterRecording? && row.kind.Image? && row.status.Ready? && row.storageKey == a.image
        && row.renditions == map[] && row.contentHash.None? && row.poster.None?
        && row.owner == a.meta.owner && row.visibility == a.meta.visibility)
  }

  /** The row a handler may drop. */
  ghost predicate MayDrop(a: Actor, id: Id) {
    || (a.Dropping? && a.id == id) || (a.Unrecording? && a.id == id) || (a.PosterUnrecording? && a.poster == id)
  }

  ghost predicate RowsWithin(s: State, t: State, a: Actor) {
    && s.nextId <= t.nextId
    && (forall id :: id in s.rows && id in t.rows ==> Allowed(a, id, t.rows[id], s.rows[id]))
    && (forall id :: id in t.rows && id !in s.rows ==> id == s.nextId < t.nextId && Adds(a, t.rows[id]))
    && (forall id :: id in s.rows && id !in t.rows ==> MayDrop(a, id))
  }

  lemma ImageWithin(s: State, c: Choice, a: Actor)
    requires c.Act? && c.who < |s.actors| && s.nextId !in s.rows
    requires a.Storing? || a.StoringRenditions?
    ensures RowsWithin(s, StepImage(s, c, a), a)
  {
  }

  lemma VideoUploadWithin(s: State, c: Choice, a: Actor)
    requires c.Act? && c.who < |s.actors| && s.nextId !in s.rows
    requires a.Staging? || a.Recording? || a.Enqueuing? || a.Unrecording?
    ensures RowsWithin(s, StepVideoUpload(s, c, a), a)
  {
  }

  lemma WorkerWithin(s: State, c: Choice, a: Actor)
    requires c.Act? && c.who < |s.actors| && s.nextId !in s.rows
    requires a.WorkerLoading? || a.Compressing? || a.MarkingReady? || a.MarkingFailed?
    ensures RowsWithin(s, StepWorker(s, c, a), a)
  {
  }

  lemma PosterWithin(s: State, c: Choice, a: Actor)
    requires c.Act? && c.who < |s.actors| && s.nextId !in s.rows
    requires a.PosterLoading? || a.PosterStoring? || a.PosterRecording?
    ensures RowsWithin(s, StepPoster(s, c, a), a)
  {
  }

  lemma LinkWithin(s: State, c: Choice, a: Actor)
    requires c.Act? && c.who < |s.actors| && s.nextId !in s.rows
    requires a.Linking? || a.Reloading? || a.PosterUnrecording?
    ensures RowsWithin(s, StepPoster(s, c, a), a)
  {
  }

  lemma DeleteWithin(s: State, c: Choice, a: Actor)
    requires c.Act? && c.who < |s.actors| && s.nextId !in s.rows
    requires a.DeleteLoading? || a.DeletingMain? || a.Dropping? || a.CascadeLoading?
    ensures RowsWithin(s, StepDelete(s, c, a), a)
  {
  }

  lemma PatchCopyWithin(s: State, c: Choice, a: Actor)
    requires c.Act? && c.who < |s.actors| && s.nextId !in s.rows
    requires a.PatchLoading? || a.Copying? || a.CopyingRenditions?
    ensures RowsWithin(s, StepPatch(s, c, a), a)
  {
  }

  lemma RepointWithin(s: State, c: Choice, a: Actor)
    requires c.Act? && c.who < |s.actors| && s.nextId !in s.rows
    requires a.Repointing?
    ensures RowsWithin(s, StepPatch(s, c, a), a)
  {
  }

  /** Each call keeps to the columns of its handler: the visibility is PATCH's, the poster the
      poster task's, the status the worker's, the key the worker's or PATCH's, and whatever
      identifies an upload is nobody's.  Rows come and go only through the handlers that add
      and drop them, and a poster is added with its video's owner and visibility. */
  lemma StepKeepsToItsColumns(s: State, c: Choice)
    requires s.nextId !in s.rows && c.Act? && c.who < |s.actors|
    ensures RowsWithin(s, Step(s, c), s.actors[c.who])
  {
    var a := s.actors[c.who];
    if a.Storing? || a.StoringRenditions? { ImageWithin(s, c, a); }
    else if a.Staging? || a.Recording? || a.Enqueuing? || a.Unrecording? { VideoUploadWithin(s, c, a); }
    else if a.WorkerLoading? || a.Compressing? || a.MarkingReady? || a.MarkingFailed? { WorkerWithin(s, c, a); }
    else if a.PosterLoading? || a.PosterStoring? || a.PosterRecording? { PosterWithin(s, c, a); }
    else if a.Linking? || a.Reloading? || a.PosterUnrecording? { LinkWithin(s, c, a); }
    else if a.DeleteLoading? || a.DeletingMain? || a.Dropping? || a.CascadeLoading? { DeleteWithin(s, c, a); }
    else if a.PatchLoading? || a.Copying? || a.CopyingRenditions? { PatchCopyWithin(s, c, a); }
    else if a.Repointing? { RepointWithin(s, c, a); }
    else if a.Purging? { assert StepPurge(s, c, a).rows == s.rows; }
  }
}
