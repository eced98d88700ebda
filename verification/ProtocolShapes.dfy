/** What one call of a handler can look like: which program counter follows which, and how
    little of the state it touches.  The invariants are proved from these shapes. */
module ProtocolShapes {
  import opened Records
  import opened Protocol

  /** Handler `who` has become `b`; a failed delete, a copy or an output is noted elsewhere. */
  ghost predicate Turn(s: State, t: State, who: nat, b: Actor) {
    who < |s.actors| && t.actors == s.actors[who := b]
  }

  ghost predicate RowsSame(s: State, t: State) {
    t.rows == s.rows && t.nextId == s.nextId && t.losses == s.losses
  }

  ghost predicate RowAdded(s: State, t: State) {
    && t.nextId == s.nextId + 1 && s.nextId in t.rows && t.rows == s.rows[s.nextId := t.rows[s.nextId]]
    && t.losses == s.losses
  }

  ghost predicate HistoriesSame(s: State, t: State) {
    t.outputs == s.outputs && t.copies == s.copies
  }

  /** A clean-up after which the handler is done. */
  ghost predicate LastPurge(b: Actor, h: Handler) {
    b.Purging? && b.handler == h && b.next.Done?
  }

  lemma ImageShape(s: State, c: Choice, a: Actor)
    requires c.Act? && c.who < |s.actors| && a == s.actors[c.who] && (a.Storing? || a.StoringRenditions?)
    ensures var t := StepImage(s, c, a);
            var b := t.actors[c.who];
            && Turn(s, t, c.who, b) && HistoriesSame(s, t)
            && (RowsSame(s, t) || (RowAdded(s, t) && b.Done?))
            && (b.Done? || b.Storing? || b.StoringRenditions? || LastPurge(b, Upload)
                || (b.Purging? && b.handler.Upload? && LastPurge(b.next, Upload)))
  {
  }

  lemma VideoUploadShape(s: State, c: Choice, a: Actor)
    requires c.Act? && c.who < |s.actors| && a == s.actors[c.who]
    requires a.Staging? || a.Recording? || (a.Enqueuing? && c.outcome.Raise?)
    ensures var t := StepVideoUpload(s, c, a);
            var b := t.actors[c.who];
            && Turn(s, t, c.who, b) && HistoriesSame(s, t)
            && (|| (RowsSame(s, t)
                    && (b.Done? || b.Staging? || b.Recording? || LastPurge(b, Upload)
                        || (a.Enqueuing? && b == Unrecording(a.raw, a.id))))
                || (RowAdded(s, t) && a.Recording? && b == Enqueuing(a.raw, s.nextId, a.withPoster)
                    && KeysOf(t.rows[s.nextId]) == {a.raw} && t.rows[s.nextId].storageKey == a.raw
                    && t.rows[s.nextId].renditions == map[] && t.rows[s.nextId].status.Processing?))
  {
  }

  /** A roll-back's DELETE: of an upload's row, or of a poster's. */
  lemma RollbackShape(s: State, c: Choice, a: Actor)
    requires c.Act? && c.who < |s.actors| && a == s.actors[c.who] && (a.Unrecording? || a.PosterUnrecording?)
    ensures var t := if a.Unrecording? then StepVideoUpload(s, c, a) else StepPoster(s, c, a);
            var b := t.actors[c.who];
            var (id, known) := if a.Unrecording? then (a.id, {a.raw}) else (a.poster, {a.image});
            && Turn(s, t, c.who, b) && HistoriesSame(s, t)
            && LastPurge(b, if a.Unrecording? then Upload else Poster)
            && (|| RowsSame(s, t)
                || (id in s.rows && t.rows == s.rows - {id} && t.nextId == s.nextId
                    && t.losses.Keys == s.losses.Keys + (KeysOf(s.rows[id]) - known)
                    && forall k :: k in s.losses && k !in KeysOf(s.rows[id]) - known ==> t.losses[k] == s.losses[k]))
  {
  }

  lemma EnqueueShape(s: State, c: Choice, a: Actor)
    requires c.Act? && c.who < |s.actors| && a == s.actors[c.who] && a.Enqueuing? && c.outcome.Ok?
    ensures var t := StepVideoUpload(s, c, a);
            && t.actors == s.actors[c.who := Done] + [WorkerLoading(a.raw, a.id, a.withPoster)]
            && RowsSame(s, t) && HistoriesSame(s, t)
  {
  }

  lemma WorkerShape(s: State, c: Choice, a: Actor)
    requires c.Act? && c.who < |s.actors| && a == s.actors[c.who] && (a.WorkerLoading? || a.Compressing?)
    ensures var t := StepWorker(s, c, a);
            var b := t.actors[c.who];
            && Turn(s, t, c.who, b) && RowsSame(s, t) && t.copies == s.copies
            && s.outputs <= t.outputs
            && (|| b.Done? || b == Compressing(a.raw, a.id, a.withPoster) || b == MarkingFailed(a.raw, a.id)
                || (b.MarkingReady? && b == MarkingReady(a.raw, a.id, a.withPoster, b.out) && b.out in t.outputs))
  {
  }

  /** mark_ready that raises or finds no row, and mark_failed, whose UPDATE keeps all keys. */
  lemma MarkShape(s: State, c: Choice, a: Actor)
    requires c.Act? && c.who < |s.actors| && a == s.actors[c.who] && (a.MarkingReady? || a.MarkingFailed?)
    requires a.MarkingReady? ==> c.outcome.Raise? || a.id !in s.rows
    ensures var t := StepWorker(s, c, a);
            var b := t.actors[c.who];
            && Turn(s, t, c.who, b) && HistoriesSame(s, t) && t.losses == s.losses && t.nextId == s.nextId
            && b.Purging? && b.handler.Worker?
            && (b.next.Done? || (a.MarkingReady? && b.next == MarkingFailed(a.raw, a.id)))
            && (|| t.rows == s.rows
                || (a.MarkingFailed? && a.id in s.rows && t.rows == s.rows[a.id := s.rows[a.id].(status := Failed)]))
  {
  }

  lemma MarkedReadyShape(s: State, c: Choice, a: Actor)
    requires c.Act? && c.who < |s.actors| && a == s.actors[c.who] && a.MarkingReady? && c.outcome.Ok? && a.id in s.rows
    ensures var t := StepWorker(s, c, a);
            var b := t.actors[c.who];
            && Turn(s, t, c.who, b) && HistoriesSame(s, t) && t.nextId == s.nextId
            && t.rows == s.rows[a.id := s.rows[a.id].(storageKey := a.out, status := Ready)]
            && t.losses.Keys == s.losses.Keys + (KeysOf(s.rows[a.id]) - {a.raw} - KeysOf(t.rows[a.id]))
            && (forall k :: k in s.losses && k !in KeysOf(s.rows[a.id]) - {a.raw} - KeysOf(t.rows[a.id]) ==>
                  t.losses[k] == s.losses[k])
            && (b == PosterStoring(a.id, s.rows[a.id], {a.raw}) || (LastPurge(b, Worker) && b.todo == {a.raw}))
  {
  }

  lemma PosterShape(s: State, c: Choice, a: Actor)
    requires c.Act? && c.who < |s.actors| && a == s.actors[c.who]
    requires a.PosterLoading? || a.PosterStoring? || a.PosterRecording?
    ensures var t := StepPoster(s, c, a);
            var b := t.actors[c.who];
            && Turn(s, t, c.who, b) && HistoriesSame(s, t)
            && (|| (RowsSame(s, t) && (b.Done? || b.PosterStoring? || b.PosterRecording? || LastPurge(b, Poster)))
                || (RowAdded(s, t) && a.PosterRecording? && b == Linking(a.video, s.nextId, a.image, a.owes)
                    && KeysOf(t.rows[s.nextId]) == {a.image} && t.rows[s.nextId].storageKey == a.image
                    && t.rows[s.nextId].renditions == map[] && t.rows[s.nextId].status.Ready?))
  {
  }

  lemma LinkShape(s: State, c: Choice, a: Actor)
    requires c.Act? && c.who < |s.actors| && a == s.actors[c.who] && (a.Linking? || a.Reloading?)
    ensures var t := StepPoster(s, c, a);
            var b := t.actors[c.who];
            && Turn(s, t, c.who, b) && HistoriesSame(s, t) && t.losses == s.losses && t.nextId == s.nextId
            && (|| b == Reloading(a.video, a.poster, a.image, a.owes)
                || LastPurge(b, Poster)
                || b == Purging(Poster, {a.image}, PosterUnrecording(a.poster, a.image, a.owes)))
            && (|| t.rows == s.rows
                || (a.video in s.rows && t.rows == s.rows[a.video := s.rows[a.video].(poster := Some(a.poster))]))
  {
  }

  lemma DeleteShape(s: State, c: Choice, a: Actor)
    requires c.Act? && c.who < |s.actors| && a == s.actors[c.who]
    requires a.DeleteLoading? || a.DeletingMain? || a.CascadeLoading?
    ensures var t := StepDelete(s, c, a);
            var b := t.actors[c.who];
            && Turn(s, t, c.who, b) && RowsSame(s, t) && t.outputs == s.outputs && t.copies == s.copies
            && (|| b.Done?
                || (a.DeleteLoading? && a.id in s.rows && b == DeletingMain(a.id, s.rows[a.id]))
                || (a.DeletingMain? && b.Purging? && b.handler.Delete? && b.next == Dropping(a.id, a.loaded, true))
                || (a.CascadeLoading? && a.poster in s.rows && b.Purging? && b.handler.Delete?
                    && b.next == Dropping(a.poster, s.rows[a.poster], false)))
  {
  }

  lemma DropShape(s: State, c: Choice, a: Actor)
    requires c.Act? && c.who < |s.actors| && a == s.actors[c.who] && a.Dropping?
    ensures var t := StepDelete(s, c, a);
            var b := t.actors[c.who];
            && Turn(s, t, c.who, b) && HistoriesSame(s, t) && t.nextId == s.nextId && (b.Done? || b.CascadeLoading?)
            && (|| RowsSame(s, t)
                || (a.id in s.rows && t.rows == s.rows - {a.id}
                    && var lost := KeysOf(s.rows[a.id]) - KeysOf(a.loaded);
                    && t.losses.Keys == s.losses.Keys + lost
                    && (forall k :: k in lost ==> t.losses[k] == Loss(ByDelete(a.loaded), s.rows[a.id]))
                    && (forall k :: k in s.losses && k !in lost ==> t.losses[k] == s.losses[k])))
  {
  }

  lemma PatchLoadShape(s: State, c: Choice, a: Actor)
    requires c.Act? && c.who < |s.actors| && a == s.actors[c.who] && a.PatchLoading?
    ensures var t := StepPatch(s, c, a);
            var b := t.actors[c.who];
            && Turn(s, t, c.who, b) && RowsSame(s, t) && HistoriesSame(s, t)
            && (|| b.Done?
                || (a.id in s.rows && b == Copying(a.id, a.visibility, s.rows[a.id], a.cascade))
                || (a.id in s.rows && b == Repointing(a.id, a.visibility, s.rows[a.id], None, map[], a.cascade)))
  {
  }

  lemma CopyingShape(s: State, c: Choice, a: Actor)
    requires c.Act? && c.who < |s.actors| && a == s.actors[c.who] && a.Copying?
    ensures var t := StepPatch(s, c, a);
            var b := t.actors[c.who];
            && Turn(s, t, c.who, b) && RowsSame(s, t) && t.outputs == s.outputs
            && s.copies <= t.copies
            && (|| b == a || b.Done?
                || b == Repointing(a.id, a.visibility, a.loaded, None, map[], a.cascade)
                || (b.CopyingRenditions? && b.id == a.id && b.loaded == a.loaded
                    && b.main in t.copies && b.copied == map[]))
  {
    var t := StepPatch(s, c, a);
    if c.outcome.Raise? {
      assert t.actors[c.who].Done?;
    } else if a.loaded.storageKey !in s.objects {
      assert t == Become(s, c.who, Repointing(a.id, a.visibility, a.loaded, None, map[], a.cascade));
    } else if c.key in s.issued {
      assert t == s;
    } else {
      assert t == Become(PutCopy(s, c.key), c.who, CopyingRenditions(a.id, a.visibility, a.loaded, c.key, map[],
                                                                     a.loaded.renditions.Keys, a.cascade));
    }
  }

  lemma PatchCopyShape(s: State, c: Choice, a: Actor)
    requires c.Act? && c.who < |s.actors| && a == s.actors[c.who] && a.CopyingRenditions?
    ensures var t := StepPatch(s, c, a);
            var b := t.actors[c.who];
            && Turn(s, t, c.who, b) && RowsSame(s, t) && t.outputs == s.outputs
            && s.copies <= t.copies
            && (|| b == a
                || b == Repointing(a.id, a.visibility, a.loaded, Some(a.main), a.copied, a.cascade)
                || LastPurge(b, Patch)
                || (b.CopyingRenditions? && b.id == a.id && b.loaded == a.loaded && b.main == a.main
                    && (b.copied == a.copied || (c.key in t.copies && b.copied == a.copied[c.name := c.key]))))
  {
    var b := StepPatch(s, c, a).actors[c.who];
    if a.names == {} {
      assert b == Repointing(a.id, a.visibility, a.loaded, Some(a.main), a.copied, a.cascade);
    } else if c.outcome.Raise? {
      assert LastPurge(b, Patch);
    } else if c.name in a.names && c.name in a.loaded.renditions {
      assert b == a || b.CopyingRenditions?;
    }
  }

  lemma RepointShape(s: State, c: Choice, a: Actor)
    requires c.Act? && c.who < |s.actors| && a == s.actors[c.who] && a.Repointing?
    ensures var t := StepPatch(s, c, a);
            var b := t.actors[c.who];
            && Turn(s, t, c.who, b) && HistoriesSame(s, t) && t.nextId == s.nextId
            && (b.Done? || b.PatchLoading? ||
                (b.Purging? && b.handler.Patch? && (b.next.PatchLoading? || b.next.Done?)))
            && (|| RowsSame(s, t)
                || (a.id in s.rows && a.adopt.None?
                    && t.rows == s.rows[a.id := s.rows[a.id].(visibility := a.visibility)] && t.losses == s.losses)
                || (a.id in s.rows && a.adopt.Some?
                    && a.id in t.rows && t.rows == s.rows[a.id := t.rows[a.id]]
                    && t.rows[a.id] == s.rows[a.id].(visibility := a.visibility, storageKey := a.adopt.value,
                         renditions := if a.loaded.renditions == map[] then s.rows[a.id].renditions else a.copied)
                    && var lost := KeysOf(s.rows[a.id]) - KeysOf(a.loaded) - KeysOf(t.rows[a.id]);
                    && t.losses.Keys == s.losses.Keys + lost
                    && (forall k :: k in s.losses && k !in lost ==> t.losses[k] == s.losses[k])
                    && b.Purging? && b.todo == KeysOf(a.loaded)))
  {
  }

  lemma PurgeShape(s: State, c: Choice, a: Actor)
    requires c.Act? && c.who < |s.actors| && a == s.actors[c.who] && a.Purging?
    ensures var t := StepPurge(s, c, a);
            var b := t.actors[c.who];
            && Turn(s, t, c.who, b) && RowsSame(s, t) && t.outputs == s.outputs && t.copies == s.copies
            && (b == a.next
                || (b.Purging? && b == Purging(a.handler, b.todo, a.next) && b.todo <= a.todo))
  {
  }
}
