/** Which interleavings can lose an object.  ProtocolAccounting shows that an object
    goes astray only through a stale write or a failing delete; here the stale writes
    are pinned down. */
module ProtocolRaces {
  import opened Records
  import opened Protocol
  import opened ProtocolAccounting
  import opened ProtocolShapes

  // ----- Rows a handler rewrites on its own authority --------------------------

  /** The row a handler created or was given, and will rewrite without loading it. */
  ghost function Writes(a: Actor): Option<Id> {
    match a
    case Enqueuing(_, id, _) => Some(id)
    case Unrecording(_, id) => Some(id)
    case WorkerLoading(_, id, _) => Some(id)
    case Compressing(_, id, _) => Some(id)
    case MarkingReady(_, id, _, _) => Some(id)
    case MarkingFailed(_, id) => Some(id)
    case Linking(_, poster, _, _) => Some(poster)
    case Reloading(_, poster, _, _) => Some(poster)
    case PosterUnrecording(poster, _, _) => Some(poster)
    case Purging(_, _, next) => Writes(next)
    case _ => None
  }

  /** The shape such a row has as far as the handler knows. */
  ghost predicate AsWritten(a: Actor, row: Row) {
    match a
    case Enqueuing(raw, _, _) => Staged(row, raw)
    case Unrecording(raw, _) => Staged(row, raw)
    case WorkerLoading(raw, _, _) => Staged(row, raw)
    case Compressing(raw, _, _) => Staged(row, raw)
    case MarkingReady(raw, _, _, _) => Staged(row, raw)
    case MarkingFailed(raw, _) => Staged(row, raw)
    case Linking(_, _, image, _) => Linked(row, image)
    case Reloading(_, _, image, _) => Linked(row, image)
    case PosterUnrecording(_, image, _) => Linked(row, image)
    case Purging(_, _, next) => AsWritten(next, row)
    case _ => true
  }

  ghost predicate Staged(row: Row, raw: Key) {
    row.storageKey == raw && row.renditions == map[] && row.status == Processing
  }

  ghost predicate Linked(row: Row, image: Key) {
    row.storageKey == image && row.renditions == map[] && row.status == Ready
  }

  /** The columns the races are about. */
  ghost predicate SameShape(r: Row, q: Row) {
    r.storageKey == q.storageKey && r.renditions == q.renditions && r.status == q.status
  }

  ghost predicate Unwritten(s: State, id: Id) {
    forall i :: 0 <= i < |s.actors| ==> Writes(s.actors[i]) != Some(id)
  }

  /** Each such row has one writer, and is as its writer left it. */
  ghost predicate Authority(s: State) {
    && (forall i :: 0 <= i < |s.actors| && Writes(s.actors[i]).Some? ==>
          var id := Writes(s.actors[i]).value;
          id < s.nextId && (id in s.rows ==> AsWritten(s.actors[i], s.rows[id])))
    && (forall i, j :: 0 <= i < |s.actors| && 0 <= j < |s.actors| && i != j && Writes(s.actors[i]).Some? ==>
          Writes(s.actors[i]) != Writes(s.actors[j]))
    && (forall id :: id in s.rows ==> id < s.nextId)
  }

  /** How a step may touch rows: a new row, a row of its own, a row without a writer,
      or columns the races are not about. */
  ghost predicate Lawful(s: State, t: State, a: Actor) {
    && s.nextId <= t.nextId
    && forall id :: id in t.rows ==>
         || (id in s.rows && SameShape(t.rows[id], s.rows[id]))
         || Writes(a) == Some(id)
         || (id == s.nextId && id < t.nextId)
         || (id in s.rows && Unwritten(s, id))
  }

  lemma {:induction a} ShapeIsEnough(a: Actor, r: Row, q: Row)
    requires SameShape(r, q) && AsWritten(a, r)
    ensures AsWritten(a, q)
  {
  }

  lemma AuthorityKept(s: State, t: State, who: nat, b: Actor)
    requires Authority(s) && who < |s.actors| && t.actors == s.actors[who := b]
    requires Lawful(s, t, s.actors[who])
    requires Writes(b).Some? ==>
               && (Writes(b) == Writes(s.actors[who]) || (Writes(b) == Some(s.nextId) && s.nextId < t.nextId))
               && (Writes(b).value in t.rows ==> AsWritten(b, t.rows[Writes(b).value]))
    ensures Authority(t)
  {
    forall i | 0 <= i < |t.actors| && i != who && Writes(t.actors[i]).Some?
      ensures var id := Writes(t.actors[i]).value;
              id < t.nextId && (id in t.rows ==> AsWritten(t.actors[i], t.rows[id]))
    {
      var id := Writes(t.actors[i]).value;
      assert t.actors[i] == s.actors[i];
      if id in s.rows && id in t.rows && SameShape(t.rows[id], s.rows[id]) {
        ShapeIsEnough(t.actors[i], s.rows[id], t.rows[id]);
      }
    }
  }

  /** A step that leaves the rows alone. */
  lemma PassAuthority(s: State, t: State, who: nat, b: Actor)
    requires Authority(s) && who < |s.actors| && t.actors == s.actors[who := b]
    requires t.rows == s.rows && t.nextId == s.nextId
    requires Writes(b).Some? ==> Writes(b) == Writes(s.actors[who])
    requires Writes(b).Some? && Writes(b).value in s.rows ==> AsWritten(b, s.rows[Writes(b).value])
    ensures Authority(t)
  {
    AuthorityKept(s, t, who, b);
  }

  /** A step that adds one row. */
  lemma InsertAuthority(s: State, t: State, who: nat, b: Actor, row: Row)
    requires Authority(s) && who < |s.actors| && t.actors == s.actors[who := b]
    requires t.rows == s.rows[s.nextId := row] && t.nextId == s.nextId + 1
    requires Writes(b).None? || (Writes(b) == Some(s.nextId) && AsWritten(b, row))
    ensures Authority(t)
  {
    AuthorityKept(s, t, who, b);
  }

  /** A step that changes or drops one row: its own, one without a writer, or only in
      columns the races are not about. */
  lemma UpdateAuthority(s: State, t: State, who: nat, b: Actor, id: Id)
    requires Authority(s) && who < |s.actors| && t.actors == s.actors[who := b] && t.nextId == s.nextId
    requires t.rows == s.rows - {id} || (id in s.rows && id in t.rows && t.rows == s.rows[id := t.rows[id]])
    requires id in t.rows ==> SameShape(t.rows[id], s.rows[id]) || Writes(s.actors[who]) == Some(id) || Unwritten(s, id)
    requires Writes(b).Some? ==> Writes(b) == Writes(s.actors[who])
    requires Writes(b).Some? && Writes(b).value in t.rows ==> AsWritten(b, t.rows[Writes(b).value])
    ensures Authority(t)
  {
    AuthorityKept(s, t, who, b);
  }

  lemma ImageAuthority(s: State, c: Choice, a: Actor)
    requires Authority(s) && c.Act? && c.who < |s.actors| && a == s.actors[c.who]
    requires a.Storing? || a.StoringRenditions?
    ensures Authority(StepImage(s, c, a))
    ensures StepImage(s, c, a).losses == s.losses
  {
    var t := StepImage(s, c, a);
    var b := t.actors[c.who];
    ImageShape(s, c, a);
    if b.Purging? { assert Writes(b.next).None?; }
    if RowsSame(s, t) { PassAuthority(s, t, c.who, b); } else { InsertAuthority(s, t, c.who, b, t.rows[s.nextId]); }
  }

  lemma VideoUploadAuthority(s: State, c: Choice, a: Actor)
    requires Authority(s) && c.Act? && c.who < |s.actors| && a == s.actors[c.who]
    requires a.Staging? || a.Recording? || (a.Enqueuing? && c.outcome.Raise?)
    ensures var t := StepVideoUpload(s, c, a); Authority(t) && t.losses == s.losses
  {
    var t := StepVideoUpload(s, c, a);
    var b := t.actors[c.who];
    VideoUploadShape(s, c, a);
    if RowsSame(s, t) { PassAuthority(s, t, c.who, b); } else { InsertAuthority(s, t, c.who, b, t.rows[s.nextId]); }
  }

  /** A roll-back drops the row it made, and knows all its keys. */
  lemma RollbackAuthority(s: State, c: Choice, a: Actor)
    requires Authority(s) && c.Act? && c.who < |s.actors| && a == s.actors[c.who]
    requires a.Unrecording? || a.PosterUnrecording?
    ensures var t := if a.Unrecording? then StepVideoUpload(s, c, a) else StepPoster(s, c, a);
            Authority(t) && t.losses == s.losses
  {
    var t := if a.Unrecording? then StepVideoUpload(s, c, a) else StepPoster(s, c, a);
    var b := t.actors[c.who];
    var id := if a.Unrecording? then a.id else a.poster;
    RollbackShape(s, c, a);
    if RowsSame(s, t) { PassAuthority(s, t, c.who, b); } else { UpdateAuthority(s, t, c.who, b, id); }
  }

  lemma WorkerAuthority(s: State, c: Choice, a: Actor)
    requires Authority(s) && c.Act? && c.who < |s.actors| && a == s.actors[c.who]
    requires a.WorkerLoading? || a.Compressing?
    ensures Authority(StepWorker(s, c, a))
    ensures StepWorker(s, c, a).losses == s.losses
  {
    var t := StepWorker(s, c, a);
    var b := t.actors[c.who];
    WorkerShape(s, c, a);
    PassAuthority(s, t, c.who, b);
  }

  lemma MarkAuthority(s: State, c: Choice, a: Actor)
    requires Authority(s) && c.Act? && c.who < |s.actors| && a == s.actors[c.who]
    requires a.MarkingReady? || a.MarkingFailed?
    ensures var t := StepWorker(s, c, a); Authority(t) && t.losses == s.losses
  {
    var t := StepWorker(s, c, a);
    var b := t.actors[c.who];
    if a.MarkingReady? && c.outcome.Ok? && a.id in s.rows {
      MarkedReadyShape(s, c, a);
    } else {
      MarkShape(s, c, a);
    }
    if t.rows == s.rows { PassAuthority(s, t, c.who, b); } else { UpdateAuthority(s, t, c.who, b, a.id); }
  }

  lemma PosterAuthority(s: State, c: Choice, a: Actor)
    requires Authority(s) && c.Act? && c.who < |s.actors| && a == s.actors[c.who]
    requires a.PosterLoading? || a.PosterStoring? || a.PosterRecording?
    ensures Authority(StepPoster(s, c, a))
    ensures StepPoster(s, c, a).losses == s.losses
  {
    var t := StepPoster(s, c, a);
    var b := t.actors[c.who];
    PosterShape(s, c, a);
    if RowsSame(s, t) { PassAuthority(s, t, c.who, b); } else { InsertAuthority(s, t, c.who, b, t.rows[s.nextId]); }
  }

  lemma LinkAuthority(s: State, c: Choice, a: Actor)
    requires Authority(s) && c.Act? && c.who < |s.actors| && a == s.actors[c.who]
    requires a.Linking? || a.Reloading?
    ensures Authority(StepPoster(s, c, a))
    ensures StepPoster(s, c, a).losses == s.losses
  {
    var t := StepPoster(s, c, a);
    var b := t.actors[c.who];
    LinkShape(s, c, a);
    if t.rows == s.rows { PassAuthority(s, t, c.who, b); } else { UpdateAuthority(s, t, c.who, b, a.video); }
  }

  lemma DeleteAuthority(s: State, c: Choice, a: Actor)
    requires Authority(s) && c.Act? && c.who < |s.actors| && a == s.actors[c.who]
    requires a.DeleteLoading? || a.DeletingMain? || a.Dropping? || a.CascadeLoading?
    ensures Authority(StepDelete(s, c, a))
  {
    var t := StepDelete(s, c, a);
    var b := t.actors[c.who];
    if a.Dropping? { DropShape(s, c, a); } else { DeleteShape(s, c, a); }
    if t.rows == s.rows { PassAuthority(s, t, c.who, b); } else { UpdateAuthority(s, t, c.who, b, a.id); }
  }

  lemma PatchCopyAuthority(s: State, c: Choice, a: Actor)
    requires Authority(s) && c.Act? && c.who < |s.actors| && a == s.actors[c.who]
    requires a.PatchLoading? || a.Copying? || a.CopyingRenditions?
    ensures var t := StepPatch(s, c, a); Authority(t) && RowsSame(s, t)
  {
    var t := StepPatch(s, c, a);
    var b := t.actors[c.who];
    if a.CopyingRenditions? { PatchCopyShape(s, c, a); }
    else if a.Copying? { CopyingShape(s, c, a); }
    else { PatchLoadShape(s, c, a); }
    PassAuthority(s, t, c.who, b);
  }

  lemma RepointingAuthority(s: State, c: Choice, a: Actor)
    requires Authority(s) && c.Act? && c.who < |s.actors| && a == s.actors[c.who] && a.Repointing?
    requires a.adopt.Some? ==> Unwritten(s, a.id)
    ensures Authority(StepPatch(s, c, a))
  {
    var t := StepPatch(s, c, a);
    var b := t.actors[c.who];
    RepointShape(s, c, a);
    if t.rows == s.rows { PassAuthority(s, t, c.who, b); } else { UpdateAuthority(s, t, c.who, b, a.id); }
  }

  lemma PurgeAuthority(s: State, c: Choice, a: Actor)
    requires Authority(s) && c.Act? && c.who < |s.actors| && a == s.actors[c.who]
    requires a.Purging?
    ensures Authority(StepPurge(s, c, a))
    ensures StepPurge(s, c, a).losses == s.losses
  {
    var t := StepPurge(s, c, a);
    var b := t.actors[c.who];
    PurgeShape(s, c, a);
    PassAuthority(s, t, c.who, b);
  }

  /** An accepted upload hands its row over to the one compression task. */
  lemma EnqueueAuthority(s: State, c: Choice, a: Actor)
    requires Authority(s) && c.Act? && c.who < |s.actors| && a == s.actors[c.who] && a.Enqueuing? && c.outcome.Ok?
    ensures Authority(StepVideoUpload(s, c, a))
    ensures StepVideoUpload(s, c, a).losses == s.losses
  {
    var t := StepVideoUpload(s, c, a);
    EnqueueShape(s, c, a);
    forall i | 0 <= i < |s.actors| ensures t.actors[i] == s.actors[i] || (i == c.who && t.actors[i].Done?) {}
  }

  // ----- DELETE split into its calls, no PATCH ---------------------------------

  /** The row a DELETE or PATCH in flight has loaded. */
  ghost function Reads(a: Actor): Option<(Id, Row)> {
    match a
    case DeletingMain(id, loaded) => Some((id, loaded))
    case Dropping(id, loaded, _) => Some((id, loaded))
    case Copying(id, _, loaded, _) => Some((id, loaded))
    case CopyingRenditions(id, _, loaded, _, _, _, _) => Some((id, loaded))
    case Repointing(id, _, loaded, _, _, _) => Some((id, loaded))
    case Purging(_, _, next) => Reads(next)
    case _ => None
  }

  /** Not a PATCH (and clean-ups never resume at mark_ready). */
  ghost predicate NoPatch(a: Actor) {
    match a
    case PatchLoading(_, _, _) => false
    case Copying(_, _, _, _) => false
    case CopyingRenditions(_, _, _, _, _, _, _) => false
    case Repointing(_, _, _, _, _, _) => false
    case Purging(_, _, next) => NoPatch(next) && !next.MarkingReady?
    case _ => true
  }

  /** How a loaded row can differ from the row now: not in its objects, or else it was
      loaded while `processing` and mark_ready has given it a compressed output. */
  ghost predicate Seen(outputs: set<Key>, loaded: Row, row: Row) {
    || (KeysOf(row) == KeysOf(loaded) && (row.status.Processing? ==> loaded.status.Processing?))
    || (loaded.status.Processing? && row.status.Ready? && KeysOf(row) == {row.storageKey} && row.storageKey in outputs)
  }

  /** The one race that loses an object: mark_ready landed between the load and the
      row drop of a DELETE. */
  ghost predicate DeleteRace(outputs: set<Key>, k: Key, loss: Loss) {
    && loss.cause.ByDelete? && loss.cause.loaded.status.Processing? && loss.cause.loaded.storageKey != k
    && loss.found.status.Ready? && loss.found.storageKey == k && k in outputs
  }

  ghost predicate RaceInv(s: State) {
    && Authority(s)
    && (forall i :: 0 <= i < |s.actors| ==> NoPatch(s.actors[i]))
    && (forall i :: 0 <= i < |s.actors| && s.actors[i].MarkingReady? ==> s.actors[i].out in s.outputs)
    && (forall i :: 0 <= i < |s.actors| && Reads(s.actors[i]).Some? ==>
          var (id, loaded) := Reads(s.actors[i]).value;
          id < s.nextId && (id in s.rows ==> Seen(s.outputs, loaded, s.rows[id])))
    && (forall k :: k in s.losses ==> DeleteRace(s.outputs, k, s.losses[k]))
  }

  /** What a row may have become in one step of handler `a` when no PATCH runs. */
  ghost predicate Evolves(s: State, t: State, a: Actor) {
    && s.nextId <= t.nextId && s.outputs <= t.outputs
    && forall id :: id in t.rows ==>
         || id >= s.nextId
         || (id in s.rows && SameShape(t.rows[id], s.rows[id]))
         || (id in s.rows && s.rows[id].status.Processing? && t.rows[id].status.Failed?
             && KeysOf(t.rows[id]) == KeysOf(s.rows[id]))
         || (id in s.rows && s.rows[id].status.Processing? && t.rows[id].status.Ready?
             && KeysOf(t.rows[id]) == {t.rows[id].storageKey} && t.rows[id].storageKey in t.outputs)
  }

  lemma RaceInvKept(s: State, t: State, who: nat, b: Actor)
    requires RaceInv(s) && Authority(t) && who < |s.actors| && t.actors == s.actors[who := b]
    requires Evolves(s, t, s.actors[who])
    requires NoPatch(b) && (b.MarkingReady? ==> b.out in t.outputs)
    requires Reads(b).Some? ==>
               || Reads(b) == Reads(s.actors[who])
               || (Reads(b).value.0 in s.rows && s.rows[Reads(b).value.0] == Reads(b).value.1)
    requires forall k :: k in t.losses ==>
               (k in s.losses && t.losses[k] == s.losses[k]) || DeleteRace(t.outputs, k, t.losses[k])
    ensures RaceInv(t)
  {
    forall i | 0 <= i < |t.actors| && Reads(t.actors[i]).Some?
      ensures var (id, loaded) := Reads(t.actors[i]).value;
              id < t.nextId && (id in t.rows ==> Seen(t.outputs, loaded, t.rows[id]))
    {
      var (id, loaded) := Reads(t.actors[i]).value;
      if i != who { assert t.actors[i] == s.actors[i]; }
      if id in t.rows {
        assert id in s.rows && Seen(s.outputs, loaded, s.rows[id]);
      }
    }
  }

  /** A step that leaves the rows alone. */
  lemma PassRace(s: State, t: State, who: nat, b: Actor)
    requires RaceInv(s) && Authority(t) && who < |s.actors| && t.actors == s.actors[who := b]
    requires t.rows == s.rows && t.nextId == s.nextId && t.losses == s.losses && s.outputs <= t.outputs
    requires NoPatch(b) && (b.MarkingReady? ==> b.out in t.outputs)
    requires Reads(b).Some? ==>
               || Reads(b) == Reads(s.actors[who])
               || (Reads(b).value.0 in s.rows && s.rows[Reads(b).value.0] == Reads(b).value.1)
    ensures RaceInv(t)
  {
    RaceInvKept(s, t, who, b);
  }

  /** A step that adds one row. */
  lemma InsertRace(s: State, t: State, who: nat, b: Actor, row: Row)
    requires RaceInv(s) && Authority(t) && who < |s.actors| && t.actors == s.actors[who := b]
    requires t.rows == s.rows[s.nextId := row] && t.nextId == s.nextId + 1 && t.losses == s.losses
    requires t.outputs == s.outputs
    requires NoPatch(b) && !b.MarkingReady? && Reads(b).None?
    ensures RaceInv(t)
  {
    RaceInvKept(s, t, who, b);
  }

  lemma ImageRace(s: State, c: Choice, a: Actor)
    requires RaceInv(s) && c.Act? && c.who < |s.actors| && a == s.actors[c.who]
    requires a.Storing? || a.StoringRenditions?
    ensures RaceInv(StepImage(s, c, a))
  {
    var t := StepImage(s, c, a);
    var b := t.actors[c.who];
    ImageAuthority(s, c, a);
    ImageShape(s, c, a);
    if b.Purging? { assert Reads(b.next).None? && NoPatch(b.next); }
    if RowsSame(s, t) { PassRace(s, t, c.who, b); } else { InsertRace(s, t, c.who, b, t.rows[s.nextId]); }
  }

  lemma VideoUploadRace(s: State, c: Choice, a: Actor)
    requires RaceInv(s) && c.Act? && c.who < |s.actors| && a == s.actors[c.who]
    requires a.Staging? || a.Recording? || (a.Enqueuing? && c.outcome.Raise?)
    ensures RaceInv(StepVideoUpload(s, c, a))
  {
    var t := StepVideoUpload(s, c, a);
    var b := t.actors[c.who];
    VideoUploadAuthority(s, c, a);
    VideoUploadShape(s, c, a);
    if RowsSame(s, t) { PassRace(s, t, c.who, b); } else { InsertRace(s, t, c.who, b, t.rows[s.nextId]); }
  }

  lemma RollbackRace(s: State, c: Choice, a: Actor)
    requires RaceInv(s) && c.Act? && c.who < |s.actors| && a == s.actors[c.who]
    requires a.Unrecording? || a.PosterUnrecording?
    ensures RaceInv(if a.Unrecording? then StepVideoUpload(s, c, a) else StepPoster(s, c, a))
  {
    var t := if a.Unrecording? then StepVideoUpload(s, c, a) else StepPoster(s, c, a);
    RollbackAuthority(s, c, a);
    RollbackShape(s, c, a);
    RaceInvKept(s, t, c.who, t.actors[c.who]);
  }

  lemma WorkerRace(s: State, c: Choice, a: Actor)
    requires RaceInv(s) && c.Act? && c.who < |s.actors| && a == s.actors[c.who]
    requires a.WorkerLoading? || a.Compressing?
    ensures RaceInv(StepWorker(s, c, a))
  {
    var t := StepWorker(s, c, a);
    var b := t.actors[c.who];
    WorkerAuthority(s, c, a);
    WorkerShape(s, c, a);
    PassRace(s, t, c.who, b);
  }

  lemma MarkedReadyRace(s: State, c: Choice, a: Actor)
    requires RaceInv(s) && c.Act? && c.who < |s.actors| && a == s.actors[c.who]
    requires a.MarkingReady? && c.outcome.Ok? && a.id in s.rows
    ensures RaceInv(StepWorker(s, c, a))
  {
    var t := StepWorker(s, c, a);
    MarkAuthority(s, c, a);
    MarkedReadyShape(s, c, a);
    assert KeysOf(t.rows[a.id]) == {t.rows[a.id].storageKey};
    RaceInvKept(s, t, c.who, t.actors[c.who]);
  }

  lemma MarkRace(s: State, c: Choice, a: Actor)
    requires RaceInv(s) && c.Act? && c.who < |s.actors| && a == s.actors[c.who]
    requires a.MarkingReady? || a.MarkingFailed?
    requires a.MarkingReady? ==> c.outcome.Raise? || a.id !in s.rows
    ensures RaceInv(StepWorker(s, c, a))
  {
    var t := StepWorker(s, c, a);
    var b := t.actors[c.who];
    MarkAuthority(s, c, a);
    MarkShape(s, c, a);
    if t.rows == s.rows { PassRace(s, t, c.who, b); } else { RaceInvKept(s, t, c.who, b); }
  }

  lemma PosterRace(s: State, c: Choice, a: Actor)
    requires RaceInv(s) && c.Act? && c.who < |s.actors| && a == s.actors[c.who]
    requires a.PosterLoading? || a.PosterStoring? || a.PosterRecording?
    ensures RaceInv(StepPoster(s, c, a))
  {
    var t := StepPoster(s, c, a);
    var b := t.actors[c.who];
    PosterAuthority(s, c, a);
    PosterShape(s, c, a);
    if RowsSame(s, t) { PassRace(s, t, c.who, b); } else { InsertRace(s, t, c.who, b, t.rows[s.nextId]); }
  }

  lemma LinkRace(s: State, c: Choice, a: Actor)
    requires RaceInv(s) && c.Act? && c.who < |s.actors| && a == s.actors[c.who]
    requires a.Linking? || a.Reloading?
    ensures RaceInv(StepPoster(s, c, a))
  {
    var t := StepPoster(s, c, a);
    LinkAuthority(s, c, a);
    LinkShape(s, c, a);
    RaceInvKept(s, t, c.who, t.actors[c.who]);
  }

  lemma DeleteRaceKept(s: State, c: Choice, a: Actor)
    requires RaceInv(s) && c.Act? && c.who < |s.actors| && a == s.actors[c.who]
    requires a.DeleteLoading? || a.DeletingMain? || a.Dropping? || a.CascadeLoading?
    ensures RaceInv(StepDelete(s, c, a))
  {
    var t := StepDelete(s, c, a);
    var b := t.actors[c.who];
    DeleteAuthority(s, c, a);
    if a.Dropping? {
      DropShape(s, c, a);
      RaceInvKept(s, t, c.who, b);
    } else {
      DeleteShape(s, c, a);
      PassRace(s, t, c.who, b);
    }
  }

  lemma PurgeRace(s: State, c: Choice, a: Actor)
    requires RaceInv(s) && c.Act? && c.who < |s.actors| && a == s.actors[c.who]
    requires a.Purging?
    ensures RaceInv(StepPurge(s, c, a))
  {
    var t := StepPurge(s, c, a);
    var b := t.actors[c.who];
    PurgeAuthority(s, c, a);
    PurgeShape(s, c, a);
    PassRace(s, t, c.who, b);
  }

  lemma EnqueueRace(s: State, c: Choice, a: Actor)
    requires RaceInv(s) && c.Act? && c.who < |s.actors| && a == s.actors[c.who] && a.Enqueuing? && c.outcome.Ok?
    ensures RaceInv(StepVideoUpload(s, c, a))
  {
    var t := StepVideoUpload(s, c, a);
    EnqueueAuthority(s, c, a);
    EnqueueShape(s, c, a);
    forall i | 0 <= i < |s.actors| ensures t.actors[i] == s.actors[i] || (i == c.who && t.actors[i].Done?) {}
  }

  /** A handler that has made no call yet joins the others. */
  lemma ArrivalAuthority(s: State, a: Actor)
    requires Authority(s) && Arrival(a)
    ensures Authority(s.(actors := s.actors + [a]))
    ensures Writes(a).None? && Reads(a).None?
  {
    var t := s.(actors := s.actors + [a]);
    assert Writes(a).None?;
    forall i | 0 <= i < |t.actors| && Writes(t.actors[i]).Some? ensures i < |s.actors| && t.actors[i] == s.actors[i] {}
  }

  lemma RaceArrival(s: State, a: Actor)
    requires RaceInv(s) && Arrival(a) && !a.PatchLoading?
    ensures RaceInv(s.(actors := s.actors + [a]))
  {
    var t := s.(actors := s.actors + [a]);
    ArrivalAuthority(s, a);
    forall i | 0 <= i < |t.actors| ensures (i < |s.actors| && t.actors[i] == s.actors[i]) || t.actors[i] == a {}
  }

  lemma StepKeepsRaceInv(s: State, c: Choice)
    requires RaceInv(s) && (c.Start? ==> !c.actor.PatchLoading?)
    ensures RaceInv(Step(s, c))
  {
    match c
    case Start(a) =>
      if Arrival(a) { RaceArrival(s, a); }
    case Act(who, _, _, _, _) =>
      if who < |s.actors| {
        var a := s.actors[who];
        assert NoPatch(a);
        if a.Storing? || a.StoringRenditions? { ImageRace(s, c, a); }
        else if a.Enqueuing? && c.outcome.Ok? { EnqueueRace(s, c, a); }
        else if a.Unrecording? || a.PosterUnrecording? { RollbackRace(s, c, a); }
        else if a.Staging? || a.Recording? || a.Enqueuing? { VideoUploadRace(s, c, a); }
        else if a.WorkerLoading? || a.Compressing? { WorkerRace(s, c, a); }
        else if a.MarkingReady? && c.outcome.Ok? && a.id in s.rows { MarkedReadyRace(s, c, a); }
        else if a.MarkingReady? || a.MarkingFailed? { MarkRace(s, c, a); }
        else if a.DeleteLoading? || a.DeletingMain? || a.Dropping? || a.CascadeLoading? { DeleteRaceKept(s, c, a); }
        else if a.Purging? { PurgeRace(s, c, a); }
        else if a.Linking? || a.Reloading? { LinkRace(s, c, a); }
        else if !a.Done? { PosterRace(s, c, a); }
      }
  }

  // ----- DELETE and PATCH each run through without interruption ----------------

  /** A DELETE or PATCH that has made its first call and not yet its last. */
  ghost predicate Busy(a: Actor) {
    || a.DeletingMain? || a.Dropping? || a.CascadeLoading?
    || (a.PatchLoading? && !a.cascade) || a.Copying? || a.CopyingRenditions? || a.Repointing?
    || (a.Purging? && (a.handler.Delete? || a.handler.Patch?))
  }

  /** The poster row a running poster task has created. */
  ghost predicate PosterOf(a: Actor, id: Id) {
    match a
    case Linking(_, poster, _, _) => poster == id
    case Reloading(_, poster, _, _) => poster == id
    case PosterUnrecording(poster, _, _) => poster == id
    case Purging(_, _, next) => PosterOf(next, id)
    case _ => false
  }

  /** While a DELETE or PATCH is under way nothing else moves, and a PATCH only meets
      rows that are past `processing` and not made by a poster task still running. */
  ghost predicate Orderly(s: State, c: Choice) {
    && (forall i :: 0 <= i < |s.actors| && Busy(s.actors[i]) ==> c.Act? && c.who == i)
    && (c.Act? && c.who < |s.actors| && s.actors[c.who].PatchLoading? && s.actors[c.who].id in s.rows ==>
          var id := s.actors[c.who].id;
          && !s.rows[id].status.Processing?
          && forall j :: 0 <= j < |s.actors| ==> !PosterOf(s.actors[j], id))
  }

  ghost predicate IsPatch(a: Actor) {
    a.Copying? || a.CopyingRenditions? || a.Repointing?
  }

  ghost predicate Tame(a: Actor) {
    a.Purging? ==> Tame(a.next) && (Reads(a.next).Some? ==> a.next.Dropping?)
  }

  ghost predicate CalmInv(s: State) {
    && Authority(s) && s.losses == map[]
    && (forall i :: 0 <= i < |s.actors| ==> Tame(s.actors[i]))
    && (forall i, j :: 0 <= i < |s.actors| && 0 <= j < |s.actors| && Busy(s.actors[i]) && Busy(s.actors[j]) ==> i == j)
    && (forall i :: 0 <= i < |s.actors| && Reads(s.actors[i]).Some? ==>
          var (id, loaded) := Reads(s.actors[i]).value;
          && Busy(s.actors[i]) && id < s.nextId
          && (id in s.rows ==> SameShape(s.rows[id], loaded))
          && (IsPatch(s.actors[i]) ==> Unwritten(s, id)))
  }

  lemma CalmKept(s: State, t: State, who: nat, b: Actor)
    requires CalmInv(s) && Authority(t) && t.losses == map[]
    requires who < |s.actors| && t.actors == s.actors[who := b] && s.nextId <= t.nextId
    requires forall i :: 0 <= i < |s.actors| && Busy(s.actors[i]) ==> i == who
    requires Tame(b)
    requires Reads(b).Some? ==>
               var (id, loaded) := Reads(b).value;
               && Busy(b) && id < t.nextId && (id in t.rows ==> SameShape(t.rows[id], loaded))
               && (IsPatch(b) ==> Unwritten(s, id) && Writes(b).None?)
    ensures CalmInv(t)
  {
  }

  /** A row past `processing` that no running poster task made has no writer. */
  lemma SettledRowIsUnwritten(s: State, id: Id)
    requires Authority(s) && id in s.rows && !s.rows[id].status.Processing?
    requires forall j :: 0 <= j < |s.actors| ==> !PosterOf(s.actors[j], id)
    ensures Unwritten(s, id)
  {
    forall i | 0 <= i < |s.actors| ensures Writes(s.actors[i]) != Some(id) {
      if Writes(s.actors[i]) == Some(id) { WriterIsPoster(s.actors[i], s.rows[id], id); }
    }
  }

  lemma {:induction a} WriterIsPoster(a: Actor, row: Row, id: Id)
    requires Writes(a) == Some(id) && AsWritten(a, row) && !row.status.Processing?
    ensures PosterOf(a, id)
  {
  }

  lemma ImageCalm(s: State, c: Choice, a: Actor)
    requires CalmInv(s) && Orderly(s, c) && c.Act? && c.who < |s.actors| && a == s.actors[c.who]
    requires a.Storing? || a.StoringRenditions?
    ensures CalmInv(StepImage(s, c, a))
  {
    var t := StepImage(s, c, a);
    var b := t.actors[c.who];
    ImageAuthority(s, c, a);
    ImageShape(s, c, a);
    if b.Purging? { assert Reads(b.next).None? && Tame(b.next); }
    CalmKept(s, t, c.who, b);
  }

  lemma VideoUploadCalm(s: State, c: Choice, a: Actor)
    requires CalmInv(s) && Orderly(s, c) && c.Act? && c.who < |s.actors| && a == s.actors[c.who]
    requires a.Staging? || a.Recording? || (a.Enqueuing? && c.outcome.Raise?)
    ensures CalmInv(StepVideoUpload(s, c, a))
  {
    var t := StepVideoUpload(s, c, a);
    VideoUploadAuthority(s, c, a);
    VideoUploadShape(s, c, a);
    CalmKept(s, t, c.who, t.actors[c.who]);
  }

  lemma RollbackCalm(s: State, c: Choice, a: Actor)
    requires CalmInv(s) && Orderly(s, c) && c.Act? && c.who < |s.actors| && a == s.actors[c.who]
    requires a.Unrecording? || a.PosterUnrecording?
    ensures CalmInv(if a.Unrecording? then StepVideoUpload(s, c, a) else StepPoster(s, c, a))
  {
    var t := if a.Unrecording? then StepVideoUpload(s, c, a) else StepPoster(s, c, a);
    RollbackAuthority(s, c, a);
    RollbackShape(s, c, a);
    CalmKept(s, t, c.who, t.actors[c.who]);
  }

  lemma WorkerCalm(s: State, c: Choice, a: Actor)
    requires CalmInv(s) && Orderly(s, c) && c.Act? && c.who < |s.actors| && a == s.actors[c.who]
    requires a.WorkerLoading? || a.Compressing? || a.MarkingReady? || a.MarkingFailed?
    ensures CalmInv(StepWorker(s, c, a))
  {
    var t := StepWorker(s, c, a);
    var b := t.actors[c.who];
    if a.WorkerLoading? || a.Compressing? {
      WorkerAuthority(s, c, a);
      WorkerShape(s, c, a);
    } else {
      MarkAuthority(s, c, a);
      if a.MarkingReady? && c.outcome.Ok? && a.id in s.rows {
        MarkedReadyShape(s, c, a);
      } else {
        MarkShape(s, c, a);
      }
    }
    CalmKept(s, t, c.who, b);
  }

  lemma PosterCalm(s: State, c: Choice, a: Actor)
    requires CalmInv(s) && Orderly(s, c) && c.Act? && c.who < |s.actors| && a == s.actors[c.who]
    requires a.PosterLoading? || a.PosterStoring? || a.PosterRecording? || a.Linking? || a.Reloading?
    ensures CalmInv(StepPoster(s, c, a))
  {
    var t := StepPoster(s, c, a);
    if a.Linking? || a.Reloading? {
      LinkAuthority(s, c, a);
      LinkShape(s, c, a);
    } else {
      PosterAuthority(s, c, a);
      PosterShape(s, c, a);
    }
    CalmKept(s, t, c.who, t.actors[c.who]);
  }

  lemma DeleteCalm(s: State, c: Choice, a: Actor)
    requires CalmInv(s) && Orderly(s, c) && c.Act? && c.who < |s.actors| && a == s.actors[c.who]
    requires a.DeleteLoading? || a.DeletingMain? || a.Dropping? || a.CascadeLoading?
    ensures CalmInv(StepDelete(s, c, a))
  {
    var t := StepDelete(s, c, a);
    var b := t.actors[c.who];
    DeleteAuthority(s, c, a);
    if a.Dropping? { DropShape(s, c, a); } else { DeleteShape(s, c, a); }
    CalmKept(s, t, c.who, b);
  }

  lemma PatchLoadCalm(s: State, c: Choice, a: Actor)
    requires CalmInv(s) && Orderly(s, c) && c.Act? && c.who < |s.actors| && a == s.actors[c.who]
    requires a.PatchLoading? || a.Copying?
    ensures CalmInv(StepPatch(s, c, a))
  {
    var t := StepPatch(s, c, a);
    var b := t.actors[c.who];
    PatchCopyAuthority(s, c, a);
    if a.Copying? {
      CopyingShape(s, c, a);
    } else {
      PatchLoadShape(s, c, a);
      if a.id in s.rows { SettledRowIsUnwritten(s, a.id); }
    }
    CalmKept(s, t, c.who, b);
  }

  lemma PatchCopyCalm(s: State, c: Choice, a: Actor)
    requires CalmInv(s) && Orderly(s, c) && c.Act? && c.who < |s.actors| && a == s.actors[c.who]
    requires a.CopyingRenditions?
    ensures CalmInv(StepPatch(s, c, a))
  {
    var t := StepPatch(s, c, a);
    var b := t.actors[c.who];
    PatchCopyAuthority(s, c, a);
    PatchCopyShape(s, c, a);
    CalmKept(s, t, c.who, b);
  }

  /** A PATCH whose loaded row has the row's present keys drops none it does not know. */
  lemma RepointingLosesNothing(s: State, c: Choice, a: Actor)
    requires CalmInv(s) && c.Act? && c.who < |s.actors| && a == s.actors[c.who] && a.Repointing?
    ensures StepPatch(s, c, a).losses == map[]
  {
    RepointShape(s, c, a);
    assert Reads(a) == Some((a.id, a.loaded));
    if a.id in s.rows { assert KeysOf(s.rows[a.id]) == KeysOf(a.loaded); }
    assert StepPatch(s, c, a).losses.Keys == {};
  }

  lemma RepointingCalm(s: State, c: Choice, a: Actor)
    requires CalmInv(s) && Orderly(s, c) && c.Act? && c.who < |s.actors| && a == s.actors[c.who]
    requires a.Repointing?
    ensures CalmInv(StepPatch(s, c, a))
  {
    var t := StepPatch(s, c, a);
    var b := t.actors[c.who];
    RepointingAuthority(s, c, a);
    RepointShape(s, c, a);
    RepointingLosesNothing(s, c, a);
    assert Reads(b).None? && Tame(b);
    CalmKept(s, t, c.who, b);
  }

  lemma PurgeCalm(s: State, c: Choice, a: Actor)
    requires CalmInv(s) && Orderly(s, c) && c.Act? && c.who < |s.actors| && a == s.actors[c.who]
    requires a.Purging?
    ensures CalmInv(StepPurge(s, c, a))
  {
    var t := StepPurge(s, c, a);
    var b := t.actors[c.who];
    PurgeAuthority(s, c, a);
    PurgeShape(s, c, a);
    CalmKept(s, t, c.who, b);
  }

  lemma EnqueueCalm(s: State, c: Choice, a: Actor)
    requires CalmInv(s) && Orderly(s, c) && c.Act? && c.who < |s.actors| && a == s.actors[c.who]
    requires a.Enqueuing? && c.outcome.Ok?
    ensures CalmInv(StepVideoUpload(s, c, a))
  {
    var t := StepVideoUpload(s, c, a);
    EnqueueAuthority(s, c, a);
    EnqueueShape(s, c, a);
    forall i | 0 <= i < |s.actors| ensures t.actors[i] == s.actors[i] || (i == c.who && t.actors[i].Done?) {}
    assert forall i :: 0 <= i < |t.actors| ==> !Busy(t.actors[i]) && Reads(t.actors[i]).None?;
  }

  lemma CalmArrival(s: State, c: Choice)
    requires CalmInv(s) && Orderly(s, c) && c.Start? && Arrival(c.actor)
    ensures CalmInv(s.(actors := s.actors + [c.actor]))
  {
    var t := s.(actors := s.actors + [c.actor]);
    ArrivalAuthority(s, c.actor);
    forall i | 0 <= i < |t.actors| ensures !Busy(t.actors[i]) && Reads(t.actors[i]).None? && Tame(t.actors[i]) {
      assert (i < |s.actors| && t.actors[i] == s.actors[i]) || t.actors[i] == c.actor;
    }
  }

  lemma StepKeepsCalmInv(s: State, c: Choice)
    requires CalmInv(s) && Orderly(s, c)
    ensures CalmInv(Step(s, c))
  {
    match c
    case Start(a) =>
      if Arrival(a) { CalmArrival(s, c); }
    case Act(who, _, _, _, _) =>
      if who < |s.actors| {
        var a := s.actors[who];
        if a.Storing? || a.StoringRenditions? { ImageCalm(s, c, a); }
        else if a.Enqueuing? && c.outcome.Ok? { EnqueueCalm(s, c, a); }
        else if a.Unrecording? || a.PosterUnrecording? { RollbackCalm(s, c, a); }
        else if a.Staging? || a.Recording? || a.Enqueuing? { VideoUploadCalm(s, c, a); }
        else if a.WorkerLoading? || a.Compressing? || a.MarkingReady? || a.MarkingFailed? { WorkerCalm(s, c, a); }
        else if a.DeleteLoading? || a.DeletingMain? || a.Dropping? || a.CascadeLoading? { DeleteCalm(s, c, a); }
        else if a.PatchLoading? || a.Copying? { PatchLoadCalm(s, c, a); }
        else if a.CopyingRenditions? { PatchCopyCalm(s, c, a); }
        else if a.Repointing? { RepointingCalm(s, c, a); }
        else if a.Purging? { PurgeCalm(s, c, a); }
        else if !a.Done? { PosterCalm(s, c, a); }
      }
  }
}
