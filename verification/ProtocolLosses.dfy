/** What a stale write can lose, with every call of every handler interleaved: compressed
    outputs and rotated copies, never an object that an upload or a poster task stored. */
module ProtocolLosses {
  import opened Records
  import opened Protocol
  import opened ProtocolShapes
  import opened ProtocolRaces

  /** Drawn by a compression run or by a PATCH, not by an upload or a poster task. */
  ghost predicate Derived(s: State, k: Key) {
    k in s.outputs || k in s.copies
  }

  /** The row a handler made or works for, with the one object it stored for it. */
  ghost function Own(a: Actor): Option<(Id, Key)> {
    match a
    case Enqueuing(raw, id, _) => Some((id, raw))
    case Unrecording(raw, id) => Some((id, raw))
    case WorkerLoading(raw, id, _) => Some((id, raw))
    case Compressing(raw, id, _) => Some((id, raw))
    case MarkingReady(raw, id, _, _) => Some((id, raw))
    case MarkingFailed(raw, id) => Some((id, raw))
    case Linking(_, poster, image, _) => Some((poster, image))
    case Reloading(_, poster, image, _) => Some((poster, image))
    case PosterUnrecording(poster, image, _) => Some((poster, image))
    case Purging(_, _, next) => Own(next)
    case _ => None
  }

  /** The keys a handler is about to give a row that is already there. */
  ghost function Brings(a: Actor): set<Key> {
    match a
    case MarkingReady(_, _, _, out) => {out}
    case CopyingRenditions(_, _, _, main, copied, _, _) => {main} + copied.Values
    case Repointing(_, _, _, adopt, copied, _) => (if adopt.Some? then {adopt.value} else {}) + copied.Values
    case Purging(_, _, next) => Brings(next)
    case _ => {}
  }

  /** Every key row `id` has now is among `keys`, or derived. */
  ghost predicate Covers(s: State, id: Id, keys: set<Key>) {
    id < s.nextId && (id in s.rows ==> forall k :: k in KeysOf(s.rows[id]) ==> k in keys || Derived(s, k))
  }

  ghost predicate Knows(s: State, a: Actor) {
    && (Own(a).Some? ==> Covers(s, Own(a).value.0, {Own(a).value.1}))
    && (Reads(a).Some? ==> Covers(s, Reads(a).value.0, KeysOf(Reads(a).value.1)))
    && (forall k :: k in Brings(a) ==> Derived(s, k))
  }

  ghost predicate OriginInv(s: State) {
    && (forall i :: 0 <= i < |s.actors| ==> Knows(s, s.actors[i]))
    && (forall id :: id in s.rows ==> id < s.nextId)
    && (forall k :: k in s.losses ==> Derived(s, k))
  }

  /** Rows only gain keys that are derived. */
  ghost predicate GainDerived(s: State, t: State) {
    && s.nextId <= t.nextId && s.outputs <= t.outputs && s.copies <= t.copies
    && forall id :: id in t.rows ==>
         && id < t.nextId
         && (id < s.nextId ==>
               id in s.rows && forall k :: k in KeysOf(t.rows[id]) ==> k in KeysOf(s.rows[id]) || Derived(t, k))
  }

  lemma KnowsStill(s: State, t: State, a: Actor)
    requires Knows(s, a) && GainDerived(s, t)
    ensures Knows(t, a)
  {
  }

  lemma OriginKept(s: State, t: State, who: nat, b: Actor)
    requires OriginInv(s) && Turn(s, t, who, b) && GainDerived(s, t) && Knows(t, b)
    requires forall k :: k in t.losses ==> k in s.losses || Derived(t, k)
    ensures OriginInv(t)
  {
    forall i | 0 <= i < |t.actors| ensures Knows(t, t.actors[i]) {
      if i != who { KnowsStill(s, t, s.actors[i]); }
    }
  }

  /** A step that leaves the rows alone, by a handler that keeps to what it knows or has
      just loaded. */
  lemma PassOrigin(s: State, t: State, who: nat, b: Actor)
    requires OriginInv(s) && Turn(s, t, who, b) && RowsSame(s, t) && s.outputs <= t.outputs && s.copies <= t.copies
    requires Own(b).None? || Own(b) == Own(s.actors[who])
    requires Reads(b).Some? ==>
               || Reads(b) == Reads(s.actors[who])
               || (Reads(b).value.0 in s.rows && Reads(b).value.1 == s.rows[Reads(b).value.0])
    requires forall k :: k in Brings(b) ==> k in Brings(s.actors[who]) || Derived(t, k)
    ensures OriginInv(t)
  {
    assert Knows(s, s.actors[who]);
    OriginKept(s, t, who, b);
  }

  /** Nothing but clean-ups before the end, or before a PATCH of the poster. */
  ghost predicate Quiet(b: Actor) {
    b.Done? || b.PatchLoading? || (b.Purging? && Quiet(b.next))
  }

  lemma KnowsNothing(s: State, b: Actor)
    requires Quiet(b)
    ensures Own(b).None? && Reads(b).None? && Brings(b) == {} && Knows(s, b)
  {
    if b.Purging? { KnowsNothing(s, b.next); }
  }

  lemma ImageOrigin(s: State, c: Choice, a: Actor)
    requires OriginInv(s) && c.Act? && c.who < |s.actors| && a == s.actors[c.who]
    requires a.Storing? || a.StoringRenditions?
    ensures OriginInv(StepImage(s, c, a))
  {
    var t := StepImage(s, c, a);
    var b := t.actors[c.who];
    ImageShape(s, c, a);
    if b.Purging? {
      if b.next.Purging? { assert Quiet(b.next.next); }
      KnowsNothing(t, b);
    }
    OriginKept(s, t, c.who, b);
  }

  lemma VideoUploadOrigin(s: State, c: Choice, a: Actor)
    requires OriginInv(s) && c.Act? && c.who < |s.actors| && a == s.actors[c.who]
    requires a.Staging? || a.Recording? || (a.Enqueuing? && c.outcome.Raise?)
    ensures OriginInv(StepVideoUpload(s, c, a))
  {
    var t := StepVideoUpload(s, c, a);
    var b := t.actors[c.who];
    VideoUploadShape(s, c, a);
    if RowsSame(s, t) { PassOrigin(s, t, c.who, b); } else { OriginKept(s, t, c.who, b); }
  }

  lemma RollbackOrigin(s: State, c: Choice, a: Actor)
    requires OriginInv(s) && c.Act? && c.who < |s.actors| && a == s.actors[c.who]
    requires a.Unrecording? || a.PosterUnrecording?
    ensures OriginInv(if a.Unrecording? then StepVideoUpload(s, c, a) else StepPoster(s, c, a))
  {
    var t := if a.Unrecording? then StepVideoUpload(s, c, a) else StepPoster(s, c, a);
    RollbackShape(s, c, a);
    assert Knows(s, a);
    OriginKept(s, t, c.who, t.actors[c.who]);
  }

  lemma EnqueueOrigin(s: State, c: Choice, a: Actor)
    requires OriginInv(s) && c.Act? && c.who < |s.actors| && a == s.actors[c.who] && a.Enqueuing? && c.outcome.Ok?
    ensures OriginInv(StepVideoUpload(s, c, a))
  {
    var t := StepVideoUpload(s, c, a);
    EnqueueShape(s, c, a);
    assert Knows(s, a);
    forall i | 0 <= i < |t.actors| ensures Knows(t, t.actors[i]) {
      if i < |s.actors| && i != c.who { KnowsStill(s, t, s.actors[i]); }
    }
  }

  lemma WorkerOrigin(s: State, c: Choice, a: Actor)
    requires OriginInv(s) && c.Act? && c.who < |s.actors| && a == s.actors[c.who]
    requires a.WorkerLoading? || a.Compressing?
    ensures OriginInv(StepWorker(s, c, a))
  {
    var t := StepWorker(s, c, a);
    WorkerShape(s, c, a);
    PassOrigin(s, t, c.who, t.actors[c.who]);
  }

  lemma MarkOrigin(s: State, c: Choice, a: Actor)
    requires OriginInv(s) && c.Act? && c.who < |s.actors| && a == s.actors[c.who]
    requires a.MarkingReady? || a.MarkingFailed?
    requires a.MarkingReady? ==> c.outcome.Raise? || a.id !in s.rows
    ensures OriginInv(StepWorker(s, c, a))
  {
    var t := StepWorker(s, c, a);
    var b := t.actors[c.who];
    MarkShape(s, c, a);
    assert Knows(s, a);
    if t.rows == s.rows { PassOrigin(s, t, c.who, b); } else { OriginKept(s, t, c.who, b); }
  }

  lemma MarkedReadyOrigin(s: State, c: Choice, a: Actor)
    requires OriginInv(s) && c.Act? && c.who < |s.actors| && a == s.actors[c.who]
    requires a.MarkingReady? && c.outcome.Ok? && a.id in s.rows
    ensures OriginInv(StepWorker(s, c, a))
  {
    var t := StepWorker(s, c, a);
    MarkedReadyShape(s, c, a);
    assert Knows(s, a) && a.out in Brings(a);
    OriginKept(s, t, c.who, t.actors[c.who]);
  }

  lemma PosterOrigin(s: State, c: Choice, a: Actor)
    requires OriginInv(s) && c.Act? && c.who < |s.actors| && a == s.actors[c.who]
    requires a.PosterLoading? || a.PosterStoring? || a.PosterRecording?
    ensures OriginInv(StepPoster(s, c, a))
  {
    var t := StepPoster(s, c, a);
    var b := t.actors[c.who];
    PosterShape(s, c, a);
    if RowsSame(s, t) { PassOrigin(s, t, c.who, b); } else { OriginKept(s, t, c.who, b); }
  }

  lemma LinkOrigin(s: State, c: Choice, a: Actor)
    requires OriginInv(s) && c.Act? && c.who < |s.actors| && a == s.actors[c.who] && (a.Linking? || a.Reloading?)
    ensures OriginInv(StepPoster(s, c, a))
  {
    var t := StepPoster(s, c, a);
    var b := t.actors[c.who];
    LinkShape(s, c, a);
    assert Knows(s, a);
    assert GainDerived(s, t);
    KnowsStill(s, t, a);
    assert Own(b).None? || Own(b) == Own(a);
    OriginKept(s, t, c.who, b);
  }

  lemma DeleteOrigin(s: State, c: Choice, a: Actor)
    requires OriginInv(s) && c.Act? && c.who < |s.actors| && a == s.actors[c.who]
    requires a.DeleteLoading? || a.DeletingMain? || a.CascadeLoading?
    ensures OriginInv(StepDelete(s, c, a))
  {
    var t := StepDelete(s, c, a);
    DeleteShape(s, c, a);
    PassOrigin(s, t, c.who, t.actors[c.who]);
  }

  lemma DropOrigin(s: State, c: Choice, a: Actor)
    requires OriginInv(s) && c.Act? && c.who < |s.actors| && a == s.actors[c.who] && a.Dropping?
    ensures OriginInv(StepDelete(s, c, a))
  {
    var t := StepDelete(s, c, a);
    DropShape(s, c, a);
    assert Knows(s, a);
    OriginKept(s, t, c.who, t.actors[c.who]);
  }

  lemma PatchLoadOrigin(s: State, c: Choice, a: Actor)
    requires OriginInv(s) && c.Act? && c.who < |s.actors| && a == s.actors[c.who] && a.PatchLoading?
    ensures OriginInv(StepPatch(s, c, a))
  {
    var t := StepPatch(s, c, a);
    PatchLoadShape(s, c, a);
    PassOrigin(s, t, c.who, t.actors[c.who]);
  }

  lemma CopyingOrigin(s: State, c: Choice, a: Actor)
    requires OriginInv(s) && c.Act? && c.who < |s.actors| && a == s.actors[c.who] && a.Copying?
    ensures OriginInv(StepPatch(s, c, a))
  {
    var t := StepPatch(s, c, a);
    CopyingShape(s, c, a);
    PassOrigin(s, t, c.who, t.actors[c.who]);
  }

  lemma PatchCopyOrigin(s: State, c: Choice, a: Actor)
    requires OriginInv(s) && c.Act? && c.who < |s.actors| && a == s.actors[c.who] && a.CopyingRenditions?
    ensures OriginInv(StepPatch(s, c, a))
  {
    var t := StepPatch(s, c, a);
    var b := t.actors[c.who];
    PatchCopyShape(s, c, a);
    if LastPurge(b, Patch) { KnowsNothing(t, b); }
    if b.CopyingRenditions? && b.copied != a.copied {
      forall k | k in b.copied.Values && k != c.key ensures k in a.copied.Values {
        var n :| n in b.copied && b.copied[n] == k;
        assert n in a.copied && a.copied[n] == k;
      }
    }
    PassOrigin(s, t, c.who, b);
  }

  /** A PATCH that adopts its copies gives the row only what it brings. */
  lemma RepointGains(s: State, t: State, c: Choice, a: Actor)
    requires OriginInv(s) && c.Act? && c.who < |s.actors| && a == s.actors[c.who] && a.Repointing?
    requires t == StepPatch(s, c, a)
    ensures GainDerived(s, t) && forall k :: k in t.losses ==> k in s.losses || Derived(t, k)
  {
    RepointShape(s, c, a);
    assert Knows(s, a);
    if a.id in t.rows && a.id in s.rows {
      forall k | k in KeysOf(t.rows[a.id]) ensures k in KeysOf(s.rows[a.id]) || k in Brings(a) {}
    }
  }

  lemma RepointOrigin(s: State, c: Choice, a: Actor)
    requires OriginInv(s) && c.Act? && c.who < |s.actors| && a == s.actors[c.who] && a.Repointing?
    ensures OriginInv(StepPatch(s, c, a))
  {
    var t := StepPatch(s, c, a);
    RepointShape(s, c, a);
    RepointGains(s, t, c, a);
    KnowsNothing(t, t.actors[c.who]);
    OriginKept(s, t, c.who, t.actors[c.who]);
  }

  lemma PurgeOrigin(s: State, c: Choice, a: Actor)
    requires OriginInv(s) && c.Act? && c.who < |s.actors| && a == s.actors[c.who] && a.Purging?
    ensures OriginInv(StepPurge(s, c, a))
  {
    var t := StepPurge(s, c, a);
    var b := t.actors[c.who];
    PurgeShape(s, c, a);
    PassOrigin(s, t, c.who, b);
  }

  lemma StepKeepsOriginInv(s: State, c: Choice)
    requires OriginInv(s)
    ensures OriginInv(Step(s, c))
  {
    match c
    case Start(a) =>
      if Arrival(a) {
        var t := s.(actors := s.actors + [a]);
        assert Own(a).None? && Reads(a).None? && Brings(a) == {};
        forall i | 0 <= i < |t.actors| ensures Knows(t, t.actors[i]) {
          if i < |s.actors| { KnowsStill(s, t, s.actors[i]); }
        }
      }
    case Act(who, _, _, _, _) =>
      if who < |s.actors| {
        var a := s.actors[who];
        if a.Storing? || a.StoringRenditions? { ImageOrigin(s, c, a); }
        else if a.Enqueuing? && c.outcome.Ok? { EnqueueOrigin(s, c, a); }
        else if a.Unrecording? || a.PosterUnrecording? { RollbackOrigin(s, c, a); }
        else if a.Staging? || a.Recording? || a.Enqueuing? { VideoUploadOrigin(s, c, a); }
        else if a.WorkerLoading? || a.Compressing? { WorkerOrigin(s, c, a); }
        else if a.MarkingReady? && c.outcome.Ok? && a.id in s.rows { MarkedReadyOrigin(s, c, a); }
        else if a.MarkingReady? || a.MarkingFailed? { MarkOrigin(s, c, a); }
        else if a.Linking? || a.Reloading? { LinkOrigin(s, c, a); }
        else if a.DeleteLoading? || a.DeletingMain? || a.CascadeLoading? { DeleteOrigin(s, c, a); }
        else if a.Dropping? { DropOrigin(s, c, a); }
        else if a.PatchLoading? { PatchLoadOrigin(s, c, a); }
        else if a.Copying? { CopyingOrigin(s, c, a); }
        else if a.CopyingRenditions? { PatchCopyOrigin(s, c, a); }
        else if a.Repointing? { RepointOrigin(s, c, a); }
        else if a.Purging? { PurgeOrigin(s, c, a); }
        else if !a.Done? { PosterOrigin(s, c, a); }
      }
  }

  lemma {:induction false} LossesAreDerived(schedule: seq<Choice>)
    ensures OriginInv(Run(schedule))
  {
    if schedule != [] {
      LossesAreDerived(schedule[..|schedule| - 1]);
      StepKeepsOriginInv(Run(schedule[..|schedule| - 1]), schedule[|schedule| - 1]);
    }
  }
}
