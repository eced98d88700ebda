/** The other direction, from rows to objects: with every call of every handler interleaved,
    a row marked `ready` points at an object that is in storage, unless a handler is about to
    drop that row or its DELETE statement raised. */
module ProtocolPresence {
  import opened Records
  import opened Protocol
  import opened ProtocolAccounting

  /** The fresh object a handler is about to make the main one of a row. */
  ghost function Gives(a: Actor): set<Key> {
    match a
    case StoringRenditions(_, main, _, _, _) => {main}
    case Recording(_, raw, _) => {raw}
    case MarkingReady(_, _, _, out) => {out}
    case PosterRecording(_, _, image, _) => {image}
    case CopyingRenditions(_, _, _, main, _, _, _) => {main}
    case Repointing(_, _, _, adopt, _, _) => if adopt.Some? then {adopt.value} else {}
    case _ => {}
  }

  /** The row a handler is about to drop, come what may. */
  ghost function Drops(a: Actor): Option<Id> {
    match a
    case Dropping(id, _, _) => Some(id)
    case PosterUnrecording(poster, _, _) => Some(poster)
    case Purging(_, _, next) => Drops(next)
    case _ => None
  }

  /** Keys a handler may yet delete although it drops no row for them. */
  ghost function Doomed(a: Actor): set<Key> {
    match a
    case Enqueuing(raw, _, _) => {raw}
    case Unrecording(raw, _) => {raw}
    case WorkerLoading(raw, _, _) => {raw}
    case Compressing(raw, _, _) => {raw}
    case MarkingReady(raw, _, _, _) => {raw}
    case MarkingFailed(raw, _) => {raw}
    case PosterStoring(_, _, owes) => owes
    case PosterRecording(_, _, _, owes) => owes
    case Linking(_, _, _, owes) => owes
    case Reloading(_, _, _, owes) => owes
    case PosterUnrecording(_, _, owes) => owes
    case Purging(_, todo, next) => (if Drops(next).Some? then {} else todo) + Doomed(next)
    case _ => {}
  }

  /** The row a handler has loaded or made, and the keys it may delete on its account. */
  ghost function Known(a: Actor): Option<(Id, set<Key>)> {
    match a
    case DeletingMain(id, loaded) => Some((id, KeysOf(loaded)))
    case Copying(id, _, loaded, _) => Some((id, KeysOf(loaded)))
    case CopyingRenditions(id, _, loaded, _, _, _, _) => Some((id, KeysOf(loaded)))
    case Repointing(id, _, loaded, _, _, _) => Some((id, KeysOf(loaded)))
    case Linking(_, poster, image, _) => Some((poster, {image}))
    case Reloading(_, poster, image, _) => Some((poster, {image}))
    case Purging(_, todo, next) => if Drops(next).Some? then Some((Drops(next).value, todo)) else Known(next)
    case _ => None
  }

  /** A clean-up before a row drop is the last one. */
  ghost predicate Tidy(a: Actor) {
    a.Purging? && Drops(a.next).Some? ==> Known(a.next).None?
  }

  /** No `ready` row has `k` as its main key, nor will any get it. */
  ghost predicate Spare(s: State, k: Key) {
    && (forall id :: id in s.rows && s.rows[id].status.Ready? ==> s.rows[id].storageKey != k)
    && (forall i :: 0 <= i < |s.actors| ==> k !in Gives(s.actors[i]))
  }

  /** No row but `id` has `k` as its main key, nor will any get it. */
  ghost predicate Apart(s: State, id: Id, k: Key) {
    && (forall j :: j in s.rows && j != id ==> s.rows[j].storageKey != k)
    && (forall i :: 0 <= i < |s.actors| ==> k !in Gives(s.actors[i]))
  }

  ghost predicate KnownApart(s: State, a: Actor) {
    Known(a).Some? ==> forall k :: k in Known(a).value.1 ==> Apart(s, Known(a).value.0, k)
  }

  ghost predicate Harmless(s: State, a: Actor) {
    && Gives(a) <= s.objects
    && (forall k :: k in Doomed(a) ==> Spare(s, k))
    && KnownApart(s, a)
    && Tidy(a)
  }

  ghost predicate BeingDropped(s: State, id: Id) {
    exists i :: 0 <= i < |s.actors| && Drops(s.actors[i]) == Some(id)
  }

  ghost predicate Backed(s: State, id: Id)
    requires id in s.rows
  {
    s.rows[id].storageKey in s.objects || id in s.undropped || BeingDropped(s, id)
  }

  ghost predicate Present(s: State) {
    && (forall id :: id in s.rows && s.rows[id].status.Ready? ==> Backed(s, id))
    && (forall i :: 0 <= i < |s.actors| ==> Harmless(s, s.actors[i]))
  }

  // ----- What the accounting says of such keys ---------------------------------------

  lemma {:induction a} Mentioned(a: Actor)
    ensures Gives(a) <= ClaimOf(a).holds && Doomed(a) <= ClaimOf(a).mentions
    ensures Known(a).Some? ==> Known(a).value.1 <= ClaimOf(a).mentions
  {
  }

  /** Every key a handler knows has been drawn; one it holds is nobody else's. */
  lemma Drawn(s: State, i: nat)
    requires Inv(s) && i < |s.actors|
    ensures ClaimOf(s.actors[i]).mentions <= s.issued
    ensures forall k :: k in ClaimOf(s.actors[i]).holds ==>
              && (forall id :: id in s.rows ==> k !in KeysOf(s.rows[id]))
              && (forall j :: 0 <= j < |s.actors| && j != i ==> k !in ClaimOf(s.actors[j]).holds)
  {
    var l := LedgerOf(s);
    assert l.claims[i] == ClaimOf(s.actors[i]);
    forall id | id in s.rows ensures ClaimOf(s.actors[i]).holds !! KeysOf(s.rows[id]) {
      assert l.rows[id] == KeysOf(s.rows[id]);
    }
    forall j | 0 <= j < |s.actors| && j != i ensures ClaimOf(s.actors[i]).holds !! ClaimOf(s.actors[j]).holds {
      assert l.claims[j] == ClaimOf(s.actors[j]);
    }
  }

  /** The keys of a row are no other row's, and no handler holds them. */
  lemma OwnKeysAreApart(s: State, id: Id, k: Key)
    requires Inv(s) && id in s.rows && k in KeysOf(s.rows[id])
    ensures Apart(s, id, k)
  {
    var l := LedgerOf(s);
    forall j | j in s.rows && j != id ensures s.rows[j].storageKey != k {
      assert l.rows[j] == KeysOf(s.rows[j]) && l.rows[id] == KeysOf(s.rows[id]);
    }
    forall i | 0 <= i < |s.actors| ensures k !in Gives(s.actors[i]) {
      Mentioned(s.actors[i]);
      Drawn(s, i);
    }
  }

  /** A handler that gives up may delete what it held. */
  lemma HeldKeyIsSpare(s: State, t: State, who: nat, b: Actor, k: Key)
    requires Inv(s) && who < |s.actors| && t.actors == s.actors[who := b] && t.rows == s.rows
    requires k in ClaimOf(s.actors[who]).holds && k !in Gives(b)
    ensures Spare(t, k)
  {
    Drawn(s, who);
    forall i | 0 <= i < |t.actors| ensures k !in Gives(t.actors[i]) { Mentioned(t.actors[i]); }
  }

  // ----- What a call has to respect ----------------------------------------------------

  /** Between `a` and `b`, what may be deleted: a key no `ready` row has, or one of the row
      the handler goes on to drop. */
  ghost predicate MayTake(a: Actor, b: Actor, k: Key) {
    k in Doomed(a) || (Known(a).Some? && k in Known(a).value.1 && Drops(b) == Some(Known(a).value.0))
  }

  /** A call that turns handler `a` into `b`. */
  ghost predicate Fits(s: State, t: State, a: Actor, b: Actor) {
    && s.undropped <= t.undropped
    && (forall k :: k in s.objects && k !in t.objects ==> MayTake(a, b, k))
    && (forall id :: id in t.rows ==>
          || t.rows[id].storageKey in Gives(a)
          || (id in s.rows && t.rows[id].storageKey == s.rows[id].storageKey
              && (t.rows[id].status.Ready? ==> s.rows[id].status.Ready?)))
    && (forall k :: k in Gives(b) ==> k in Gives(a) || (k !in s.issued && k in t.objects))
    && (forall k :: k in Doomed(b) ==> k in Doomed(a) || Spare(t, k))
    && (Known(b) == Known(a) || KnownApart(t, b))
    && (Drops(a).Some? ==> Drops(b) == Drops(a) || Drops(a).value !in t.rows || Drops(a).value in t.undropped)
    && Tidy(b)
  }

  lemma SpareStill(s: State, t: State, who: nat, b: Actor, k: Key)
    requires who < |s.actors| && t.actors == s.actors[who := b] && Fits(s, t, s.actors[who], b)
    requires Spare(s, k) && k in s.issued
    ensures Spare(t, k)
  {
    assert k !in Gives(s.actors[who]);
  }

  lemma ApartStill(s: State, t: State, who: nat, b: Actor, id: Id, k: Key)
    requires who < |s.actors| && t.actors == s.actors[who := b] && Fits(s, t, s.actors[who], b)
    requires Apart(s, id, k) && k in s.issued
    ensures Apart(t, id, k)
  {
    assert k !in Gives(s.actors[who]);
  }

  lemma BackedStill(s: State, t: State, who: nat, b: Actor, id: Id)
    requires Present(s) && who < |s.actors| && t.actors == s.actors[who := b] && Fits(s, t, s.actors[who], b)
    requires id in t.rows && t.rows[id].status.Ready?
    ensures Backed(t, id)
  {
    var a := s.actors[who];
    var k := t.rows[id].storageKey;
    assert Harmless(s, a);
    if k in Gives(a) {
      GivenStays(s, t, who, b, who, k);
    } else if k in s.objects && k !in t.objects {
      assert MayTake(a, b, k);
      assert k !in Doomed(a);
      assert Apart(s, Known(a).value.0, k);
      assert t.actors[who] == b;
    } else if BeingDropped(s, id) {
      var i :| 0 <= i < |s.actors| && Drops(s.actors[i]) == Some(id);
      assert i != who ==> t.actors[i] == s.actors[i];
      assert t.actors[who] == b;
    }
  }

  lemma GivenStays(s: State, t: State, who: nat, b: Actor, i: nat, k: Key)
    requires Present(s) && who < |s.actors| && t.actors == s.actors[who := b] && Fits(s, t, s.actors[who], b)
    requires i < |s.actors| && k in Gives(s.actors[i])
    ensures k in t.objects
  {
    var a := s.actors[who];
    assert Harmless(s, a) && Harmless(s, s.actors[i]);
    assert k !in Doomed(a);
    assert Known(a).Some? ==> k !in Known(a).value.1;
  }

  lemma OthersAreHarmless(s: State, t: State, who: nat, b: Actor, i: nat)
    requires Inv(s) && Present(s) && who < |s.actors| && t.actors == s.actors[who := b]
    requires Fits(s, t, s.actors[who], b)
    requires i < |s.actors|
    ensures Gives(s.actors[i]) <= t.objects
    ensures forall k :: k in Doomed(s.actors[i]) ==> Spare(t, k)
    ensures KnownApart(t, s.actors[i]) && Tidy(s.actors[i])
  {
    var a := s.actors[i];
    assert Harmless(s, a);
    Mentioned(a);
    Drawn(s, i);
    forall k | k in Gives(a) ensures k in t.objects { GivenStays(s, t, who, b, i, k); }
    forall k | k in Doomed(a) ensures Spare(t, k) { SpareStill(s, t, who, b, k); }
    if Known(a).Some? {
      forall k | k in Known(a).value.1 ensures Apart(t, Known(a).value.0, k) {
        ApartStill(s, t, who, b, Known(a).value.0, k);
      }
    }
  }

  lemma FitsKeepsPresent(s: State, t: State, who: nat, b: Actor)
    requires Inv(s) && Present(s) && who < |s.actors| && t.actors == s.actors[who := b]
    requires Fits(s, t, s.actors[who], b)
    ensures Present(t)
  {
    forall id | id in t.rows && t.rows[id].status.Ready? ensures Backed(t, id) { BackedStill(s, t, who, b, id); }
    forall i | 0 <= i < |t.actors| ensures Harmless(t, t.actors[i]) {
      OthersAreHarmless(s, t, who, b, i);
    }
  }

  /** A handler that has just arrived, or one that has handed over, changes nothing. */
  lemma SameHandlers(s: State, t: State)
    requires Present(s) && t.rows == s.rows && t.objects == s.objects && t.undropped == s.undropped
    requires forall i :: 0 <= i < |t.actors| ==> Bare(t.actors[i]) || t.actors[i] in s.actors
    requires forall a :: a in s.actors ==> a in t.actors
    ensures Present(t)
  {
    forall k, id | Apart(s, id, k) ensures Apart(t, id, k) {}
    forall k | Spare(s, k) ensures Spare(t, k) {}
    forall i | 0 <= i < |t.actors| ensures Harmless(t, t.actors[i]) {
      if !Bare(t.actors[i]) {
        var j :| 0 <= j < |s.actors| && s.actors[j] == t.actors[i];
        assert Harmless(s, s.actors[j]);
      }
    }
    forall id: Id | BeingDropped(s, id) ensures BeingDropped(t, id) {
      var i :| 0 <= i < |s.actors| && Drops(s.actors[i]) == Some(id);
      assert s.actors[i] in t.actors;
    }
  }

  ghost predicate Bare(a: Actor) {
    Gives(a) == {} && Doomed(a) == {} && Known(a).None? && Tidy(a)
  }

  // ----- The calls ---------------------------------------------------------------------

  /** A successful upload or copy to a fresh key. */
  lemma PutPresent(s: State, t: State, who: nat, b: Actor, k: Key)
    requires Inv(s) && Present(s) && who < |s.actors| && t.actors == s.actors[who := b] && k !in s.issued
    requires t.rows == s.rows && t.objects == s.objects + {k} && t.undropped == s.undropped
    requires Gives(b) <= Gives(s.actors[who]) + {k} && Doomed(b) <= Doomed(s.actors[who]) && Tidy(b)
    requires Known(b) == Known(s.actors[who]) && Drops(s.actors[who]).None?
    ensures Present(t)
  {
    FitsKeepsPresent(s, t, who, b);
  }

  /** A call that changes neither the objects nor any row. */
  lemma PassPresent(s: State, t: State, who: nat, b: Actor)
    requires Inv(s) && Present(s) && who < |s.actors| && t.actors == s.actors[who := b]
    requires t.objects == s.objects && t.undropped == s.undropped && t.rows == s.rows
    requires Gives(b) <= Gives(s.actors[who]) && Doomed(b) <= Doomed(s.actors[who]) && Tidy(b)
    requires Known(b).None? || Known(b) == Known(s.actors[who])
    requires Drops(s.actors[who]).None? || Drops(b) == Drops(s.actors[who])
    ensures Present(t)
  {
    FitsKeepsPresent(s, t, who, b);
  }

  /** A call that loads row `id`. */
  lemma LoadPresent(s: State, t: State, who: nat, b: Actor, id: Id)
    requires Inv(s) && Present(s) && who < |s.actors| && t.actors == s.actors[who := b] && id in s.rows
    requires t.objects == s.objects && t.undropped == s.undropped && t.rows == s.rows
    requires Gives(b) == {} && Doomed(b) == {} && Tidy(b) && Known(b) == Some((id, KeysOf(s.rows[id])))
    requires Drops(s.actors[who]).None?
    ensures Present(t)
  {
    forall k | k in KeysOf(s.rows[id]) ensures Apart(t, id, k) { OwnKeysAreApart(s, id, k); }
    FitsKeepsPresent(s, t, who, b);
  }

  /** A call that writes row `id`: it keeps its main key, or gets the one the handler gives. */
  lemma WritePresent(s: State, t: State, who: nat, b: Actor, id: Id)
    requires Inv(s) && Present(s) && who < |s.actors| && t.actors == s.actors[who := b]
    requires t.objects == s.objects && t.undropped == s.undropped && id in t.rows && t.rows == s.rows[id := t.rows[id]]
    requires || t.rows[id].storageKey in Gives(s.actors[who])
             || (id in s.rows && t.rows[id].storageKey == s.rows[id].storageKey
                 && (t.rows[id].status.Ready? ==> s.rows[id].status.Ready?))
    requires Gives(b) == {} && Tidy(b) && Drops(s.actors[who]).None?
    requires Known(b).None? || Known(b) == Known(s.actors[who]) || KnownApart(t, b)
    requires forall k :: k in Doomed(b) ==> k in Doomed(s.actors[who]) || Spare(t, k)
    ensures Present(t)
  {
    FitsKeepsPresent(s, t, who, b);
  }

  /** The end of a call that was to drop row `id`. */
  lemma DropPresent(s: State, t: State, who: nat, b: Actor, id: Id)
    requires Inv(s) && Present(s) && who < |s.actors| && t.actors == s.actors[who := b]
    requires t.objects == s.objects
    requires || (t.rows == s.rows && t.undropped == s.undropped && id !in s.rows)
             || (t.rows == s.rows && t.undropped == s.undropped + {id})
             || (t.rows == s.rows - {id} && t.undropped == s.undropped)
    requires Gives(b) == {} && Doomed(b) <= Doomed(s.actors[who]) && Known(b).None? && Tidy(b)
    requires Drops(s.actors[who]).None? || Drops(s.actors[who]) == Some(id)
    ensures Present(t)
  {
    FitsKeepsPresent(s, t, who, b);
  }

  /** A delete call, whichever way it ends. */
  lemma TakePresent(s: State, t: State, who: nat, b: Actor, k: Key)
    requires Inv(s) && Present(s) && who < |s.actors| && t.actors == s.actors[who := b]
    requires t.objects == s.objects - {k} && t.rows == s.rows && t.undropped == s.undropped
    requires MayTake(s.actors[who], b, k)
    requires Gives(b) == {} && Doomed(b) <= Doomed(s.actors[who]) && Tidy(b)
    requires Known(b).Some? ==>
               && Known(s.actors[who]).Some? && Known(b).value.0 == Known(s.actors[who]).value.0
               && Known(b).value.1 <= Known(s.actors[who]).value.1
    requires Drops(s.actors[who]).None? || Drops(b) == Drops(s.actors[who])
    ensures Present(t)
  {
    var a := s.actors[who];
    if Known(b).Some? {
      assert Harmless(s, a);
      forall k | k in Known(b).value.1 ensures Apart(t, Known(b).value.0, k) {
        assert Apart(s, Known(a).value.0, k);
      }
    }
    FitsKeepsPresent(s, t, who, b);
  }

  /** A handler gives up: it may go on to delete what it held. */
  lemma GiveUpPresent(s: State, t: State, who: nat, b: Actor)
    requires Inv(s) && Present(s) && who < |s.actors| && t.actors == s.actors[who := b]
    requires t.objects == s.objects && t.undropped == s.undropped && t.rows == s.rows
    requires Gives(b) == {} && Known(b).None? && Tidy(b) && Drops(s.actors[who]).None?
    requires Doomed(b) <= Doomed(s.actors[who]) + ClaimOf(s.actors[who]).holds
    ensures Present(t)
  {
    forall k | k in Doomed(b) && k !in Doomed(s.actors[who]) ensures Spare(t, k) {
      HeldKeyIsSpare(s, t, who, b, k);
    }
    FitsKeepsPresent(s, t, who, b);
  }

  lemma StoringPresent(s: State, c: Choice, a: Actor)
    requires Inv(s) && Present(s) && c.Act? && c.who < |s.actors| && a == s.actors[c.who] && a.Storing?
    ensures Present(StepImage(s, c, a))
  {
    var t := StepImage(s, c, a);
    var b := t.actors[c.who];
    if c.outcome.Raise? || c.key in s.issued { PassPresent(s, t, c.who, b); }
    else { PutPresent(s, t, c.who, b, c.key); }
  }

  lemma StoringRenditionsPresent(s: State, c: Choice, a: Actor)
    requires Inv(s) && Present(s) && c.Act? && c.who < |s.actors| && a == s.actors[c.who] && a.StoringRenditions?
    ensures Present(StepImage(s, c, a))
  {
    var t := StepImage(s, c, a);
    var b := t.actors[c.who];
    if c.outcome.Raise? {
      var all := {a.main} + a.stored.Values;
      assert Doomed(Purging(Upload, all, Done)) == all == ClaimOf(a).holds;
      assert Known(Purging(Upload, all, Done)).None?;
      assert Doomed(b) == all;
      GiveUpPresent(s, t, c.who, b);
    } else if a.names == {} {
      WritePresent(s, t, c.who, b, s.nextId);
    } else if c.name !in a.names || c.key in s.issued {
      assert t == s;
    } else {
      PutPresent(s, t, c.who, b, c.key);
    }
  }

  lemma StagingPresent(s: State, c: Choice, a: Actor)
    requires Inv(s) && Present(s) && c.Act? && c.who < |s.actors| && a == s.actors[c.who] && a.Staging?
    ensures Present(StepVideoUpload(s, c, a))
  {
    var t := StepVideoUpload(s, c, a);
    var b := t.actors[c.who];
    if c.outcome.Raise? || c.key in s.issued { PassPresent(s, t, c.who, b); }
    else { PutPresent(s, t, c.who, b, c.key); }
  }

  lemma RecordingFailsPresent(s: State, c: Choice, a: Actor)
    requires Inv(s) && Present(s) && c.Act? && c.who < |s.actors| && a == s.actors[c.who] && a.Recording?
    requires c.outcome.Raise?
    ensures Present(StepVideoUpload(s, c, a))
  {
    var t := StepVideoUpload(s, c, a);
    var b := t.actors[c.who];
    assert Doomed(b) == {a.raw};
    GiveUpPresent(s, t, c.who, b);
  }

  /** The INSERT of a row still `processing`: no `ready` row has its object. */
  lemma RecordingPresent(s: State, c: Choice, a: Actor)
    requires Inv(s) && Present(s) && c.Act? && c.who < |s.actors| && a == s.actors[c.who] && a.Recording?
    requires c.outcome.Ok?
    ensures Present(StepVideoUpload(s, c, a))
  {
    var t := StepVideoUpload(s, c, a);
    var b := t.actors[c.who];
    Drawn(s, c.who);
    forall i | 0 <= i < |t.actors| ensures a.raw !in Gives(t.actors[i]) { Mentioned(t.actors[i]); }
    assert Spare(t, a.raw) by {
      forall id | id in t.rows && t.rows[id].status.Ready? ensures t.rows[id].storageKey != a.raw {
        assert t.rows[id] == s.rows[id];
      }
    }
    WritePresent(s, t, c.who, b, s.nextId);
  }

  lemma EnqueuePresent(s: State, c: Choice, a: Actor)
    requires Inv(s) && Present(s) && c.Act? && c.who < |s.actors| && a == s.actors[c.who] && a.Enqueuing?
    ensures Present(StepVideoUpload(s, c, a))
  {
    var t := StepVideoUpload(s, c, a);
    if c.outcome.Raise? {
      PassPresent(s, t, c.who, t.actors[c.who]);
    } else {
      var b := WorkerLoading(a.raw, a.id, a.withPoster);
      var u := Become(s, c.who, b);
      PassPresent(s, u, c.who, b);
      assert t.actors == s.actors[c.who := Done] + [b];
      forall i | 0 <= i < |t.actors| ensures t.actors[i].Done? || t.actors[i] in u.actors {
        if i == |s.actors| { assert t.actors[i] == u.actors[c.who]; }
        else if i != c.who { assert t.actors[i] == u.actors[i]; }
      }
      forall x | x in u.actors ensures x in t.actors {
        var i :| 0 <= i < |u.actors| && u.actors[i] == x;
        assert t.actors[if i == c.who then |s.actors| else i] == x;
      }
      SameHandlers(u, t);
    }
  }

  lemma RollbackPresent(s: State, c: Choice, a: Actor)
    requires Inv(s) && Present(s) && c.Act? && c.who < |s.actors| && a == s.actors[c.who]
    requires a.Unrecording? || a.PosterUnrecording?
    ensures Present(if a.Unrecording? then StepVideoUpload(s, c, a) else StepPoster(s, c, a))
  {
    var t := if a.Unrecording? then StepVideoUpload(s, c, a) else StepPoster(s, c, a);
    assert Known(Done).None?;
    DropPresent(s, t, c.who, t.actors[c.who], if a.Unrecording? then a.id else a.poster);
  }

  lemma WorkerPresent(s: State, c: Choice, a: Actor)
    requires Inv(s) && Present(s) && c.Act? && c.who < |s.actors| && a == s.actors[c.who]
    requires a.WorkerLoading? || a.Compressing?
    ensures Present(StepWorker(s, c, a))
  {
    var t := StepWorker(s, c, a);
    var b := t.actors[c.who];
    if a.Compressing? && c.outcome.Ok? && c.key !in s.issued {
      PutPresent(s, t, c.who, b, c.key);
    } else {
      PassPresent(s, t, c.who, b);
    }
  }

  lemma MarkingFailedPresent(s: State, c: Choice, a: Actor)
    requires Inv(s) && Present(s) && c.Act? && c.who < |s.actors| && a == s.actors[c.who] && a.MarkingFailed?
    ensures Present(StepWorker(s, c, a))
  {
    var t := StepWorker(s, c, a);
    var b := t.actors[c.who];
    assert Doomed(b) == {a.raw};
    if c.outcome.Ok? && a.id in s.rows { WritePresent(s, t, c.who, b, a.id); } else { PassPresent(s, t, c.who, b); }
  }

  lemma MarkingReadyFailsPresent(s: State, c: Choice, a: Actor)
    requires Inv(s) && Present(s) && c.Act? && c.who < |s.actors| && a == s.actors[c.who] && a.MarkingReady?
    requires c.outcome.Raise? || a.id !in s.rows
    ensures Present(StepWorker(s, c, a))
  {
    var t := StepWorker(s, c, a);
    var b := t.actors[c.who];
    assert Doomed(b) == {a.out, a.raw};
    GiveUpPresent(s, t, c.who, b);
  }

  /** mark_ready gives the row an object that is there, whatever it pointed at before. */
  lemma MarkingReadyPresent(s: State, c: Choice, a: Actor)
    requires Inv(s) && Present(s) && c.Act? && c.who < |s.actors| && a == s.actors[c.who] && a.MarkingReady?
    requires c.outcome.Ok? && a.id in s.rows
    ensures Present(StepWorker(s, c, a))
  {
    var t := StepWorker(s, c, a);
    var b := t.actors[c.who];
    assert Doomed(b) <= {a.raw};
    WritePresent(s, t, c.who, b, a.id);
  }

  lemma PosterPresent(s: State, c: Choice, a: Actor)
    requires Inv(s) && Present(s) && c.Act? && c.who < |s.actors| && a == s.actors[c.who]
    requires a.PosterLoading? || a.PosterStoring?
    ensures Present(StepPoster(s, c, a))
  {
    var t := StepPoster(s, c, a);
    var b := t.actors[c.who];
    if a.PosterStoring? && c.outcome.Ok? && c.key !in s.issued {
      assert b == PosterRecording(a.video, a.meta, c.key, a.owes);
      PutPresent(s, t, c.who, b, c.key);
    } else {
      assert t == Become(s, c.who, b);
      PassPresent(s, t, c.who, b);
    }
  }

  lemma PosterRecordingFailsPresent(s: State, c: Choice, a: Actor)
    requires Inv(s) && Present(s) && c.Act? && c.who < |s.actors| && a == s.actors[c.who] && a.PosterRecording?
    requires c.outcome.Raise?
    ensures Present(StepPoster(s, c, a))
  {
    var t := StepPoster(s, c, a);
    var b := t.actors[c.who];
    assert Doomed(b) == a.owes + {a.image};
    GiveUpPresent(s, t, c.who, b);
  }

  /** The INSERT of a poster row: only that row has its image. */
  lemma PosterRecordingPresent(s: State, c: Choice, a: Actor)
    requires Inv(s) && Present(s) && c.Act? && c.who < |s.actors| && a == s.actors[c.who] && a.PosterRecording?
    requires c.outcome.Ok?
    ensures Present(StepPoster(s, c, a))
  {
    var t := StepPoster(s, c, a);
    var b := t.actors[c.who];
    Drawn(s, c.who);
    forall i | 0 <= i < |t.actors| ensures a.image !in Gives(t.actors[i]) { Mentioned(t.actors[i]); }
    assert Apart(t, s.nextId, a.image);
    WritePresent(s, t, c.who, b, s.nextId);
  }

  lemma LinkPresent(s: State, c: Choice, a: Actor)
    requires Inv(s) && Present(s) && c.Act? && c.who < |s.actors| && a == s.actors[c.who]
    requires a.Linking? || a.Reloading?
    requires c.outcome.Ok? && a.video in s.rows
    ensures Present(StepPoster(s, c, a))
  {
    var t := StepPoster(s, c, a);
    if a.Linking? {
      var b := Reloading(a.video, a.poster, a.image, a.owes);
      assert t.actors == s.actors[c.who := b];
      WritePresent(s, t, c.who, b, a.video);
    } else {
      var b := Purging(Poster, a.owes, Done);
      assert t == Become(s, c.who, b);
      PassPresent(s, t, c.who, b);
    }
  }

  /** The image goes first, then the row it was made for. */
  lemma LinkFailsPresent(s: State, c: Choice, a: Actor)
    requires Inv(s) && Present(s) && c.Act? && c.who < |s.actors| && a == s.actors[c.who]
    requires a.Linking? || a.Reloading?
    requires c.outcome.Raise? || a.video !in s.rows
    ensures Present(StepPoster(s, c, a))
  {
    var t := StepPoster(s, c, a);
    var undo := PosterUnrecording(a.poster, a.image, a.owes);
    var b := Purging(Poster, {a.image}, undo);
    assert t == Become(s, c.who, b);
    assert Drops(undo).Some? && Known(undo).None?;
    PassPresent(s, t, c.who, b);
  }

  lemma DeleteLoadPresent(s: State, c: Choice, a: Actor)
    requires Inv(s) && Present(s) && c.Act? && c.who < |s.actors| && a == s.actors[c.who] && a.DeleteLoading?
    ensures Present(StepDelete(s, c, a))
  {
    if c.outcome.Raise? || a.id !in s.rows {
      PassPresent(s, Become(s, c.who, Done), c.who, Done);
    } else {
      var b := DeletingMain(a.id, s.rows[a.id]);
      LoadPresent(s, Become(s, c.who, b), c.who, b, a.id);
    }
  }

  lemma CascadeLoadPresent(s: State, c: Choice, a: Actor)
    requires Inv(s) && Present(s) && c.Act? && c.who < |s.actors| && a == s.actors[c.who] && a.CascadeLoading?
    ensures Present(StepDelete(s, c, a))
  {
    if c.outcome.Raise? || a.poster !in s.rows {
      PassPresent(s, Become(s, c.who, Done), c.who, Done);
    } else {
      var next := Dropping(a.poster, s.rows[a.poster], false);
      assert Bare(next) && Drops(next) == Some(a.poster);
      var b := Purging(Delete, KeysOf(s.rows[a.poster]), next);
      LoadPresent(s, Become(s, c.who, b), c.who, b, a.poster);
    }
  }

  /** DELETE takes the objects of the row it goes on to drop. */
  lemma DeletingPresent(s: State, c: Choice, a: Actor)
    requires Inv(s) && Present(s) && c.Act? && c.who < |s.actors| && a == s.actors[c.who] && a.DeletingMain?
    ensures Present(StepDelete(s, c, a))
  {
    var t := StepDelete(s, c, a);
    var b := t.actors[c.who];
    if c.outcome.Raise? { PassPresent(s, t, c.who, b); }
    else {
      var next := Dropping(a.id, a.loaded, true);
      assert Drops(next) == Some(a.id) && Known(next).None? && Doomed(next) == {};
      TakePresent(s, t, c.who, b, a.loaded.storageKey);
    }
  }

  lemma DroppingPresent(s: State, c: Choice, a: Actor)
    requires Inv(s) && Present(s) && c.Act? && c.who < |s.actors| && a == s.actors[c.who] && a.Dropping?
    ensures Present(StepDelete(s, c, a))
  {
    var t := StepDelete(s, c, a);
    DropPresent(s, t, c.who, t.actors[c.who], a.id);
  }

  lemma PatchLoadPresent(s: State, c: Choice, a: Actor)
    requires Inv(s) && Present(s) && c.Act? && c.who < |s.actors| && a == s.actors[c.who] && a.PatchLoading?
    ensures Present(StepPatch(s, c, a))
  {
    var t := StepPatch(s, c, a);
    var b := t.actors[c.who];
    assert t == Become(s, c.who, b);
    if b.Done? { PassPresent(s, t, c.who, b); }
    else {
      assert a.id in s.rows && (b.Copying? || b.Repointing?) && b.id == a.id && b.loaded == s.rows[a.id];
      LoadPresent(s, t, c.who, b, a.id);
    }
  }

  lemma CopyingPresent(s: State, c: Choice, a: Actor)
    requires Inv(s) && Present(s) && c.Act? && c.who < |s.actors| && a == s.actors[c.who] && a.Copying?
    requires c.outcome.Raise? || a.loaded.storageKey !in s.objects
    ensures Present(StepPatch(s, c, a))
  {
    var t := StepPatch(s, c, a);
    var b := t.actors[c.who];
    assert b.Done? || b == Repointing(a.id, a.visibility, a.loaded, None, map[], a.cascade);
    PassPresent(s, t, c.who, b);
  }

  lemma MainCopiedPresent(s: State, c: Choice, a: Actor)
    requires Inv(s) && Present(s) && c.Act? && c.who < |s.actors| && a == s.actors[c.who] && a.Copying?
    requires c.outcome.Ok? && a.loaded.storageKey in s.objects
    ensures Present(StepPatch(s, c, a))
  {
    if c.key !in s.issued {
      var b := CopyingRenditions(a.id, a.visibility, a.loaded, c.key, map[], a.loaded.renditions.Keys, a.cascade);
      var t := Become(PutCopy(s, c.key), c.who, b);
      assert StepPatch(s, c, a) == t;
      PutPresent(s, t, c.who, b, c.key);
    }
  }

  lemma CopyingRenditionsPresent(s: State, c: Choice, a: Actor)
    requires Inv(s) && Present(s) && c.Act? && c.who < |s.actors| && a == s.actors[c.who] && a.CopyingRenditions?
    requires a.names == {} || (c.outcome.Ok? && !Copies(s, c, a))
    ensures Present(StepPatch(s, c, a))
  {
    var t := StepPatch(s, c, a);
    var b := t.actors[c.who];
    assert t == Become(s, c.who, b);
    assert Gives(b) == Gives(a) && Doomed(b) == {} && Known(b) == Known(a);
    PassPresent(s, t, c.who, b);
  }

  /** This call makes a copy. */
  ghost predicate Copies(s: State, c: Choice, a: Actor)
    requires c.Act? && a.CopyingRenditions?
  {
    c.name in a.names && c.name in a.loaded.renditions && a.loaded.renditions[c.name] in s.objects && c.key !in s.issued
  }

  lemma RenditionCopiedPresent(s: State, c: Choice, a: Actor)
    requires Inv(s) && Present(s) && c.Act? && c.who < |s.actors| && a == s.actors[c.who] && a.CopyingRenditions?
    requires c.outcome.Ok? && Copies(s, c, a)
    ensures Present(StepPatch(s, c, a))
  {
    var b := CopyingRenditions(a.id, a.visibility, a.loaded, a.main, a.copied[c.name := c.key], a.names - {c.name},
                               a.cascade);
    var t := Become(PutCopy(s, c.key), c.who, b);
    assert StepPatch(s, c, a) == t;
    PutPresent(s, t, c.who, b, c.key);
  }

  lemma CopyFailsPresent(s: State, c: Choice, a: Actor)
    requires Inv(s) && Present(s) && c.Act? && c.who < |s.actors| && a == s.actors[c.who] && a.CopyingRenditions?
    requires a.names != {} && c.outcome.Raise?
    ensures Present(StepPatch(s, c, a))
  {
    var t := StepPatch(s, c, a);
    var b := t.actors[c.who];
    assert Doomed(b) == {a.main} + a.copied.Values == ClaimOf(a).holds;
    GiveUpPresent(s, t, c.who, b);
  }

  /** A PATCH that cannot re-point its row deletes its copies ... */
  lemma RepointFailsPresent(s: State, c: Choice, a: Actor)
    requires Inv(s) && Present(s) && c.Act? && c.who < |s.actors| && a == s.actors[c.who] && a.Repointing?
    requires c.outcome.Raise? || a.id !in s.rows
    ensures Present(StepPatch(s, c, a))
  {
    var t := StepPatch(s, c, a);
    var b := t.actors[c.who];
    assert Doomed(b) == ClaimOf(a).holds;
    GiveUpPresent(s, t, c.who, b);
  }

  lemma ReflagPresent(s: State, c: Choice, a: Actor)
    requires Inv(s) && Present(s) && c.Act? && c.who < |s.actors| && a == s.actors[c.who] && a.Repointing?
    requires c.outcome.Ok? && a.id in s.rows && a.adopt.None?
    ensures Present(StepPatch(s, c, a))
  {
    var t := StepPatch(s, c, a);
    WritePresent(s, t, c.who, t.actors[c.who], a.id);
  }

  /** ... and one that does deletes the keys it had loaded, which by now are no row's. */
  lemma RepointPresent(s: State, c: Choice, a: Actor)
    requires Inv(s) && Present(s) && c.Act? && c.who < |s.actors| && a == s.actors[c.who] && a.Repointing?
    requires c.outcome.Ok? && a.id in s.rows && a.adopt.Some?
    ensures Present(StepPatch(s, c, a))
  {
    var next := AdoptingStep(s, c, a);
    AdoptedPresent(s, StepPatch(s, c, a), c.who, Purging(Patch, KeysOf(a.loaded), next));
  }

  lemma AdoptedPresent(s: State, t: State, who: nat, b: Actor)
    requires Inv(s) && Present(s) && who < |s.actors| && t.actors == s.actors[who := b]
    requires s.actors[who].Repointing? && s.actors[who].adopt.Some?
    requires var a := s.actors[who];
             && a.id in t.rows && t.rows == s.rows[a.id := t.rows[a.id]] && t.rows[a.id].storageKey == a.adopt.value
             && b.Purging? && b.todo == KeysOf(a.loaded) && (b.next.Done? || b.next.PatchLoading?)
    requires t.objects == s.objects && t.undropped == s.undropped
    ensures Present(t)
  {
    assert Bare(b.next) && Drops(b.next).None?;
    LoadedIsSpare(s, t, who, b);
    WritePresent(s, t, who, b, s.actors[who].id);
  }

  lemma LoadedIsSpare(s: State, t: State, who: nat, b: Actor)
    requires Present(s) && who < |s.actors| && t.actors == s.actors[who := b] && Gives(b) == {}
    requires s.actors[who].Repointing? && s.actors[who].adopt.Some?
    requires var a := s.actors[who];
             a.id in t.rows && t.rows == s.rows[a.id := t.rows[a.id]] && t.rows[a.id].storageKey == a.adopt.value
    ensures forall k :: k in KeysOf(s.actors[who].loaded) ==> Spare(t, k)
  {
    var a := s.actors[who];
    assert Harmless(s, a) && Known(a) == Some((a.id, KeysOf(a.loaded))) && a.adopt.value in Gives(a);
    forall k | k in KeysOf(a.loaded) ensures Spare(t, k) { assert Apart(s, a.id, k); }
  }

  lemma PurgePresent(s: State, c: Choice, a: Actor)
    requires Inv(s) && Present(s) && c.Act? && c.who < |s.actors| && a == s.actors[c.who] && a.Purging?
    ensures Present(StepPurge(s, c, a))
  {
    var t := StepPurge(s, c, a);
    var b := t.actors[c.who];
    assert WellFormed(a) && Harmless(s, a);
    if a.todo == {} {
      Mentioned(a.next);
      assert Gives(b) == {} && Doomed(b) == Doomed(a) && Drops(b) == Drops(a);
      PassPresent(s, t, c.who, b);
    } else if c.key in a.todo {
      assert b == Purging(a.handler, a.todo - {c.key}, a.next);
      if c.outcome.Ok? { TakePresent(s, t, c.who, b, c.key); } else { LessToDo(s, t, c.who, b); }
    }
  }

  lemma LessToDo(s: State, t: State, who: nat, b: Actor)
    requires Inv(s) && Present(s) && who < |s.actors| && t.actors == s.actors[who := b]
    requires t.objects == s.objects && t.undropped == s.undropped && t.rows == s.rows
    requires s.actors[who].Purging? && b.Purging? && b.next == s.actors[who].next && b.todo <= s.actors[who].todo
    ensures Present(t)
  {
    var a := s.actors[who];
    assert Harmless(s, a);
    if Known(b).Some? && Drops(b).Some? {
      forall k | k in Known(b).value.1 ensures Apart(t, Known(b).value.0, k) {
        assert Apart(s, Known(a).value.0, k);
      }
    }
    FitsKeepsPresent(s, t, who, b);
  }

  lemma PatchPresent(s: State, c: Choice, a: Actor)
    requires Inv(s) && Present(s) && c.Act? && c.who < |s.actors| && a == s.actors[c.who]
    requires a.PatchLoading? || a.Copying? || a.CopyingRenditions? || a.Repointing?
    ensures Present(StepPatch(s, c, a))
  {
    if a.PatchLoading? { PatchLoadPresent(s, c, a); }
    else if a.Copying? && (c.outcome.Raise? || a.loaded.storageKey !in s.objects) { CopyingPresent(s, c, a); }
    else if a.Copying? { MainCopiedPresent(s, c, a); }
    else if a.CopyingRenditions? && a.names != {} && c.outcome.Raise? { CopyFailsPresent(s, c, a); }
    else if a.CopyingRenditions? && a.names != {} && Copies(s, c, a) { RenditionCopiedPresent(s, c, a); }
    else if a.CopyingRenditions? { CopyingRenditionsPresent(s, c, a); }
    else if c.outcome.Raise? || a.id !in s.rows { RepointFailsPresent(s, c, a); }
    else if a.adopt.None? { ReflagPresent(s, c, a); }
    else { RepointPresent(s, c, a); }
  }

  lemma StepKeepsPresent(s: State, c: Choice)
    requires Inv(s) && Present(s)
    ensures Present(Step(s, c))
  {
    match c
    case Start(a) =>
      if Arrival(a) {
        assert Bare(a);
        SameHandlers(s, Step(s, c));
      }
    case Act(who, _, _, _, _) =>
      if who < |s.actors| {
        var a := s.actors[who];
        if a.Storing? { StoringPresent(s, c, a); }
        else if a.StoringRenditions? { StoringRenditionsPresent(s, c, a); }
        else if a.Staging? { StagingPresent(s, c, a); }
        else if a.Recording? && c.outcome.Ok? { RecordingPresent(s, c, a); }
        else if a.Recording? { RecordingFailsPresent(s, c, a); }
        else if a.Enqueuing? { EnqueuePresent(s, c, a); }
        else if a.Unrecording? || a.PosterUnrecording? { RollbackPresent(s, c, a); }
        else if a.WorkerLoading? || a.Compressing? { WorkerPresent(s, c, a); }
        else if a.MarkingFailed? { MarkingFailedPresent(s, c, a); }
        else if a.MarkingReady? && c.outcome.Ok? && a.id in s.rows { MarkingReadyPresent(s, c, a); }
        else if a.MarkingReady? { MarkingReadyFailsPresent(s, c, a); }
        else if a.PosterLoading? || a.PosterStoring? { PosterPresent(s, c, a); }
        else if a.PosterRecording? && c.outcome.Ok? { PosterRecordingPresent(s, c, a); }
        else if a.PosterRecording? { PosterRecordingFailsPresent(s, c, a); }
        else if (a.Linking? || a.Reloading?) && c.outcome.Ok? && a.video in s.rows { LinkPresent(s, c, a); }
        else if a.Linking? || a.Reloading? { LinkFailsPresent(s, c, a); }
        else if a.Dropping? { DroppingPresent(s, c, a); }
        else if a.DeletingMain? { DeletingPresent(s, c, a); }
        else if a.DeleteLoading? { DeleteLoadPresent(s, c, a); }
        else if a.CascadeLoading? { CascadeLoadPresent(s, c, a); }
        else if a.Purging? { PurgePresent(s, c, a); }
        else if !a.Done? { PatchPresent(s, c, a); }
      }
  }

  lemma {:induction false} RunsArePresent(schedule: seq<Choice>)
    ensures Inv(Run(schedule)) && Present(Run(schedule))
  {
    if schedule != [] {
      RunsArePresent(schedule[..|schedule| - 1]);
      StepKeepsInv(Run(schedule[..|schedule| - 1]), schedule[|schedule| - 1]);
      StepKeepsPresent(Run(schedule[..|schedule| - 1]), schedule[|schedule| - 1]);
    }
  }
}
