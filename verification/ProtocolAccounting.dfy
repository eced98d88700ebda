/** Nothing is ever silently orphaned: in every reachable state each stored object is
    accounted for, whatever the interleaving and whatever fails. */
module ProtocolAccounting {
  import opened Records
  import opened Protocol

  // ----- What a handler in flight is answerable for ---------------------------

  /** `holds`: fresh objects it has written and no row points at yet.  `owes`: keys it
      still has to record in a row or to delete.  `settled`: keys it has tried to
      delete and counts on being gone.  `mentions`: every key it knows. */
  datatype Claim = Claim(holds: set<Key>, owes: set<Key>, settled: set<Key>, mentions: set<Key>)

  ghost function Idle(known: set<Key>): Claim {
    Claim({}, {}, {}, known)
  }

  ghost function ClaimOf(a: Actor): Claim {
    match a
    case StoringRenditions(_, main, stored, _, _) => var all := {main} + stored.Values; Claim(all, all, {}, all)
    case Recording(_, raw, _) => Claim({raw}, {raw}, {}, {raw})
    case Enqueuing(raw, _, _) => Idle({raw})
    case Unrecording(raw, _) => Claim({}, {raw}, {}, {raw})
    case WorkerLoading(raw, _, _) => Idle({raw})
    case Compressing(raw, _, _) => Claim({}, {raw}, {}, {raw})
    case MarkingReady(raw, _, _, out) => Claim({out}, {raw, out}, {}, {raw, out})
    case MarkingFailed(raw, _) => Claim({}, {raw}, {}, {raw})
    case PosterStoring(_, _, owes) => Claim({}, owes, {}, owes)
    case PosterRecording(_, _, image, owes) => Claim({image}, owes + {image}, {}, owes + {image})
    case Linking(_, _, image, owes) => Claim({}, owes, {}, owes + {image})
    case Reloading(_, _, image, owes) => Claim({}, owes, {}, owes + {image})
    case PosterUnrecording(_, image, owes) => Claim({}, owes, {image}, owes + {image})
    case DeletingMain(_, loaded) => Idle(KeysOf(loaded))
    case Dropping(_, loaded, _) => Claim({}, {}, KeysOf(loaded), KeysOf(loaded))
    case Copying(_, _, loaded, _) => Idle(KeysOf(loaded))
    case CopyingRenditions(_, _, loaded, main, copied, _, _) =>
      var all := {main} + copied.Values;
      Claim(all, all, {}, all + KeysOf(loaded))
    case Repointing(_, _, loaded, adopt, copied, _) =>
      var all := if adopt.Some? then {adopt.value} + copied.Values else {};
      Claim(all, all, {}, all + KeysOf(loaded))
    case Purging(_, todo, next) =>
      var c := ClaimOf(next);
      Claim({}, todo + c.owes, c.settled - todo, todo + c.mentions)
    case _ => Idle({})
  }

  /** The bookkeeping of a loop over a dictionary, and of what may follow a clean-up. */
  ghost predicate WellFormed(a: Actor) {
    match a
    case StoringRenditions(_, _, stored, names, _) => stored.Keys !! names
    case CopyingRenditions(_, _, loaded, _, copied, names, _) =>
      copied.Keys !! names && copied.Keys + names <= loaded.renditions.Keys
    case Repointing(_, _, loaded, _, copied, _) => copied.Keys <= loaded.renditions.Keys
    case Purging(_, _, next) => WellFormed(next) && ClaimOf(next).holds == {}
    case _ => true
  }

  // ----- The ledger: the protocol state with handlers reduced to their claims --

  datatype Ledger = Ledger(objects: set<Key>, rows: map<Id, set<Key>>, nextId: Id, claims: seq<Claim>,
                           issued: set<Key>, undeleted: set<Key>, lost: set<Key>)

  ghost function LedgerOf(s: State): Ledger {
    Ledger(s.objects, map id | id in s.rows :: KeysOf(s.rows[id]), s.nextId,
           seq(|s.actors|, i requires 0 <= i < |s.actors| => ClaimOf(s.actors[i])),
           s.issued, s.undeleted, s.losses.Keys)
  }

  ghost predicate Referenced(l: Ledger, k: Key) {
    exists id :: id in l.rows && k in l.rows[id]
  }

  ghost predicate Owed(l: Ledger, k: Key) {
    exists i :: 0 <= i < |l.claims| && k in l.claims[i].owes
  }

  /** The accounting of one object: some row points at it, a handler in flight still
      has to record or delete it, its own delete call raised, or a stale write lost it. */
  ghost predicate Accounted(l: Ledger, k: Key) {
    Referenced(l, k) || Owed(l, k) || k in l.undeleted || k in l.lost
  }

  ghost predicate Whole(c: Claim) {
    c.holds <= c.owes <= c.mentions && c.settled <= c.mentions
  }

  ghost predicate Bounded(l: Ledger) {
    && l.objects <= l.issued
    && (forall id :: id in l.rows ==> id < l.nextId && l.rows[id] <= l.issued)
    && (forall i :: 0 <= i < |l.claims| ==> Whole(l.claims[i]) && l.claims[i].mentions <= l.issued)
  }

  /** No two rows share an object; a held object belongs to one handler and to no row. */
  ghost predicate Exclusive(l: Ledger) {
    && (forall i, j :: i in l.rows && j in l.rows && i != j ==> l.rows[i] !! l.rows[j])
    && (forall i, id :: 0 <= i < |l.claims| && id in l.rows ==> l.claims[i].holds !! l.rows[id])
    && (forall i, j :: 0 <= i < |l.claims| && 0 <= j < |l.claims| && i != j ==> l.claims[i].holds !! l.claims[j].holds)
  }

  ghost predicate SettledGone(l: Ledger) {
    forall i, k :: 0 <= i < |l.claims| && k in l.claims[i].settled && k in l.objects ==> k in l.undeleted
  }

  /** What a stale write lost stays lost: no row points at it and no handler holds it. */
  ghost predicate LostForGood(l: Ledger) {
    forall k :: k in l.lost ==>
      && k in l.issued && !Referenced(l, k)
      && forall i :: 0 <= i < |l.claims| ==> k !in l.claims[i].holds
  }

  ghost predicate Sound(l: Ledger) {
    && Bounded(l) && Exclusive(l) && SettledGone(l) && LostForGood(l)
    && forall k :: k in l.objects ==> Accounted(l, k)
  }

  /** A move that turns one handler's claim from `c` into `d` and touches at most row
      `at`, seen from that handler. */
  ghost predicate Move(l: Ledger, m: Ledger, c: Claim, d: Claim, at: Id) {
    && l.issued <= m.issued && l.undeleted <= m.undeleted && l.lost <= m.lost && l.nextId <= m.nextId
    && m.issued - l.issued <= d.holds
    && m.objects <= l.objects + (m.issued - l.issued)
    && (forall id :: id != at ==> (id in m.rows <==> id in l.rows) && (id in m.rows ==> m.rows[id] == l.rows[id]))
    && (at in m.rows ==> at < m.nextId)
    && Whole(d) && d.mentions <= m.issued
    && d.holds <= c.holds + (m.issued - l.issued)
    && (at in m.rows ==> m.rows[at] <= (if at in l.rows then l.rows[at] else {}) + (c.holds - d.holds))
    && (forall k :: k in m.lost && k !in l.lost ==>
          at in l.rows && k in l.rows[at] && !(at in m.rows && k in m.rows[at]))
    && (forall k :: k in d.settled && k in m.objects ==> k in m.undeleted)
    && (forall k :: k in m.objects && (k in c.owes || (at in l.rows && k in l.rows[at])) ==>
          k in d.owes || (at in m.rows && k in m.rows[at]) || k in m.undeleted || k in m.lost)
  }

  lemma LossesStay(l: Ledger, m: Ledger, who: nat, d: Claim, at: Id)
    requires Sound(l) && who < |l.claims| && m.claims == l.claims[who := d]
    requires Move(l, m, l.claims[who], d, at)
    ensures LostForGood(m)
  {
    forall k | k in m.lost
      ensures k in m.issued && !Referenced(m, k) && forall i :: 0 <= i < |m.claims| ==> k !in m.claims[i].holds
    {
      if k in l.lost {
        forall id | id in m.rows ensures k !in m.rows[id] { assert id in l.rows ==> k !in l.rows[id]; }
      } else {
        assert at in l.rows && k in l.rows[at];
        forall id | id in m.rows ensures k !in m.rows[id] {}
      }
    }
  }

  lemma MoveKeepsSound(l: Ledger, m: Ledger, who: nat, d: Claim, at: Id)
    requires Sound(l) && who < |l.claims| && m.claims == l.claims[who := d]
    requires Move(l, m, l.claims[who], d, at)
    ensures Sound(m)
  {
    LossesStay(l, m, who, d, at);
    forall k | k in m.objects ensures Accounted(m, k) {
      if k in d.owes {
        assert k in m.claims[who].owes;
      } else if k in l.objects {
        if Referenced(l, k) {
          var id :| id in l.rows && k in l.rows[id];
          if id != at { assert id in m.rows && k in m.rows[id]; }
        } else if Owed(l, k) {
          var i :| 0 <= i < |l.claims| && k in l.claims[i].owes;
          if i != who { assert k in m.claims[i].owes; }
        }
      }
    }
  }

  // ----- Every call of every handler is such a move ---------------------------

  ghost predicate Inv(s: State) {
    && Sound(LedgerOf(s))
    && forall i :: 0 <= i < |s.actors| ==> WellFormed(s.actors[i])
  }

  lemma {:induction a} ClaimIsWhole(a: Actor)
    ensures Whole(ClaimOf(a))
  {
  }

  /** A last clean-up owes just its keys. */
  lemma LastClaim(h: Handler, todo: set<Key>, next: Actor)
    requires next.Done? || next.PatchLoading?
    ensures ClaimOf(Purging(h, todo, next)) == Claim({}, todo, {}, todo) && WellFormed(Purging(h, todo, next))
  {
    assert ClaimOf(next) == Idle({});
  }

  /** What the invariant says about one handler and one row. */
  lemma Local(s: State, who: nat, at: Id)
    requires Inv(s) && who < |s.actors|
    ensures var c := ClaimOf(s.actors[who]);
            && Whole(c) && WellFormed(s.actors[who]) && c.mentions <= s.issued && s.objects <= s.issued
            && (forall k :: k in c.settled && k in s.objects ==> k in s.undeleted)
            && (at in s.rows ==> at < s.nextId && KeysOf(s.rows[at]) <= s.issued)
  {
    var l := LedgerOf(s);
    assert l.claims[who] == ClaimOf(s.actors[who]);
    if at in s.rows { assert l.rows[at] == KeysOf(s.rows[at]); }
  }

  lemma MoveKeepsInv(s: State, t: State, who: nat, b: Actor, at: Id)
    requires Inv(s) && who < |s.actors| && t.actors == s.actors[who := b] && WellFormed(b)
    requires Move(LedgerOf(s), LedgerOf(t), ClaimOf(s.actors[who]), ClaimOf(b), at)
    ensures Inv(t)
  {
    assert LedgerOf(t).claims == LedgerOf(s).claims[who := ClaimOf(b)];
    MoveKeepsSound(LedgerOf(s), LedgerOf(t), who, ClaimOf(b), at);
  }

  // ----- The six effects a call can have ---------------------------------------

  /** A successful upload or copy to a fresh key: the handler now holds one object more. */
  lemma PutKeepsInv(s: State, who: nat, b: Actor, k: Key)
    requires Inv(s) && who < |s.actors| && WellFormed(b) && k !in s.issued
    requires var c, d := ClaimOf(s.actors[who]), ClaimOf(b);
             && d.holds == c.holds + {k} && c.owes + {k} <= d.owes
             && d.settled == {} && d.mentions <= c.mentions + {k}
    ensures Inv(Become(Put(s, k), who, b))
  {
    ClaimIsWhole(b);
    Local(s, who, s.nextId);
    MoveKeepsInv(s, Become(Put(s, k), who, b), who, b, s.nextId);
  }

  lemma CopyKeepsInv(s: State, who: nat, b: Actor, k: Key)
    requires Inv(s) && who < |s.actors| && WellFormed(b) && k !in s.issued
    requires var c, d := ClaimOf(s.actors[who]), ClaimOf(b);
             && d.holds == c.holds + {k} && c.owes + {k} <= d.owes
             && d.settled == {} && d.mentions <= c.mentions + {k}
    ensures Inv(Become(PutCopy(s, k), who, b))
  {
    PutKeepsInv(s, who, b, k);
    var t := Become(Put(s, k), who, b);
    assert LedgerOf(t.(copies := s.copies + {k})) == LedgerOf(t);
  }

  /** A call that changes neither store: nothing the handler owed may be forgotten. */
  lemma PassKeepsInv(s: State, who: nat, b: Actor)
    requires Inv(s) && who < |s.actors| && WellFormed(b)
    requires var c, d := ClaimOf(s.actors[who]), ClaimOf(b);
             && d.holds <= c.holds && c.owes <= d.owes && d.settled <= c.settled
             && d.mentions <= s.issued
    ensures Inv(Become(s, who, b))
  {
    ClaimIsWhole(b);
    Local(s, who, s.nextId);
    MoveKeepsInv(s, Become(s, who, b), who, b, s.nextId);
  }

  /** A DELETE statement that raises. */
  lemma KeepRowKeepsInv(s: State, who: nat, b: Actor, id: Id)
    requires Inv(s) && who < |s.actors| && WellFormed(b)
    requires var c, d := ClaimOf(s.actors[who]), ClaimOf(b);
             && d.holds <= c.holds && c.owes <= d.owes && d.settled <= c.settled
             && d.mentions <= s.issued
    ensures Inv(Become(KeepRow(s, id), who, b))
  {
    PassKeepsInv(s, who, b);
    assert LedgerOf(Become(KeepRow(s, id), who, b)) == LedgerOf(Become(s, who, b));
  }

  /** A delete call on `k`, whichever way it ends. */
  lemma RemoveKeepsInv(s: State, who: nat, b: Actor, k: Key, o: Outcome)
    requires Inv(s) && who < |s.actors| && WellFormed(b)
    requires var c, d := ClaimOf(s.actors[who]), ClaimOf(b);
             && d.holds <= c.holds && c.owes <= d.owes + {k} && d.settled <= c.settled + {k}
             && d.mentions <= s.issued
    ensures Inv(Become(Remove(s, k, o), who, b))
  {
    ClaimIsWhole(b);
    Local(s, who, s.nextId);
    MoveKeepsInv(s, Become(Remove(s, k, o), who, b), who, b, s.nextId);
  }

  /** INSERT of a row that points at objects the handler holds. */
  lemma InsertKeepsInv(s: State, who: nat, b: Actor, row: Row)
    requires Inv(s) && who < |s.actors| && WellFormed(b)
    requires var c, d := ClaimOf(s.actors[who]), ClaimOf(b);
             && KeysOf(row) <= c.holds && d.holds <= c.holds - KeysOf(row)
             && c.owes <= d.owes + KeysOf(row) && d.settled == {} && d.mentions <= s.issued
    ensures Inv(Become(Insert(s, row), who, b))
  {
    ClaimIsWhole(b);
    Local(s, who, s.nextId);
    MoveKeepsInv(s, Become(Insert(s, row), who, b), who, b, s.nextId);
  }

  /** UPDATE that re-points row `id`, by a writer that goes on to delete what it knew. */
  lemma ReplaceKeepsInv(s: State, who: nat, b: Actor, id: Id, row: Row, known: set<Key>, cause: Cause)
    requires Inv(s) && who < |s.actors| && WellFormed(b) && id in s.rows
    requires var c, d := ClaimOf(s.actors[who]), ClaimOf(b);
             && d.holds <= c.holds && KeysOf(row) <= KeysOf(s.rows[id]) + (c.holds - d.holds)
             && c.owes <= d.owes + KeysOf(row) && known <= d.owes && d.settled == {} && d.mentions <= s.issued
    ensures Inv(Become(Replace(s, id, row, known, cause), who, b))
  {
    ClaimIsWhole(b);
    Local(s, who, id);
    var t := Become(Replace(s, id, row, known, cause), who, b);
    assert LedgerOf(t).rows == LedgerOf(s).rows[id := KeysOf(row)];
    MoveKeepsInv(s, t, who, b, id);
  }

  /** UPDATE of other columns of row `id`. */
  lemma TouchKeepsInv(s: State, who: nat, b: Actor, id: Id, row: Row)
    requires Inv(s) && who < |s.actors| && WellFormed(b) && id in s.rows && KeysOf(row) == KeysOf(s.rows[id])
    requires var c, d := ClaimOf(s.actors[who]), ClaimOf(b);
             && d.holds <= c.holds && c.owes <= d.owes && d.settled == {} && d.mentions <= s.issued
    ensures Inv(Become(s.(rows := s.rows[id := row]), who, b))
  {
    ClaimIsWhole(b);
    Local(s, who, id);
    var t := Become(s.(rows := s.rows[id := row]), who, b);
    assert LedgerOf(t).rows == LedgerOf(s).rows;
    MoveKeepsInv(s, t, who, b, id);
  }

  lemma DropLedger(s: State, t: State, id: Id, known: set<Key>, cause: Cause)
    requires id in s.rows && t == Drop(s, id, known, cause).(actors := t.actors)
    ensures var l, m := LedgerOf(s), LedgerOf(t);
            && id in l.rows && m.rows == l.rows - {id} && m.lost == l.lost + (l.rows[id] - known)
            && m.issued == l.issued && m.undeleted == l.undeleted && m.nextId == l.nextId && m.objects == l.objects
  {
  }

  lemma DropIsMove(l: Ledger, m: Ledger, c: Claim, d: Claim, id: Id, known: set<Key>)
    requires id in l.rows && id < l.nextId && l.objects <= l.issued && Whole(c) && Whole(d) && d.mentions <= l.issued
    requires m.rows == l.rows - {id} && m.lost == l.lost + (l.rows[id] - known)
    requires m.issued == l.issued && m.undeleted == l.undeleted && m.nextId == l.nextId && m.objects == l.objects
    requires d.holds <= c.holds && known <= d.owes + c.settled && c.owes <= d.owes && d.settled <= c.settled
    requires forall k :: k in c.settled && k in l.objects ==> k in l.undeleted
    ensures Move(l, m, c, d, id)
  {
  }

  /** DELETE of row `id` by a writer that has dealt with, or still owes, what it knew. */
  lemma DropKeepsInv(s: State, who: nat, b: Actor, id: Id, known: set<Key>, cause: Cause)
    requires Inv(s) && who < |s.actors| && WellFormed(b)
    requires var c, d := ClaimOf(s.actors[who]), ClaimOf(b);
             && d.holds <= c.holds && known <= d.owes + c.settled && c.owes <= d.owes
             && d.settled <= c.settled && d.mentions <= s.issued
    ensures Inv(Become(Drop(s, id, known, cause), who, b))
  {
    ClaimIsWhole(b);
    Local(s, who, id);
    if id !in s.rows { PassKeepsInv(s, who, b); }
    else {
      var t := Become(Drop(s, id, known, cause), who, b);
      DropLedger(s, t, id, known, cause);
      DropIsMove(LedgerOf(s), LedgerOf(t), ClaimOf(s.actors[who]), ClaimOf(b), id, known);
      MoveKeepsInv(s, t, who, b, id);
    }
  }

  // ----- Every call has one of them ---------------------------------------------

  lemma ImageKeepsInv(s: State, c: Choice, a: Actor)
    requires Inv(s) && c.Act? && c.who < |s.actors| && a == s.actors[c.who] && (a.Storing? || a.StoringRenditions?)
    ensures Inv(StepImage(s, c, a))
  {
    Local(s, c.who, 0);
    match a
    case Storing(meta, names, twice) =>
      if c.outcome.Raise? { PassKeepsInv(s, c.who, Done); }
      else if c.key !in s.issued {
        var none: map<string, Key> := map[];
        assert none.Values == {};
        PutKeepsInv(s, c.who, StoringRenditions(meta, c.key, map[], names, twice), c.key);
      }
    case StoringRenditions(meta, main, stored, names, twice) =>
      var all := {main} + stored.Values;
      var undo := Purging(Upload, all, Done);
      assert ClaimOf(undo) == Claim({}, all, {}, all);
      if names != {} {
        if c.outcome.Raise? { PassKeepsInv(s, c.who, undo); }
        else if c.name in names && c.key !in s.issued {
          ValuesWithOneMore(stored, c.name, c.key);
          PutKeepsInv(s, c.who, StoringRenditions(meta, main, stored[c.name := c.key], names - {c.name}, twice), c.key);
        }
      } else if c.outcome.Raise? {
        PassKeepsInv(s, c.who, Purging(Upload, all, if twice then undo else Done));
      } else {
        InsertKeepsInv(s, c.who, Done,
                       meta.(storageKey := main, renditions := stored, status := Ready, poster := None));
      }
  }

  lemma VideoUploadKeepsInv(s: State, c: Choice, a: Actor)
    requires Inv(s) && c.Act? && c.who < |s.actors| && a == s.actors[c.who]
    requires a.Staging? || a.Recording? || a.Enqueuing? || a.Unrecording?
    ensures Inv(StepVideoUpload(s, c, a))
  {
    Local(s, c.who, 0);
    if !a.Staging? { LastClaim(Upload, {a.raw}, Done); }
    match a
    case Staging(meta, withPoster) =>
      if c.outcome.Raise? { PassKeepsInv(s, c.who, Done); }
      else if c.key !in s.issued { PutKeepsInv(s, c.who, Recording(meta, c.key, withPoster), c.key); }
    case Recording(meta, raw, withPoster) =>
      if c.outcome.Raise? { PassKeepsInv(s, c.who, Purging(Upload, {raw}, Done)); }
      else {
        var row := meta.(storageKey := raw, renditions := map[], status := Processing, poster := None);
        assert KeysOf(row) == {raw};
        InsertKeepsInv(s, c.who, Enqueuing(raw, s.nextId, withPoster), row);
      }
    case Enqueuing(raw, id, withPoster) =>
      if c.outcome.Raise? { PassKeepsInv(s, c.who, Unrecording(raw, id)); }
      else {
        PassKeepsInv(s, c.who, Done);
        SpawnKeepsInv(Become(s, c.who, Done), WorkerLoading(raw, id, withPoster));
      }
    case Unrecording(raw, id) =>
      var undo := Purging(Upload, {raw}, Done);
      if c.outcome.Raise? { KeepRowKeepsInv(s, c.who, undo, id); }
      else { DropKeepsInv(s, c.who, undo, id, {raw}, ByUploadRollback); }
  }

  lemma MarkingReadyKeepsInv(s: State, c: Choice, a: Actor)
    requires Inv(s) && c.Act? && c.who < |s.actors| && a == s.actors[c.who] && a.MarkingReady?
    ensures Inv(StepWorker(s, c, a))
  {
    Local(s, c.who, a.id);
    var raw, id, out := a.raw, a.id, a.out;
    if c.outcome.Raise? { PassKeepsInv(s, c.who, Purging(Worker, {out}, MarkingFailed(raw, id))); }
    else if id !in s.rows { PassKeepsInv(s, c.who, Purging(Worker, {out, raw}, Done)); }
    else {
      var row := s.rows[id];
      ReplaceKeepsInv(s, c.who, if a.withPoster then PosterStoring(id, row, {raw}) else Purging(Worker, {raw}, Done),
                      id, row.(storageKey := out, status := Ready), {raw}, ByMarkReady);
    }
  }

  lemma WorkerKeepsInv(s: State, c: Choice, a: Actor)
    requires Inv(s) && c.Act? && c.who < |s.actors| && a == s.actors[c.who]
    requires a.WorkerLoading? || a.Compressing? || a.MarkingFailed?
    ensures Inv(StepWorker(s, c, a))
  {
    Local(s, c.who, 0);
    match a
    case WorkerLoading(raw, id, withPoster) =>
      PassKeepsInv(s, c.who, if c.outcome.Raise? then Done else Compressing(raw, id, withPoster));
    case Compressing(raw, id, withPoster) =>
      if c.outcome.Raise? { PassKeepsInv(s, c.who, MarkingFailed(raw, id)); }
      else if c.key !in s.issued {
        var t := Become(Put(s, c.key), c.who, MarkingReady(raw, id, withPoster, c.key));
        PutKeepsInv(s, c.who, MarkingReady(raw, id, withPoster, c.key), c.key);
        assert LedgerOf(t.(outputs := s.outputs + {c.key})) == LedgerOf(t);
      }
    case MarkingFailed(raw, id) =>
      var undo := Purging(Worker, {raw}, Done);
      if c.outcome.Ok? && id in s.rows { TouchKeepsInv(s, c.who, undo, id, s.rows[id].(status := Failed)); }
      else { PassKeepsInv(s, c.who, undo); }
  }

  lemma LinkingKeepsInv(s: State, c: Choice, a: Actor)
    requires Inv(s) && c.Act? && c.who < |s.actors| && a == s.actors[c.who] && (a.Linking? || a.Reloading?)
    ensures Inv(StepPoster(s, c, a))
  {
    Local(s, c.who, a.video);
    var undo := Purging(Poster, {a.image}, PosterUnrecording(a.poster, a.image, a.owes));
    if c.outcome.Raise? || a.video !in s.rows { PassKeepsInv(s, c.who, undo); }
    else if a.Linking? {
      TouchKeepsInv(s, c.who, Reloading(a.video, a.poster, a.image, a.owes), a.video,
                    s.rows[a.video].(poster := Some(a.poster)));
    } else {
      PassKeepsInv(s, c.who, Purging(Poster, a.owes, Done));
    }
  }

  lemma PosterStoreKeepsInv(s: State, c: Choice, a: Actor)
    requires Inv(s) && c.Act? && c.who < |s.actors| && a == s.actors[c.who] && (a.PosterLoading? || a.PosterStoring?)
    ensures Inv(StepPoster(s, c, a))
  {
    Local(s, c.who, 0);
    match a
    case PosterLoading(video) =>
      if c.outcome.Raise? || video !in s.rows || s.rows[video].kind != Video || s.rows[video].status != Ready {
        PassKeepsInv(s, c.who, Done);
      } else {
        PassKeepsInv(s, c.who, PosterStoring(video, s.rows[video], {}));
      }
    case PosterStoring(video, meta, owes) =>
      if c.outcome.Raise? { PassKeepsInv(s, c.who, Purging(Poster, owes, Done)); }
      else if c.key !in s.issued { PutKeepsInv(s, c.who, PosterRecording(video, meta, c.key, owes), c.key); }
  }

  lemma PosterRecordKeepsInv(s: State, c: Choice, a: Actor)
    requires Inv(s) && c.Act? && c.who < |s.actors| && a == s.actors[c.who]
    requires a.PosterRecording? || a.PosterUnrecording?
    ensures Inv(StepPoster(s, c, a))
  {
    Local(s, c.who, 0);
    LastClaim(Poster, a.owes + if a.PosterRecording? then {a.image} else {}, Done);
    match a
    case PosterRecording(video, meta, image, owes) =>
      if c.outcome.Raise? { PassKeepsInv(s, c.who, Purging(Poster, owes + {image}, Done)); }
      else {
        var row := meta.(kind := Image, storageKey := image, renditions := map[], status := Ready,
                         contentHash := None, poster := None);
        assert KeysOf(row) == {image};
        InsertKeepsInv(s, c.who, Linking(video, s.nextId, image, owes), row);
      }
    case PosterUnrecording(poster, image, owes) =>
      var undo := Purging(Poster, owes, Done);
      if c.outcome.Raise? { KeepRowKeepsInv(s, c.who, undo, poster); }
      else { DropKeepsInv(s, c.who, undo, poster, {image}, ByPosterRollback); }
  }

  lemma DeleteLoadKeepsInv(s: State, c: Choice, a: Actor)
    requires Inv(s) && c.Act? && c.who < |s.actors| && a == s.actors[c.who] && (a.DeleteLoading? || a.CascadeLoading?)
    ensures Inv(StepDelete(s, c, a))
  {
    var b := StepDelete(s, c, a).actors[c.who];
    Local(s, c.who, if a.DeleteLoading? then a.id else a.poster);
    PassKeepsInv(s, c.who, b);
  }

  lemma DeletingMainKeepsInv(s: State, c: Choice, a: Actor)
    requires Inv(s) && c.Act? && c.who < |s.actors| && a == s.actors[c.who] && a.DeletingMain?
    ensures Inv(StepDelete(s, c, a))
  {
    Local(s, c.who, a.id);
    var b := if c.outcome.Raise? then Done
             else Purging(Delete, a.loaded.renditions.Values - {a.loaded.storageKey}, Dropping(a.id, a.loaded, true));
    RemoveKeepsInv(s, c.who, b, a.loaded.storageKey, c.outcome);
  }

  lemma DroppingKeepsInv(s: State, c: Choice, a: Actor)
    requires Inv(s) && c.Act? && c.who < |s.actors| && a == s.actors[c.who] && a.Dropping?
    ensures Inv(StepDelete(s, c, a))
  {
    Local(s, c.who, a.id);
    if c.outcome.Raise? { KeepRowKeepsInv(s, c.who, Done, a.id); }
    else {
      var b := if a.cascade && a.loaded.kind == Video && a.loaded.poster.Some?
               then CascadeLoading(a.loaded.poster.value)
               else Done;
      DropKeepsInv(s, c.who, b, a.id, KeysOf(a.loaded), ByDelete(a.loaded));
    }
  }

  lemma PatchLoadingKeepsInv(s: State, c: Choice, a: Actor)
    requires Inv(s) && c.Act? && c.who < |s.actors| && a == s.actors[c.who] && a.PatchLoading?
    ensures Inv(StepPatch(s, c, a))
  {
    Local(s, c.who, a.id);
    var none: map<string, Key> := map[];
    if c.outcome.Raise? || a.id !in s.rows { PassKeepsInv(s, c.who, Done); }
    else if s.rows[a.id].visibility != a.visibility {
      PassKeepsInv(s, c.who, Copying(a.id, a.visibility, s.rows[a.id], a.cascade));
    }
    else if a.cascade { PassKeepsInv(s, c.who, Repointing(a.id, a.visibility, s.rows[a.id], None, none, a.cascade)); }
    else { PassKeepsInv(s, c.who, Done); }
  }

  lemma CopyingKeepsInv(s: State, c: Choice, a: Actor)
    requires Inv(s) && c.Act? && c.who < |s.actors| && a == s.actors[c.who] && a.Copying?
    ensures Inv(StepPatch(s, c, a))
  {
    Local(s, c.who, a.id);
    var none: map<string, Key> := map[];
    if c.outcome.Raise? { PassKeepsInv(s, c.who, Done); }
    else if a.loaded.storageKey !in s.objects {
      PassKeepsInv(s, c.who, Repointing(a.id, a.visibility, a.loaded, None, none, a.cascade));
    } else if c.key !in s.issued {
      FirstCopyKeepsInv(s, c, a);
    }
  }

  lemma FirstCopyKeepsInv(s: State, c: Choice, a: Actor)
    requires Inv(s) && c.Act? && c.who < |s.actors| && a == s.actors[c.who] && a.Copying?
    requires c.outcome.Ok? && a.loaded.storageKey in s.objects && c.key !in s.issued
    ensures Inv(StepPatch(s, c, a))
  {
    Local(s, c.who, a.id);
    var none: map<string, Key> := map[];
    assert none.Values == {} && none.Keys == {};
    var b := CopyingRenditions(a.id, a.visibility, a.loaded, c.key, none, a.loaded.renditions.Keys, a.cascade);
    assert ClaimOf(b).holds == {c.key};
    CopyKeepsInv(s, c.who, b, c.key);
  }

  lemma CopyingRenditionsKeepsInv(s: State, c: Choice, a: Actor)
    requires Inv(s) && c.Act? && c.who < |s.actors| && a == s.actors[c.who] && a.CopyingRenditions?
    ensures Inv(StepPatch(s, c, a))
  {
    Local(s, c.who, a.id);
    var all := {a.main} + a.copied.Values;
    if a.names == {} {
      PassKeepsInv(s, c.who, Repointing(a.id, a.visibility, a.loaded, Some(a.main), a.copied, a.cascade));
    } else if c.outcome.Raise? {
      LastClaim(Patch, all, Done);
      PassKeepsInv(s, c.who, Purging(Patch, all, Done));
    } else if c.name in a.names && c.name in a.loaded.renditions {
      RenditionCopiedKeepsInv(s, c, a);
    }
  }

  lemma RenditionCopiedKeepsInv(s: State, c: Choice, a: Actor)
    requires Inv(s) && c.Act? && c.who < |s.actors| && a == s.actors[c.who] && a.CopyingRenditions?
    requires c.outcome.Ok? && c.name in a.names && c.name in a.loaded.renditions
    ensures Inv(StepPatch(s, c, a))
  {
    Local(s, c.who, a.id);
    if a.loaded.renditions[c.name] !in s.objects {
      PassKeepsInv(s, c.who,
                   CopyingRenditions(a.id, a.visibility, a.loaded, a.main, a.copied, a.names - {c.name}, a.cascade));
    } else if c.key !in s.issued {
      ValuesWithOneMore(a.copied, c.name, c.key);
      var b := CopyingRenditions(a.id, a.visibility, a.loaded, a.main, a.copied[c.name := c.key], a.names - {c.name},
                                 a.cascade);
      assert ClaimOf(b).holds == ClaimOf(a).holds + {c.key};
      CopyKeepsInv(s, c.who, b, c.key);
    }
  }

  lemma RepointingKeepsInv(s: State, c: Choice, a: Actor)
    requires Inv(s) && c.Act? && c.who < |s.actors| && a == s.actors[c.who] && a.Repointing?
    ensures Inv(StepPatch(s, c, a))
  {
    Local(s, c.who, a.id);
    var unused := if a.adopt.Some? then {a.adopt.value} + a.copied.Values else {};
    if c.outcome.Raise? || a.id !in s.rows { PassKeepsInv(s, c.who, Purging(Patch, unused, Done)); }
    else if a.adopt.None? {
      var next := if a.cascade && a.loaded.poster.Some?
            then PatchLoading(a.loaded.poster.value, a.visibility, false) else Done;
      TouchKeepsInv(s, c.who, next, a.id, s.rows[a.id].(visibility := a.visibility));
    } else {
      AdoptingKeepsInv(s, c, a);
    }
  }

  /** The row a re-pointing PATCH writes. */
  ghost function Adopted(s: State, a: Actor): Row
    requires a.Repointing? && a.id in s.rows && a.adopt.Some?
  {
    s.rows[a.id].(visibility := a.visibility, storageKey := a.adopt.value,
                  renditions := if a.loaded.renditions == map[] then s.rows[a.id].renditions else a.copied)
  }

  lemma AdoptingStep(s: State, c: Choice, a: Actor) returns (next: Actor)
    requires c.Act? && c.who < |s.actors| && a == s.actors[c.who] && a.Repointing?
    requires c.outcome.Ok? && a.id in s.rows && a.adopt.Some?
    ensures next.Done? || next.PatchLoading?
    ensures StepPatch(s, c, a) == Become(Replace(s, a.id, Adopted(s, a), KeysOf(a.loaded), ByPatch(a.loaded)), c.who,
                                         Purging(Patch, KeysOf(a.loaded), next))
  {
    next := if a.cascade && a.loaded.poster.Some?
          then PatchLoading(a.loaded.poster.value, a.visibility, false) else Done;
  }

  lemma AdoptingKeepsInv(s: State, c: Choice, a: Actor)
    requires Inv(s) && c.Act? && c.who < |s.actors| && a == s.actors[c.who] && a.Repointing?
    requires c.outcome.Ok? && a.id in s.rows && a.adopt.Some?
    ensures Inv(StepPatch(s, c, a))
  {
    Local(s, c.who, a.id);
    var next := AdoptingStep(s, c, a);
    if a.loaded.renditions == map[] { assert a.copied == map[]; }
    assert KeysOf(Adopted(s, a)) <= KeysOf(s.rows[a.id]) + ({a.adopt.value} + a.copied.Values);
    LastClaim(Patch, KeysOf(a.loaded), next);
    ReplaceKeepsInv(s, c.who, Purging(Patch, KeysOf(a.loaded), next), a.id, Adopted(s, a), KeysOf(a.loaded),
                    ByPatch(a.loaded));
  }

  lemma PurgeKeepsInv(s: State, c: Choice, a: Actor)
    requires Inv(s) && c.Act? && c.who < |s.actors| && a == s.actors[c.who] && a.Purging?
    ensures Inv(StepPurge(s, c, a))
  {
    Local(s, c.who, 0);
    if a.todo == {} { PassKeepsInv(s, c.who, a.next); }
    else if c.key in a.todo { RemoveKeepsInv(s, c.who, a.(todo := a.todo - {c.key}), c.key, c.outcome); }
  }

  /** A handler that has not touched anything yet joins the others. */
  lemma SpawnKeepsInv(s: State, a: Actor)
    requires Inv(s) && WellFormed(a)
    requires ClaimOf(a).mentions <= s.issued && ClaimOf(a) == Idle(ClaimOf(a).mentions)
    ensures Inv(s.(actors := s.actors + [a]))
  {
    var l, m := LedgerOf(s), LedgerOf(s.(actors := s.actors + [a]));
    assert m.claims == l.claims + [ClaimOf(a)];
    forall k | k in m.objects ensures Accounted(m, k) {
      if Owed(l, k) {
        var i :| 0 <= i < |l.claims| && k in l.claims[i].owes;
        assert m.claims[i] == l.claims[i];
      }
    }
  }

  lemma StepKeepsInv(s: State, c: Choice)
    requires Inv(s)
    ensures Inv(Step(s, c))
  {
    match c
    case Start(a) =>
      if Arrival(a) { SpawnKeepsInv(s, a); }
    case Act(who, _, _, _, _) =>
      if who < |s.actors| {
        var a := s.actors[who];
        if a.Storing? || a.StoringRenditions? { ImageKeepsInv(s, c, a); }
        else if a.Staging? || a.Recording? || a.Enqueuing? || a.Unrecording? { VideoUploadKeepsInv(s, c, a); }
        else if a.WorkerLoading? || a.Compressing? || a.MarkingFailed? { WorkerKeepsInv(s, c, a); }
        else if a.MarkingReady? { MarkingReadyKeepsInv(s, c, a); }
        else if a.Linking? || a.Reloading? { LinkingKeepsInv(s, c, a); }
        else if a.DeleteLoading? || a.CascadeLoading? { DeleteLoadKeepsInv(s, c, a); }
        else if a.DeletingMain? { DeletingMainKeepsInv(s, c, a); }
        else if a.Dropping? { DroppingKeepsInv(s, c, a); }
        else if a.PatchLoading? { PatchLoadingKeepsInv(s, c, a); }
        else if a.Copying? { CopyingKeepsInv(s, c, a); }
        else if a.CopyingRenditions? { CopyingRenditionsKeepsInv(s, c, a); }
        else if a.Repointing? { RepointingKeepsInv(s, c, a); }
        else if a.Purging? { PurgeKeepsInv(s, c, a); }
        else if a.PosterLoading? || a.PosterStoring? { PosterStoreKeepsInv(s, c, a); }
        else if !a.Done? { PosterRecordKeepsInv(s, c, a); }
      }
  }
}
