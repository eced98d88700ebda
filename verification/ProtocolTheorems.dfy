/** What holds of every run of the two-store protocol. */
module ProtocolTheorems {
  import opened Records
  import opened Protocol
  import opened ProtocolAccounting
  import opened ProtocolRaces
  import opened ProtocolLosses
  import opened ProtocolPresence
  import opened ProtocolRows

  ghost predicate Quiescent(s: State) {
    forall i :: 0 <= i < |s.actors| ==> s.actors[i].Done?
  }

  ghost predicate PointedAt(s: State, k: Key) {
    exists id :: id in s.rows && k in KeysOf(s.rows[id])
  }

  ghost predicate InFlight(s: State, k: Key) {
    exists i :: 0 <= i < |s.actors| && k in ClaimOf(s.actors[i]).owes
  }

  lemma {:induction false} RunsAreSound(schedule: seq<Choice>)
    ensures Inv(Run(schedule))
  {
    if schedule != [] {
      RunsAreSound(schedule[..|schedule| - 1]);
      StepKeepsInv(Run(schedule[..|schedule| - 1]), schedule[|schedule| - 1]);
    }
  }

  /** Every object in storage is at all times pointed at by a row, or in the hands of a
      handler that still owes its recording or deletion, or its own delete call raised,
      or a recorded stale write lost it; and no two rows ever share an object. */
  lemma EveryObjectIsAccountedFor(schedule: seq<Choice>, k: Key)
    requires k in Run(schedule).objects
    ensures var s := Run(schedule);
            && (PointedAt(s, k) || InFlight(s, k) || k in s.undeleted || k in s.losses)
            && (forall i, j :: i in s.rows && j in s.rows && k in KeysOf(s.rows[i]) && k in KeysOf(s.rows[j]) ==>
                  i == j)
  {
    RunsAreSound(schedule);
    var s := Run(schedule);
    var l := LedgerOf(s);
    assert Accounted(l, k);
    if Referenced(l, k) {
      var id :| id in l.rows && k in l.rows[id];
      assert id in s.rows && k in KeysOf(s.rows[id]);
    } else if Owed(l, k) {
      var i :| 0 <= i < |l.claims| && k in l.claims[i].owes;
      assert k in ClaimOf(s.actors[i]).owes;
    }
    forall i, j | i in s.rows && j in s.rows && k in KeysOf(s.rows[i]) && k in KeysOf(s.rows[j]) ensures i == j {
      assert k in l.rows[i] && k in l.rows[j];
    }
  }

  /** Exactly the objects a stale write lost are astray once everything has come to rest
      (apart from those whose own delete call raised): a row never points at one again. */
  lemma StrayExactlyIfLost(schedule: seq<Choice>, k: Key)
    requires Quiescent(Run(schedule)) && k in Run(schedule).objects && k !in Run(schedule).undeleted
    ensures !PointedAt(Run(schedule), k) <==> k in Run(schedule).losses
  {
    RunsAreSound(schedule);
    EveryObjectIsAccountedFor(schedule, k);
    var s := Run(schedule);
    var l := LedgerOf(s);
    assert LostForGood(l);
    if PointedAt(s, k) {
      var id :| id in s.rows && k in KeysOf(s.rows[id]);
      assert k in l.rows[id] && Referenced(l, k);
    }
  }

  /** Whatever interleaves, DELETE and PATCH included, and whatever fails: an object an upload
      or a poster task stored is never lost.  At rest it is pointed at, or its own delete
      call raised; only a compressed output or a rotated copy can be astray. */
  lemma NothingUploadedIsLost(schedule: seq<Choice>, k: Key)
    requires k in Run(schedule).objects && k !in Run(schedule).outputs && k !in Run(schedule).copies
    ensures var s := Run(schedule); k !in s.losses && (PointedAt(s, k) || InFlight(s, k) || k in s.undeleted)
    ensures Quiescent(Run(schedule)) ==> PointedAt(Run(schedule), k) || k in Run(schedule).undeleted
  {
    LossesAreDerived(schedule);
    EveryObjectIsAccountedFor(schedule, k);
  }

  /** Whatever interleaves and whatever fails, a row marked `ready` has its main object in
      storage while no handler is about to drop that row.  Once all is at rest, only a row
      whose own DELETE statement raised can be without. */
  lemma ReadyRowsHaveTheirObject(schedule: seq<Choice>, id: Id)
    requires id in Run(schedule).rows && Run(schedule).rows[id].status.Ready?
    ensures var s := Run(schedule);
            s.rows[id].storageKey in s.objects || id in s.undropped || BeingDropped(s, id)
    ensures var s := Run(schedule); Quiescent(s) ==> s.rows[id].storageKey in s.objects || id in s.undropped
  {
    RunsArePresent(schedule);
  }

  lemma NextIdIsFree(schedule: seq<Choice>)
    ensures var s := Run(schedule); forall id :: id in s.rows ==> id < s.nextId
  {
    RunsAreSound(schedule);
    var l := LedgerOf(Run(schedule));
    forall id | id in Run(schedule).rows ensures id < Run(schedule).nextId { assert id in l.rows; }
  }

  lemma StepKeepsIdentity(s: State, c: Choice, id: Id, was: Row)
    requires (forall j :: j in s.rows ==> j < s.nextId) && id < s.nextId
    requires id in s.rows ==> SameUpload(s.rows[id], was)
    ensures var t := Step(s, c); s.nextId <= t.nextId && (id in t.rows ==> SameUpload(t.rows[id], was))
  {
    if c.Act? && c.who < |s.actors| { StepKeepsToItsColumns(s, c); }
  }

  /** What identifies an upload - owner, kind, hash and callback - never changes while its row
      is there, and its id is never given to another row. */
  lemma {:induction false} RowsKeepTheirIdentity(schedule: seq<Choice>, more: seq<Choice>, id: Id)
    requires id in Run(schedule).rows
    ensures id < Run(schedule + more).nextId
    ensures id in Run(schedule + more).rows ==> SameUpload(Run(schedule + more).rows[id], Run(schedule).rows[id])
    decreases |more|
  {
    if more == [] {
      assert schedule + more == schedule;
      NextIdIsFree(schedule);
    } else {
      var n := |more| - 1;
      RowsKeepTheirIdentity(schedule, more[..n], id);
      NextIdIsFree(schedule + more[..n]);
      assert schedule + more == schedule + more[..n] + [more[n]];
      assert (schedule + more)[..|schedule + more| - 1] == schedule + more[..n];
      StepKeepsIdentity(Run(schedule + more[..n]), more[n], id, Run(schedule).rows[id]);
    }
  }

  ghost predicate OrderlyRun(schedule: seq<Choice>) {
    schedule != [] ==>
      OrderlyRun(schedule[..|schedule| - 1]) && Orderly(Run(schedule[..|schedule| - 1]), schedule[|schedule| - 1])
  }

  lemma {:induction false} OrderlyRunsAreCalm(schedule: seq<Choice>)
    requires OrderlyRun(schedule)
    ensures CalmInv(Run(schedule))
  {
    if schedule != [] {
      OrderlyRunsAreCalm(schedule[..|schedule| - 1]);
      StepKeepsCalmInv(Run(schedule[..|schedule| - 1]), schedule[|schedule| - 1]);
    }
  }

  /** With each DELETE and PATCH running through uninterrupted, and PATCH meeting only
      rows past `processing` that no running poster task made, uploads, compression and
      poster tasks may interleave in any way and fail anywhere: every object is a key of
      exactly one row, in the hands of a handler, or one whose delete call raised. */
  lemma OrderlyRunsLoseNothing(schedule: seq<Choice>, k: Key)
    requires OrderlyRun(schedule) && k in Run(schedule).objects
    ensures var s := Run(schedule); PointedAt(s, k) || InFlight(s, k) || k in s.undeleted
    ensures Quiescent(Run(schedule)) ==> PointedAt(Run(schedule), k) || k in Run(schedule).undeleted
  {
    OrderlyRunsAreCalm(schedule);
    EveryObjectIsAccountedFor(schedule, k);
  }

  ghost predicate PatchFree(schedule: seq<Choice>) {
    forall i :: 0 <= i < |schedule| && schedule[i].Start? ==> !schedule[i].actor.PatchLoading?
  }

  lemma {:induction false} PatchFreeRunsRaceOnlyOneWay(schedule: seq<Choice>)
    requires PatchFree(schedule)
    ensures RaceInv(Run(schedule))
  {
    if schedule != [] {
      PatchFreeRunsRaceOnlyOneWay(schedule[..|schedule| - 1]);
      StepKeepsRaceInv(Run(schedule[..|schedule| - 1]), schedule[|schedule| - 1]);
    }
  }

  /** Without PATCH, and with the calls of DELETE interleaved like all others, an object
      left over when everything has come to rest is one whose delete call raised, or a
      compressed output whose mark_ready landed between the load and the row drop of a
      DELETE: that DELETE had loaded the row as `processing` with another object, and
      dropped it as `ready` with this one. */
  lemma LeftoversWithoutPatch(schedule: seq<Choice>, k: Key)
    requires PatchFree(schedule) && Quiescent(Run(schedule))
    requires k in Run(schedule).objects && !PointedAt(Run(schedule), k)
    ensures var s := Run(schedule);
            k in s.undeleted || (k in s.losses && DeleteRace(s.outputs, k, s.losses[k]))
  {
    PatchFreeRunsRaceOnlyOneWay(schedule);
    EveryObjectIsAccountedFor(schedule, k);
  }
}
