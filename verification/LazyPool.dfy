/** PostgresMetadataStore._get_pool: double-checked lazy construction of one pool, shared
    by any number of coroutines that may interleave at every await. */
module LazyPool {
  import opened Records

  /** Where a caller of _get_pool is. */
  datatype Caller =
    | Waiting               // saw no pool, and waits for the lock
    | Building              // holds the lock, saw no pool again, and awaits create_pool
    | Returned(pool: nat)
    | Raised                // create_pool failed, or the caller was cancelled

  /** `built` is the history of pools create_pool has delivered, in order. */
  datatype State = State(pool: Option<nat>, locked: bool, callers: seq<Caller>, built: seq<nat>)

  datatype Move =
    | Call                       // a new caller, up to its first await
    | Acquire(who: nat)          // gets the lock and runs up to its next await
    | Deliver(who: nat, pool: nat)
    | Fail(who: nat)             // create_pool raises
    | Cancel(who: nat)           // the awaiting caller is cancelled

  const Start := State(None, false, [], [])

  function Step(s: State, m: Move): State {
    match m
    case Call =>
      s.(callers := s.callers + [if s.pool.Some? then Returned(s.pool.value) else Waiting])
    case Acquire(who) =>
      if who < |s.callers| && s.callers[who].Waiting? && !s.locked then
        if s.pool.Some? then s.(callers := s.callers[who := Returned(s.pool.value)])  // and lets the lock go
        else s.(callers := s.callers[who := Building], locked := true)
      else s
    case Deliver(who, pool) =>
      if who < |s.callers| && s.callers[who].Building? && pool !in s.built then
        State(Some(pool), false, s.callers[who := Returned(pool)], s.built + [pool])
      else s
    case Fail(who) =>
      if who < |s.callers| && s.callers[who].Building? then s.(callers := s.callers[who := Raised], locked := false)
      else s
    case Cancel(who) =>
      if who < |s.callers| && s.callers[who].Building? then s.(callers := s.callers[who := Raised], locked := false)
      else if who < |s.callers| && s.callers[who].Waiting? then s.(callers := s.callers[who := Raised])
      else s
  }

  function Run(moves: seq<Move>): State {
    if moves == [] then Start else Step(Run(moves[..|moves| - 1]), moves[|moves| - 1])
  }

  /** The lock is held exactly while someone builds, one at a time and only without a pool. */
  ghost predicate Inv(s: State) {
    && (s.locked <==> exists i :: 0 <= i < |s.callers| && s.callers[i].Building?)
    && (forall i, j ::
          0 <= i < |s.callers| && 0 <= j < |s.callers| && s.callers[i].Building? && s.callers[j].Building? ==> i == j)
    && (s.locked ==> s.pool.None?)
    && s.built == (if s.pool.Some? then [s.pool.value] else [])
    && (forall i :: 0 <= i < |s.callers| && s.callers[i].Returned? ==> s.pool == Some(s.callers[i].pool))
  }

  lemma StepKeepsInv(s: State, m: Move)
    requires Inv(s)
    ensures Inv(Step(s, m))
    ensures s.built <= Step(s, m).built
  {
    var t := Step(s, m);
    forall i | 0 <= i < |s.callers| && (m.Call? || m.who != i) ensures t.callers[i] == s.callers[i] {}
    if m.Acquire? && t != s && t.locked { assert t.callers[m.who].Building?; }
    if t.locked && s.locked && t != s {
      var i :| 0 <= i < |s.callers| && s.callers[i].Building?;
      assert t.callers[i].Building?;
    }
  }

  /** However many callers, and however they interleave, fail or are cancelled: at most one
      build succeeds, and everyone who returns returns that same pool. */
  lemma {:induction false} OnePool(moves: seq<Move>)
    ensures Inv(Run(moves))
    ensures |Run(moves).built| <= 1
    ensures forall i :: 0 <= i < |Run(moves).callers| && Run(moves).callers[i].Returned? ==>
              Run(moves).built == [Run(moves).callers[i].pool]
  {
    if moves != [] {
      OnePool(moves[..|moves| - 1]);
      StepKeepsInv(Run(moves[..|moves| - 1]), moves[|moves| - 1]);
    }
  }

  lemma Extend(moves: seq<Move>, m: Move)
    ensures Run(moves + [m]) == Step(Run(moves), m)
  {
    assert (moves + [m])[..|moves|] == moves;
  }

  lemma StepKeepsPool(s: State, m: Move)
    requires Inv(s) && s.pool.Some?
    ensures Step(s, m).pool == s.pool
  {
  }

  /** The pool, once there, is the one everybody gets for ever after. */
  lemma {:induction false} PoolStays(moves: seq<Move>, more: seq<Move>)
    requires Run(moves).pool.Some?
    ensures Run(moves + more).pool == Run(moves).pool
  {
    if more == [] {
      assert moves + more == moves;
    } else {
      var n := |more| - 1;
      var before := moves + more[..n];
      assert Run(before).pool == Run(moves).pool by { PoolStays(moves, more[..n]); }
      assert moves + more == before + [more[n]];
      assert Run(moves + more) == Step(Run(before), more[n]) by { Extend(before, more[n]); }
      assert Inv(Run(before)) by { OnePool(before); }
      StepKeepsPool(Run(before), more[n]);
    }
  }

  /** A move touches nobody but the caller that makes it. */
  lemma OthersUnaffected(s: State, m: Move, i: nat)
    requires i < |s.callers| && (m.Call? || m.who != i)
    ensures |Step(s, m).callers| >= |s.callers| && Step(s, m).callers[i] == s.callers[i]
  {
  }

  /** A caller that is cancelled, waiting or building, raises; so does one whose build fails. */
  lemma CancelledRaises(s: State, who: nat)
    requires who < |s.callers|
    ensures s.callers[who].Waiting? || s.callers[who].Building? ==>
              Step(s, Cancel(who)).callers == s.callers[who := Raised] && Step(s, Cancel(who)).pool == s.pool
    ensures s.callers[who].Building? ==>
              Step(s, Fail(who)).callers == s.callers[who := Raised] && Step(s, Fail(who)).pool == s.pool
  {
  }

  /** With a pool there, a new caller has it at once, and whoever still waits finds the lock
      free and returns the pool when it gets the lock. */
  lemma WaiterReturns(moves: seq<Move>, who: nat)
    requires Run(moves).pool.Some?
    ensures var t := Run(moves + [Call]); t.callers == Run(moves).callers + [Returned(Run(moves).pool.value)]
    ensures who < |Run(moves).callers| && Run(moves).callers[who].Waiting? ==>
              var t := Run(moves + [Acquire(who)]);
              && t.callers == Run(moves).callers[who := Returned(Run(moves).pool.value)]
              && t.pool == Run(moves).pool && !t.locked && t.built == Run(moves).built
  {
    OnePool(moves);
    Extend(moves, Call);
    Extend(moves, Acquire(who));
  }

  /** Nobody waits in vain: from every reachable state a waiting caller can come to return
      a pool, in two moves at the most. */
  lemma WaiterGetsThere(moves: seq<Move>, who: nat, pool: nat) returns (more: seq<Move>)
    requires who < |Run(moves).callers| && Run(moves).callers[who].Waiting? && pool !in Run(moves).built
    ensures |more| <= 2 && who < |Run(moves + more).callers| && Run(moves + more).callers[who].Returned?
  {
    OnePool(moves);
    var s := Run(moves);
    if s.pool.Some? {
      WaiterReturns(moves, who);
      more := [Acquire(who)];
    } else if s.locked {
      var b :| 0 <= b < |s.callers| && s.callers[b].Building?;
      Extend(moves, Deliver(b, pool));
      WaiterReturns(moves + [Deliver(b, pool)], who);
      more := [Deliver(b, pool), Acquire(who)];
      assert moves + more == moves + [Deliver(b, pool)] + [Acquire(who)];
    } else {
      Extend(moves, Acquire(who));
      Extend(moves + [Acquire(who)], Deliver(who, pool));
      more := [Acquire(who), Deliver(who, pool)];
      assert moves + more == moves + [Acquire(who)] + [Deliver(who, pool)];
    }
  }

  /** A failed or cancelled build leaves the state retryable: as long as there is no pool,
      and nobody is building, a fresh caller can take the lock and, if create_pool then
      delivers, returns the pool it delivered. */
  lemma Retryable(moves: seq<Move>, pool: nat)
    requires Run(moves).pool.None?
    requires forall i :: 0 <= i < |Run(moves).callers| ==> !Run(moves).callers[i].Building?
    ensures var n := |Run(moves).callers|;
            var t := Run(moves + [Call, Acquire(n), Deliver(n, pool)]);
            && t.pool == Some(pool) && t.built == [pool] && !t.locked
            && |t.callers| == n + 1 && t.callers[n] == Returned(pool)
  {
    OnePool(moves);
    var n := |Run(moves).callers|;
    Extend(moves, Call);
    Extend(moves + [Call], Acquire(n));
    Extend(moves + [Call] + [Acquire(n)], Deliver(n, pool));
    assert moves + [Call, Acquire(n), Deliver(n, pool)] == moves + [Call] + [Acquire(n)] + [Deliver(n, pool)];
  }

  /** A build that ends, in whichever way, never leaves the lock behind. */
  lemma LockIsLetGo(moves: seq<Move>, who: nat, m: Move)
    requires who < |Run(moves).callers| && Run(moves).callers[who].Building?
    requires m == Fail(who) || m == Cancel(who) || (m.Deliver? && m.who == who && m.pool !in Run(moves).built)
    ensures !Run(moves + [m]).locked
    ensures forall i :: 0 <= i < |Run(moves + [m]).callers| ==> !Run(moves + [m]).callers[i].Building?
  {
    OnePool(moves);
    Extend(moves, m);
  }
}
