/** Deletion goes through: from any state in which an object waits for its
    finalizer, every schedule that keeps cooperating releases it, within a bound
    read off the state. */
module Progress {
  import opened Types
  import opened Errors
  import opened ControlPlane
  import opened PolicyMachine
  import opened PolicyCell
  import opened PolicyHistory
  import opened Orphans

  predicate Terminating(c: Cell) { HeldNow(c) && Current(c).value.deleting }

  // Nobody has to wait for a human: no close call of the pass in hand is with a
  // control plane that is paused.
  predicate Closable(x: Context, c: Cell) {
    c.pass.AwaitClose? && c.pending.Some? ==> !FlagAt(x.servers, c.pending.value.target.backend)
  }

  // The steps of a cooperating world: the cache catches up or gains, writes are
  // answered, waiting passes get their replies, closes are confirmed, and what
  // is left in flight is settled.
  predicate Cooperates(c: Cell, a: Step) {
    match a
    case Begin(read) => read > c.floor || read == |c.versions| - 1
    case BeginFailed(_) => false
    case Gate(_, _) => true
    case Store(chance) => chance.Deliver?
    case Send(_) => true
    case Timeout(_) => c.pending.None?
    case ServeUpsert(_, _, delivered, _) => delivered == c.pass.AwaitUpsert?
    case ServeClose(r, _, delivered, _) =>
      delivered == c.pass.AwaitClose? && (delivered ==> r.Ok? && ReleaseAllowed(r))
    case Drop => !c.pass.AwaitUpsert? && !c.pass.AwaitClose?
    case _ => false
  }

  // ---- the ranking ------------------------------------------------------

  function Lag(c: Cell): nat
    requires c.floor < |c.versions|
  {
    |c.versions| - 1 - c.floor
  }

  predicate OnCurrent(c: Cell, rv: nat) { rv == |c.versions| - 1 }

  function Phase(c: Cell): nat {
    match c.pass
    case Idle => 9
    case Done(_) => 9
    case AtGate(_, _) => 19
    case AtAdd(_, _, _) => 18
    case AtUpsert(_, _, _) => 17
    case AwaitUpsert(_, _, _) => 16
    case AtClose(rv, _) => if OnCurrent(c, rv) then 5 else 17
    case AwaitClose(rv, _) =>
      if !OnCurrent(c, rv) then 16
      else if c.pending.Some? && c.pending.value.CloseRequest? then 4
      else 76
    case AtRelease(rv, _) => if OnCurrent(c, rv) then 3 else 15
    // a status write that lands puts the cache one version behind
    case AtStatus(rv, _, _, _) => if OnCurrent(c, rv) then 74 else 14
  }

  // Cache lag first, then how far the pass has come, then the request in flight.
  function Rank(c: Cell): nat
    requires c.floor < |c.versions|
  {
    2 * (60 * Lag(c) + Phase(c)) + (if c.pending.Some? then 1 else 0)
  }

  predicate Waiting(c: Cell) { Inv(c) && Terminating(c) }

  // The object after its finalizer was dropped: gone, unless another holds it.
  predicate ReleasedFrom(o: Object, c: Cell) {
    Current(c) == Settle(o.(finalizers := Without(o.finalizers, CREdges)))
  }

  lemma BeginDescends(x: Context, kind: Kind, c: Cell, a: Step)
    requires Waiting(c) && Enabled(x, kind, c, a) && Cooperates(c, a) && a.Begin?
    ensures After(x, kind, c, a).versions == c.versions
    ensures Rank(After(x, kind, c, a)) < Rank(c)
  {
    assert a.read == |c.versions| - 1 ==> c.versions[a.read].obj == Current(c);
  }

  // A pass that works on the current version is finalizing it.
  lemma CurrentIsFinalizing(c: Cell)
    requires Inv(c) && Terminating(c)
    ensures c.pass.AtGate? || c.pass.AtAdd? || c.pass.AtUpsert? || c.pass.AwaitUpsert? ==> !OnCurrent(c, c.pass.rv)
    ensures c.pass.AtClose? || c.pass.AwaitClose? ==> c.pass.rv == c.floor
  {}

  lemma CallDescends(x: Context, kind: Kind, c: Cell, a: Step)
    requires Waiting(c) && Enabled(x, kind, c, a) && Cooperates(c, a) && (a.Gate? || a.Send? || a.Timeout?)
    ensures After(x, kind, c, a).versions == c.versions
    ensures Rank(After(x, kind, c, a)) < Rank(c)
  {
    hide Chain, VersionOK, RequestOK, FailurePlan, Inconsistent, SuccessStatus, FailureStatus, Earned, StatusOK,
      FlagAt, Follows;
    CurrentIsFinalizing(c);
    assert !IsUnconfigured(LOST);
  }

  lemma ServeUpsertDescends(x: Context, kind: Kind, c: Cell, a: Step)
    requires Waiting(c) && Enabled(x, kind, c, a) && Cooperates(c, a) && (a.ServeUpsert? || a.Drop?)
    ensures After(x, kind, c, a).versions == c.versions
    ensures Rank(After(x, kind, c, a)) < Rank(c)
  {
    hide Chain, VersionOK, UpsertAllowed, Inconsistent, FailurePlan, SuccessStatus, FailureStatus, RequestOK,
      AfterGate, AfterWrite, Earned;
    CurrentIsFinalizing(c);
  }

  lemma ServeCloseDescends(x: Context, kind: Kind, c: Cell, a: Step)
    requires Waiting(c) && Enabled(x, kind, c, a) && Cooperates(c, a) && a.ServeClose?
    ensures After(x, kind, c, a).versions == c.versions
    ensures Rank(After(x, kind, c, a)) < Rank(c)
  {
    CurrentIsFinalizing(c);
    hide Chain, VersionOK, CloseAllowed;
  }

  lemma PassStepDescends(x: Context, kind: Kind, c: Cell, a: Step)
    requires Waiting(c) && Enabled(x, kind, c, a) && Cooperates(c, a) && !a.Store?
    ensures var d := After(x, kind, c, a);
            Waiting(d) && d.versions == c.versions && Rank(d) < Rank(c)
  {
    StepKeeps(x, kind, c, a);
    if a.Begin? {
      BeginDescends(x, kind, c, a);
    } else if a.Gate? || a.Send? || a.Timeout? {
      CallDescends(x, kind, c, a);
    } else if a.ServeClose? {
      ServeCloseDescends(x, kind, c, a);
    } else {
      ServeUpsertDescends(x, kind, c, a);
    }
  }

  lemma StoreDescends(x: Context, kind: Kind, c: Cell, a: Step)
    requires Waiting(c) && Enabled(x, kind, c, a) && Cooperates(c, a) && a.Store?
    ensures var d := After(x, kind, c, a);
            || (Waiting(d) && Rank(d) < Rank(c))
            || (d.pass.Done? && Silent(d.pass.outcome) && !HeldNow(d) && ReleasedFrom(Current(c).value, d))
  {
    hide Chain, VersionOK, RequestOK, StatusOK, Earned, AfterGate, AfterClose, AfterUpsert, FlagAt;
    StepKeeps(x, kind, c, a);
    if !Fresh(c) {
      assert After(x, kind, c, a).versions == c.versions;
    } else if c.pass.AtStatus? {
      assert Current(After(x, kind, c, a)) == Some(Current(c).value.(status := c.pass.cr.status));
    } else {
      assert c.pass.AtRelease?;
    }
  }

  function CooperatingStep(c: Cell): Step
    requires c.versions != []
  {
    match c.pass
    case Idle => Begin(|c.versions| - 1)
    case Done(_) => Begin(|c.versions| - 1)
    case AtGate(_, _) => Gate(ReadFailed(""), 0)
    case AtAdd(_, _, _) => Store(Deliver)
    case AtRelease(_, _) => Store(Deliver)
    case AtStatus(_, _, _, _) => Store(Deliver)
    case AtUpsert(_, _, _) => if c.pending.Some? then Drop else Send(0)
    case AtClose(_, _) => if c.pending.Some? then Drop else Send(0)
    case _ =>
      match c.pending
      case None => Timeout(0)
      case Some(UpsertRequest(target, _, _, _)) =>
        ServeUpsert(Err(LOST), Edges(c, target), c.pass.AwaitUpsert?, 0)
      case Some(CloseRequest(target)) =>
        if c.pass.AwaitClose? then ServeClose(Ok(CloseResult("ok", 0, [])), {}, true, 0)
        else ServeClose(Err(LOST), Edges(c, target), false, 0)
  }

  // As long as the object waits and its close can be confirmed, there is a
  // cooperating step to take.
  lemma SomeStepCooperates(x: Context, kind: Kind, c: Cell)
    requires Waiting(c) && Closable(x, c)
    ensures exists a :: Enabled(x, kind, c, a) && Cooperates(c, a)
  {
    var a := CooperatingStep(c);
    assert !IsUnconfigured(LOST) && !IsPaused(LOST);
    assert Enabled(x, kind, c, a) && Cooperates(c, a);
  }

  // ---- whole schedules --------------------------------------------------

  // The flags, the process and the PlatformConfig may change from one step to the
  // next.

  // Cooperating steps, for as long as the object is held.
  predicate Schedule(kind: Kind, c: Cell, moves: seq<Move>)
    decreases |moves|
  {
    moves != [] && HeldNow(c) ==>
      Enabled(moves[0].x, kind, c, moves[0].step) && Cooperates(c, moves[0].step)
      && Schedule(kind, After(moves[0].x, kind, c, moves[0].step), moves[1..])
  }

  // Along the schedule the object is released: with no other finalizer it is gone.
  predicate ReleasedAlong(kind: Kind, c: Cell, moves: seq<Move>)
    requires Schedule(kind, c, moves)
    decreases |moves|
  {
    && HeldNow(c) && moves != []
    && var d := After(moves[0].x, kind, c, moves[0].step);
       if HeldNow(d) then ReleasedAlong(kind, d, moves[1..]) else ReleasedFrom(Current(c).value, d)
  }

  lemma {:induction false} DeletionCompletes(kind: Kind, c: Cell, moves: seq<Move>)
    requires Waiting(c) && Schedule(kind, c, moves) && |moves| > Rank(c)
    ensures ReleasedAlong(kind, c, moves)
    decreases |moves|
  {
    var x, a := moves[0].x, moves[0].step;
    if a.Store? {
      StoreDescends(x, kind, c, a);
    } else {
      PassStepDescends(x, kind, c, a);
    }
    if HeldNow(After(x, kind, c, a)) {
      DeletionCompletes(kind, After(x, kind, c, a), moves[1..]);
    }
  }

  // The finalizer is dropped by a release and by nothing else: of all steps, in
  // any state, only a Store of a pass that had its close confirmed, or found
  // itself unconfigured, takes it off.
  lemma OnlyAReleaseDropsTheFinalizer(x: Context, kind: Kind, c: Cell, a: Step)
    requires Inv(c) && Enabled(x, kind, c, a) && HeldNow(c) && !HeldNow(After(x, kind, c, a))
    ensures a.Store? && c.pass.AtRelease? && Current(c).value.deleting
  {
    StepKeeps(x, kind, c, a);
    var d := After(x, kind, c, a);
    assert Follows(|c.versions|, Current(c), d.versions[|c.versions|]);
  }

  lemma ReleaseComesFromAConfirmedClose(x: Context, kind: Kind, c: Cell, a: Step)
    requires Enabled(x, kind, c, a) && !c.pass.AtRelease? && After(x, kind, c, a).pass.AtRelease?
    ensures (a.ServeClose? && a.delivered && a.close.Ok? && ReleaseAllowed(a.close))
            || (a.Send? && c.pass.AtClose? && x.process.NotConfigured?)
  {
    assert !IsUnconfigured(LOST);
  }
}
