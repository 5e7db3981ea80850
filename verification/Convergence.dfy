/** Reconciliation goes through: from any state of a live policy, every schedule
    that keeps cooperating makes it Ready for its current generation, within a
    bound read off the state. */
module Convergence {
  import opened Types
  import opened Errors
  import opened ControlPlane
  import opened PolicyMachine
  import opened PolicyCell
  import opened PolicyHistory

  // Ready=True, and for the spec as it is.
  predicate Reconciled(o: Object) { ReadyTrue(o.status) && o.status.observedGeneration == o.generation }

  predicate Converged(c: Cell) { Current(c).Some? && Reconciled(Current(c).value) }

  // A live policy.
  predicate Wanted(c: Cell) { Inv(c) && Current(c).Some? && !Current(c).value.deleting }

  // The steps of a cooperating world: the cache catches up or gains, gates open,
  // writes are answered, waiting passes get their replies, calls are confirmed,
  // and what is left in flight is settled.
  predicate Helps(x: Context, c: Cell, a: Step) {
    match a
    case Begin(read) => read > c.floor || read == |c.versions| - 1
    case Gate(FromCache(v), _) => v < |x.gates| && CheckPauseGate(x.process.singleton, Read(x, FromCache(v))).Open?
    case Store(chance) => chance.Deliver?
    case Send(_) => x.process.Configured?
    case Timeout(_) => c.pending.None?
    case ServeUpsert(r, _, delivered, _) =>
      delivered == c.pass.AwaitUpsert?
      && (delivered ==> r.Ok? && Confirms(KindOf(c.pass.cr.spec), r.value))
    case ServeClose(_, _, delivered, _) => delivered == c.pass.AwaitClose?
    case Drop => !c.pass.AwaitUpsert? && !c.pass.AwaitClose?
    case _ => false
  }

  // ---- the ranking ------------------------------------------------------

  const ROUND := 20

  function Lag(c: Cell): nat
    requires c.floor < |c.versions|
  {
    |c.versions| - 1 - c.floor
  }

  predicate OnCurrent(c: Cell, rv: nat) { rv == |c.versions| - 1 }

  // The request the pass waits for is on its way.
  predicate Awaits(c: Cell) { c.pending.Some? && c.pending.value.UpsertRequest? }

  // How far the pass is from its end; on the current version, from success. A
  // write that lands puts the cache one version behind, which costs a round.
  function Phase(c: Cell): nat {
    match c.pass
    case Idle => ROUND + 6
    case Done(_) => ROUND + 6
    case AtGate(rv, _) => if OnCurrent(c, rv) then ROUND + 5 else ROUND + 12
    case AtAdd(rv, _, _) => if OnCurrent(c, rv) then ROUND + 4 else ROUND + 11
    case AtUpsert(rv, _, _) => if OnCurrent(c, rv) then 3 else ROUND + 10
    case AwaitUpsert(rv, _, _) =>
      if !OnCurrent(c, rv) then ROUND + 9 else if Awaits(c) then 2 else 2 * ROUND + 9
    case AtClose(_, _) => ROUND + 10
    case AwaitClose(_, _) => ROUND + 9
    case AtRelease(_, _) => ROUND + 8
    case AtStatus(rv, _, purpose, _) =>
      if !OnCurrent(c, rv) then ROUND + 8 else if purpose.Confirming? then 1 else 2 * ROUND + 8
  }

  // Cache lag first, then how far the pass has come, then the request in flight.
  function Rank(c: Cell): nat
    requires c.floor < |c.versions|
  {
    2 * (ROUND * Lag(c) + Phase(c)) + (if c.pending.Some? then 1 else 0)
  }

  lemma BeginDescends(x: Context, kind: Kind, c: Cell, a: Step)
    requires Wanted(c) && Enabled(x, kind, c, a) && Helps(x, c, a) && a.Begin?
    ensures After(x, kind, c, a).versions == c.versions
    ensures Rank(After(x, kind, c, a)) < Rank(c)
  {
    assert a.read == |c.versions| - 1 ==> c.versions[a.read].obj == Current(c);
  }

  // No pass that works on the current version is finalizing it.
  lemma CurrentIsLive(c: Cell)
    requires Wanted(c)
    ensures c.pass.AtClose? || c.pass.AwaitClose? || c.pass.AtRelease? ==> !OnCurrent(c, c.pass.rv)
  {}

  lemma CallDescends(x: Context, kind: Kind, c: Cell, a: Step)
    requires Wanted(c) && Enabled(x, kind, c, a) && Helps(x, c, a) && (a.Gate? || a.Send? || a.Timeout?)
    ensures After(x, kind, c, a).versions == c.versions
    ensures Rank(After(x, kind, c, a)) < Rank(c)
  {
    hide Chain, VersionOK, RequestOK, StatusOK, Earned, FlagAt;
    hide FailurePlan, Inconsistent, SuccessStatus, FailureStatus;
    CurrentIsLive(c);
    assert !IsUnconfigured(LOST);
  }

  lemma ServeDescends(x: Context, kind: Kind, c: Cell, a: Step)
    requires Wanted(c) && Enabled(x, kind, c, a) && Helps(x, c, a) && (a.ServeUpsert? || a.ServeClose? || a.Drop?)
    ensures After(x, kind, c, a).versions == c.versions
    ensures Rank(After(x, kind, c, a)) < Rank(c)
  {
    hide Chain, VersionOK, RequestOK, StatusOK, Earned, FlagAt;
    hide FailurePlan, Inconsistent, SuccessStatus, FailureStatus, UpsertAllowed, CloseAllowed;
    CurrentIsLive(c);
    if a.ServeUpsert? && a.delivered {
      ConsistentIffConfirms(KindOf(c.pass.cr.spec), a.upsert.value);
    }
  }

  lemma StoreDescends(x: Context, kind: Kind, c: Cell, a: Step)
    requires Wanted(c) && Enabled(x, kind, c, a) && Helps(x, c, a) && a.Store?
    ensures var d := After(x, kind, c, a);
            Converged(d) || (Wanted(d) && Rank(d) < Rank(c))
  {
    hide Chain, VersionOK, RequestOK, StatusOK, Earned, FlagAt, AfterGate, AfterClose, AfterUpsert;
    hide PolicyMachine.Start, Confirms, UpsertAllowed, CloseAllowed, GateWasOpen, Grows;
    StepKeeps(x, kind, c, a);
    CurrentIsLive(c);
    var d := After(x, kind, c, a);
    if !Fresh(c) {
      assert d.versions == c.versions;
    } else if c.pass.AtStatus? {
      assert Current(d) == Some(Current(c).value.(status := c.pass.cr.status));
    } else {
      assert c.pass.AtAdd? && CREdges in c.pass.cr.finalizers;
      assert Current(d) == Some(Updated(Current(c).value, c.pass.cr));
    }
  }

  lemma StepDescends(x: Context, kind: Kind, c: Cell, a: Step)
    requires Wanted(c) && Enabled(x, kind, c, a) && Helps(x, c, a)
    ensures var d := After(x, kind, c, a);
            Converged(d) || (Wanted(d) && Rank(d) < Rank(c))
  {
    hide Inv, After, Enabled, Rank;
    if a.Store? {
      StoreDescends(x, kind, c, a);
    } else {
      StepKeeps(x, kind, c, a);
      if a.Begin? {
        BeginDescends(x, kind, c, a);
      } else if a.Gate? || a.Send? || a.Timeout? {
        CallDescends(x, kind, c, a);
      } else {
        ServeDescends(x, kind, c, a);
      }
    }
  }

  // ---- there is always such a step --------------------------------------

  const CONFIRMATION := ReconcileResult("ok", 0, 0, [], 0, [], Some(true))

  function HelpingStep(c: Cell, gate: nat): Step
    requires c.versions != []
  {
    match c.pass
    case Idle => Begin(|c.versions| - 1)
    case Done(_) => Begin(|c.versions| - 1)
    case AtGate(_, _) => Gate(FromCache(gate), 0)
    case AtAdd(_, _, _) => Store(Deliver)
    case AtRelease(_, _) => Store(Deliver)
    case AtStatus(_, _, _, _) => Store(Deliver)
    case AtUpsert(_, _, _) => if c.pending.Some? then Drop else Send(0)
    case AtClose(_, _) => if c.pending.Some? then Drop else Send(0)
    case _ =>
      match c.pending
      case None => Timeout(0)
      case Some(UpsertRequest(target, _, _, _)) =>
        if c.pass.AwaitUpsert? then ServeUpsert(Ok(CONFIRMATION), {}, true, 0)
        else ServeUpsert(Err(LOST), Edges(c, target), false, 0)
      case Some(CloseRequest(target)) => ServeClose(Err(LOST), Edges(c, target), c.pass.AwaitClose?, 0)
  }

  // A configured operator with an open gate always has one, unless its call is
  // with a control plane that is paused.
  lemma SomeStepHelps(x: Context, kind: Kind, c: Cell, gate: nat)
    requires Wanted(c) && x.process.Configured?
    requires gate < |x.gates| && x.gates[gate].obj.Some? && !x.gates[gate].obj.value.paused
    requires c.pass.AwaitUpsert? && Awaits(c) ==> !FlagAt(x.servers, c.pending.value.target.backend)
    ensures exists a :: Enabled(x, kind, c, a) && Helps(x, c, a)
  {
    hide Inv, FlagAt;
    var a := HelpingStep(c, gate);
    assert c.versions != [] && c.floor < |c.versions| by { InvBounds(c); }
    assert !IsUnconfigured(LOST) && !IsPaused(LOST);
    assert Enabled(x, kind, c, a) && Helps(x, c, a);
  }

  lemma InvBounds(c: Cell)
    requires Inv(c)
    ensures c.versions != [] && c.floor < |c.versions|
  {}

  // ---- whole schedules --------------------------------------------------

  // Cooperating steps for as long as the policy is not reconciled. The flags, the
  // PlatformConfig and the process may change from one to the next.
  predicate Schedule(kind: Kind, c: Cell, moves: seq<Move>)
    decreases |moves|
  {
    moves != [] && !Converged(c) ==>
      Enabled(moves[0].x, kind, c, moves[0].step) && Helps(moves[0].x, c, moves[0].step)
      && Schedule(kind, After(moves[0].x, kind, c, moves[0].step), moves[1..])
  }

  predicate ReconciledAlong(kind: Kind, c: Cell, moves: seq<Move>)
    requires Schedule(kind, c, moves)
    decreases |moves|
  {
    Converged(c) || (moves != [] && ReconciledAlong(kind, After(moves[0].x, kind, c, moves[0].step), moves[1..]))
  }

  lemma {:induction false} ReconciliationCompletes(kind: Kind, c: Cell, moves: seq<Move>)
    requires Wanted(c) && Schedule(kind, c, moves) && |moves| > Rank(c)
    ensures ReconciledAlong(kind, c, moves)
    decreases |moves|
  {
    hide Inv, After, Enabled, Helps, Rank, Converged;
    if !Converged(c) {
      var x, a := moves[0].x, moves[0].step;
      var d := After(x, kind, c, a);
      StepDescends(x, kind, c, a);
      if !Converged(d) {
        ReconciliationCompletes(kind, d, moves[1..]);
      }
    }
  }
}
