/** Do the operator's own status writes keep waking it up? A policy has no watch
    predicate, so it must reach a status it does not change; PlatformConfig never
    does, and needs its generation predicate. */
module Quiescence {
  import opened Types
  import opened Conditions
  import opened Errors
  import opened Startup
  import opened ControlPlane
  import opened Providers
  import opened PolicyMachine
  import opened PolicyCell
  import opened PolicyHistory
  import C = ConfigCell

  // ---- the fixed point --------------------------------------------------

  // Writing a condition that is already there changes nothing at any time.
  lemma {:induction false} RewriteIsNoOp(conds: seq<Condition>, c: Condition, d: Condition, t: nat, u: nat)
    requires d == c.(lastTransition := d.lastTransition)
    requires SetCondition(conds, c, t) == conds
    ensures SetCondition(conds, d, u) == conds
  {
    if conds == [] {
    } else if conds[0].ctype != c.ctype {
      assert SetCondition(conds, c, t)[1..] == SetCondition(conds[1..], c, t);
      RewriteIsNoOp(conds[1..], c, d, t, u);
    } else {
      assert SetCondition(conds, c, t)[0] == conds[0];
    }
  }

  lemma {:induction false} SecondWriteIsNoOp(conds: seq<Condition>, c: Condition, t: nat)
    ensures SetCondition(SetCondition(conds, c, t), c, t) == SetCondition(conds, c, t)
  {
    if conds != [] && conds[0].ctype != c.ctype {
      SecondWriteIsNoOp(conds[1..], c, t);
      var r := SetCondition(conds, c, t);
      assert r[1..] == SetCondition(conds[1..], c, t);
    } else if conds != [] {
      var r := SetCondition(conds, c, t);
      assert r[1..] == conds[1..] && r == [r[0]] + r[1..];
    }
  }

  // How a pass over a live object that gets to its end ends: with a confirmed
  // result under the gate's flow provider, or not ready for a reason.
  datatype Ending =
    | Succeeds(provider: string, result: ReconcileResult)
    | Fails(reason: Reason, message: Message)

  // The status such a pass writes.
  function StatusOf(o: Object, e: Ending, now: nat): Status {
    match e
    case Succeeds(provider, r) => SuccessStatus(o, provider, r, now)
    case Fails(reason, message) => FailureStatus(o, reason, message, now)
  }

  // It is the one that is stored.
  predicate Settled(o: Object, e: Ending) { StatusOf(o, e, 0) == o.status }

  function ConditionOf(o: Object, e: Ending, now: nat): Condition {
    match e
    case Succeeds(_, r) => Condition(Ready, StatusTrue, Reconciled, ReadyMessage(r), o.generation, now)
    case Fails(reason, message) => Condition(Ready, StatusFalse, reason, message, o.generation, now)
  }

  lemma SettledAtAnyTime(o: Object, e: Ending, now: nat)
    requires Settled(o, e)
    ensures StatusOf(o, e, now) == o.status
  {
    RewriteIsNoOp(o.status.conditions, ConditionOf(o, e, 0), ConditionOf(o, e, now), 0, now);
  }

  // An ending leaves a status that the same ending leaves unchanged.
  lemma EndingSettles(o: Object, e: Ending, now: nat)
    ensures Settled(o.(status := StatusOf(o, e, now)), e)
  {
    var c := ConditionOf(o, e, now);
    SecondWriteIsNoOp(o.status.conditions, c, now);
    RewriteIsNoOp(SetCondition(o.status.conditions, c, now), c, c.(lastTransition := 0), now, 0);
  }

  // ---- what may wake the key --------------------------------------------

  // What a pass makes of an answer to its call.
  function Verdict(kind: Kind, provider: string, r: Reply<ReconcileResult, Error>): Ending {
    match r
    case Err(e) => Fails(FailurePlan(kind, e).0, CallFailed(e))
    case Ok(res) =>
      match Inconsistent(kind, res)
      case Some(why) => Fails(WriteNotVerified, Unconfirmed(why))
      case None => Succeeds(provider, res)
  }

  predicate Unusual(kind: Kind, usual: Ending, r: Reply<ReconcileResult, Error>) {
    Verdict(kind, if usual.Succeeds? then usual.provider else "", r) != usual
  }

  // The step differs from what happens usually: the gate is shut for another
  // reason or opens with another flow provider, or the call is answered otherwise.
  // Stale reads, conflicts, lost writes and requests that are served late do not.
  predicate Disturbs(kind: Kind, p: Pass, m: Move, usual: Ending)
    requires m.step.Gate? && m.step.source.FromCache? ==> m.step.source.version < |m.x.gates|
  {
    match m.step
    case Gate(source, _) =>
      (match CheckPauseGate(m.x.process.singleton, Read(m.x, source))
       case Shut(reason, message) => usual != Fails(reason, message)
       case Open(opening) => usual.Succeeds? && opening.provider != usual.provider)
    case Send(_) =>
      p.AtUpsert? && m.x.process.NotConfigured? && Unusual(kind, usual, Err(Unconfigured(m.x.process.missing)))
    case Timeout(_) => p.AwaitUpsert? && Unusual(kind, usual, Err(LOST))
    case ServeUpsert(reply, _, delivered, _) => delivered && Unusual(kind, usual, reply)
    case _ => false
  }

  predicate NoUsers(moves: seq<Move>) { forall i :: 0 <= i < |moves| ==> !ByUser(moves[i].step) }

  function Disturbances(kind: Kind, c: Cell, moves: seq<Move>, usual: Ending): nat
    requires MovesValid(kind, c, moves)
    decreases |moves|
  {
    if moves == [] then 0
    else (if Disturbs(kind, c.pass, moves[0], usual) then 1 else 0)
         + Disturbances(kind, After(moves[0].x, kind, c, moves[0].step), moves[1..], usual)
  }

  // ---- the writes still to come -----------------------------------------

  predicate OtherGate(gate: Opening, usual: Ending) { usual.Succeeds? && gate.provider != usual.provider }

  // The pass in hand will write, or may write, another status than the usual one,
  // which then has to be written again.
  function Debt(c: Cell, usual: Ending): nat
    requires Current(c).Some?
  {
    var o := Current(c).value;
    match c.pass
    case AtAdd(_, _, gate) => if OtherGate(gate, usual) then 2 else 0
    case AtUpsert(_, _, gate) => if OtherGate(gate, usual) then 2 else 0
    case AwaitUpsert(_, _, gate) => if OtherGate(gate, usual) then 2 else 0
    case AtStatus(rv, cr, _, _) =>
      if rv != |c.versions| - 1 then 0
      else if Settled(cr, usual) && (Settled(o, usual) ==> cr.status == o.status) then 0
      else 2
    case _ => 0
  }

  // The finalizer and the status, once each, and what the pass in hand adds.
  function WritesLeft(c: Cell, usual: Ending): nat
    requires Current(c).Some?
  {
    var o := Current(c).value;
    (if Held(o.finalizers) then 0 else 1) + (if Settled(o, usual) then 0 else 1) + Debt(c, usual)
  }

  predicate Live(kind: Kind, c: Cell) {
    Inv(c) && Current(c).Some? && !Current(c).value.deleting && KindOf(Current(c).value.spec) == kind
  }

  lemma StatusWriteSettles(x: Context, kind: Kind, c: Cell, a: Step, usual: Ending)
    requires Live(kind, c) && Enabled(x, kind, c, a) && a.Store?
    requires Fresh(c) && !a.chance.FailBefore? && c.pass.AtStatus?
    ensures var d := After(x, kind, c, a);
            && Current(d) == Some(c.pass.cr)
            && |d.versions| + WritesLeft(d, usual) <= |c.versions| + WritesLeft(c, usual)
  {
    hide Chain, VersionOK, RequestOK, StatusOK, Earned, Settled;
    hide AfterClose, AfterUpsert, AfterGate, PolicyMachine.Start, FlagAt;
    var o := Current(c).value;
    assert o.(status := c.pass.cr.status) == c.pass.cr;
    if c.pass.cr == o {
      assert After(x, kind, c, a).versions == c.versions;
    }
  }

  lemma FinalizerWriteSettles(x: Context, kind: Kind, c: Cell, a: Step, usual: Ending)
    requires Live(kind, c) && Enabled(x, kind, c, a) && a.Store?
    requires Fresh(c) && !a.chance.FailBefore? && c.pass.AtAdd?
    ensures var d := After(x, kind, c, a);
            && Current(d) == Some(Updated(Current(c).value, c.pass.cr))
            && |d.versions| + WritesLeft(d, usual) <= |c.versions| + WritesLeft(c, usual)
  {
    hide Chain, VersionOK, RequestOK, StatusOK, Earned;
    hide AfterClose, AfterUpsert, AfterGate, PolicyMachine.Start, FlagAt;
    var o := Current(c).value;
    var d := After(x, kind, c, a);
    assert CREdges in c.pass.cr.finalizers;
    assert Current(d) == Some(Updated(o, c.pass.cr));
    assert Settled(Updated(o, c.pass.cr), usual) <==> Settled(o, usual);
  }

  lemma StoreSettles(x: Context, kind: Kind, c: Cell, a: Step, usual: Ending)
    requires Live(kind, c) && Enabled(x, kind, c, a) && a.Store?
    ensures var d := After(x, kind, c, a);
            && Live(kind, d)
            && |d.versions| + WritesLeft(d, usual) <= |c.versions| + WritesLeft(c, usual)
  {
    hide Chain, VersionOK, RequestOK, StatusOK, Earned, Settled;
    hide AfterClose, AfterUpsert, AfterGate, PolicyMachine.Start, FlagAt;
    StepKeeps(x, kind, c, a);
    if !Fresh(c) || a.chance.FailBefore? {
      assert After(x, kind, c, a).versions == c.versions;
    } else if c.pass.AtStatus? {
      StatusWriteSettles(x, kind, c, a, usual);
    } else {
      assert c.pass.AtAdd?;
      FinalizerWriteSettles(x, kind, c, a, usual);
    }
  }

  // A pass over the current copy that comes to its usual end owes nothing.
  lemma UsualEndOwesNothing(o: Object, usual: Ending, now: nat)
    ensures var cr := o.(status := StatusOf(o, usual, now));
            Settled(cr, usual) && (Settled(o, usual) ==> cr.status == o.status)
  {
    EndingSettles(o, usual, now);
    if Settled(o, usual) {
      SettledAtAnyTime(o, usual, now);
    }
  }

  // What the answer to a call makes of the copy the pass works on.
  lemma AnswerEnds(p: Pass, r: Reply<ReconcileResult, Error>, now: nat)
    requires p.AwaitUpsert?
    ensures var q := AfterUpsert(p, r, now);
            && q.AtStatus? && q.rv == p.rv
            && q.cr == p.cr.(status := StatusOf(p.cr, Verdict(KindOf(p.cr.spec), p.gate.provider, r), now))
  {}

  // The usual answer costs nothing.
  lemma AnswerSettles(kind: Kind, c: Cell, p: Pass, r: Reply<ReconcileResult, Error>, now: nat, usual: Ending)
    requires Live(kind, c) && p.AwaitUpsert? && !Unusual(kind, usual, r)
    requires p.rv == |c.versions| - 1 ==> c.versions[p.rv].obj == Some(p.cr)
    ensures var d := c.(pass := AfterUpsert(p, r, now));
            Debt(d, usual) <= if OtherGate(p.gate, usual) then 2 else 0
  {
    hide Inv, Settled, StatusOf, AfterUpsert, FailurePlan, Inconsistent;
    AnswerEnds(p, r, now);
    if p.rv == |c.versions| - 1 && !OtherGate(p.gate, usual) {
      UsualEndOwesNothing(p.cr, usual, now);
    }
  }

  // A gate that is shut as usual costs nothing.
  lemma ShutGateSettles(x: Context, kind: Kind, c: Cell, a: Step, usual: Ending)
    requires Live(kind, c) && Enabled(x, kind, c, a) && a.Gate? && !Disturbs(kind, c.pass, Move(x, a), usual)
    ensures Debt(After(x, kind, c, a), usual) == 0
  {
    hide Chain, VersionOK, RequestOK, StatusOK, Earned, Settled, FlagAt;
    UsualEndOwesNothing(c.pass.cr, usual, a.now);
  }

  lemma CallStaysLive(x: Context, kind: Kind, c: Cell, a: Step)
    requires Live(kind, c) && Enabled(x, kind, c, a) && !ByUser(a) && !a.Store?
    ensures Live(kind, After(x, kind, c, a)) && After(x, kind, c, a).versions == c.versions
  {
    hide PassOK, RequestOK, Chain, VersionOK, FlagAt, AfterGate, AfterUpsert, AfterClose, PolicyMachine.Start;
    StepKeeps(x, kind, c, a);
  }

  lemma CallSettles(x: Context, kind: Kind, c: Cell, a: Step, usual: Ending)
    requires Live(kind, c) && Enabled(x, kind, c, a) && !ByUser(a) && !a.Store?
    ensures var d := After(x, kind, c, a);
            && Live(kind, d) && d.versions == c.versions
            && Debt(d, usual) <= Debt(c, usual) + (if Disturbs(kind, c.pass, Move(x, a), usual) then 2 else 0)
  {
    hide Chain, VersionOK, RequestOK, StatusOK, Earned, Settled, FlagAt;
    hide Inconsistent, SuccessStatus, FailureStatus, FailurePlan, Unusual, Grows, UpsertAllowed, CloseAllowed;
    CallStaysLive(x, kind, c, a);
    if Disturbs(kind, c.pass, Move(x, a), usual) {
    } else if a.Gate? {
      ShutGateSettles(x, kind, c, a, usual);
    } else if a.Send? && c.pass.AtUpsert? && x.process.NotConfigured? {
      var sent := AwaitUpsert(c.pass.rv, c.pass.cr, c.pass.gate);
      AnswerSettles(kind, c, sent, Err(Unconfigured(x.process.missing)), a.now, usual);
    } else if a.Timeout? && c.pass.AwaitUpsert? {
      AnswerSettles(kind, c, c.pass, Err(LOST), a.now, usual);
    } else if a.ServeUpsert? && a.delivered {
      AnswerSettles(kind, c, c.pass, a.upsert, a.now, usual);
    }
  }

  // However many passes run, and at whatever times, nobody editing: the object is
  // written at most once to attach the finalizer and once to settle the status,
  // and at most twice more for each time something unusual happened. Usual may be
  // any ending: success, a shut gate, an unconfigured client, one same failure.
  lemma {:induction false} PolicyQuiesces(kind: Kind, c: Cell, moves: seq<Move>, usual: Ending)
    requires Live(kind, c) && MovesValid(kind, c, moves) && NoUsers(moves)
    ensures |MovesAfter(kind, c, moves).versions| <=
            |c.versions| + WritesLeft(c, usual) + 2 * Disturbances(kind, c, moves, usual)
    ensures WritesLeft(c, usual) <= 4
    ensures c.pass.Idle? || c.pass.Done? ==> WritesLeft(c, usual) <= 2
    decreases |moves|
  {
    hide After, Enabled, Live, Settled, Disturbs;
    if moves != [] {
      var x, a := moves[0].x, moves[0].step;
      assert !ByUser(a);
      if a.Store? {
        StoreSettles(x, kind, c, a, usual);
        StoresDoNotDisturb(kind, c.pass, moves[0], usual);
      } else {
        CallSettles(x, kind, c, a, usual);
      }
      assert forall i :: 0 <= i < |moves[1..]| ==> moves[1..][i] == moves[i + 1];
      PolicyQuiesces(kind, After(x, kind, c, a), moves[1..], usual);
    }
  }

  lemma StoresDoNotDisturb(kind: Kind, p: Pass, m: Move, usual: Ending)
    requires m.step.Store?
    ensures !Disturbs(kind, p, m, usual)
  {}

  // The cluster as it is installed: the PlatformConfig exists and says
  // spec.paused=true, or there is none. Every gate is shut for that one reason.
  predicate ShutsAlike(m: Move, usual: Ending) {
    match m.step
    case Gate(FromCache(v), _) =>
      v < |m.x.gates| &&
      (match CheckPauseGate(m.x.process.singleton, Read(m.x, FromCache(v)))
       case Shut(reason, message) => usual == Fails(reason, message)
       case Open(_) => false)
    case Gate(ReadFailed(_), _) => false
    case _ => true
  }

  // A pass that is behind its gate, with or without its answer.
  predicate PastGate(p: Pass) { p.AtAdd? || p.AtUpsert? || p.AwaitUpsert? }

  // What the status, but not the finalizer, still has to be written for.
  function StatusLeft(c: Cell, usual: Ending): nat
    requires Current(c).Some?
  {
    (if Settled(Current(c).value, usual) then 0 else 1) + Debt(c, usual)
  }

  lemma ShutGateHolds(x: Context, kind: Kind, c: Cell, a: Step, usual: Ending)
    requires Live(kind, c) && Enabled(x, kind, c, a) && !ByUser(a) && !PastGate(c.pass)
    requires ShutsAlike(Move(x, a), usual)
    ensures var d := After(x, kind, c, a);
            && Live(kind, d) && !PastGate(d.pass)
            && |d.versions| + StatusLeft(d, usual) <= |c.versions| + StatusLeft(c, usual)
  {
    hide Chain, VersionOK, RequestOK, StatusOK, Earned, Settled, FlagAt;
    hide Inconsistent, SuccessStatus, FailureStatus, FailurePlan, AfterUpsert;
    if a.Store? {
      StoreSettles(x, kind, c, a, usual);
      if Fresh(c) && !a.chance.FailBefore? {
        StatusWriteSettles(x, kind, c, a, usual);
      }
    } else {
      CallSettles(x, kind, c, a, usual);
    }
  }

  // There the gates never open, and a rested policy is written at most once more,
  // however long it goes on: its status says why.
  lemma {:induction false} PausedPolicyQuiesces(kind: Kind, c: Cell, moves: seq<Move>, usual: Ending)
    requires Live(kind, c) && MovesValid(kind, c, moves) && NoUsers(moves) && !PastGate(c.pass)
    requires forall i :: 0 <= i < |moves| ==> ShutsAlike(moves[i], usual)
    ensures |MovesAfter(kind, c, moves).versions| <= |c.versions| + StatusLeft(c, usual)
    ensures c.pass.Idle? || c.pass.Done? ==> StatusLeft(c, usual) <= 1
    decreases |moves|
  {
    hide After, Enabled, Live, Settled, ShutsAlike;
    if moves != [] {
      var x, a := moves[0].x, moves[0].step;
      assert !ByUser(a) && ShutsAlike(moves[0], usual);
      ShutGateHolds(x, kind, c, a, usual);
      assert forall i :: 0 <= i < |moves[1..]| ==> moves[1..][i] == moves[i + 1];
      PausedPolicyQuiesces(kind, After(x, kind, c, a), moves[1..], usual);
    }
  }

  // ---- PlatformConfig ---------------------------------------------------

  // Polling the same healthy control plane twice writes the same status only
  // when there is no provider to stamp or no time passed.
  lemma PollIsAFixedPointIff(cr: Config, providers: seq<ProviderReport>, t: nat, u: nat)
    ensures var polled := cr.(status := C.HealthStatus(cr, providers, t));
            C.HealthStatus(polled, providers, u) == polled.status <==> providers == [] || t == u
  {
    var polled := cr.(status := C.HealthStatus(cr, providers, t));
    if providers != [] && t != u {
      assert Entries(providers, t)[0].observedAt == t && Entries(providers, u)[0].observedAt == u;
    } else {
      assert Entries(providers, t) == Entries(providers, u);
      PollTwice(cr, providers, t, u);
    }
  }

  // The two stamps of a poll, repeated on their own result.
  lemma PollTwice(cr: Config, providers: seq<ProviderReport>, t: nat, u: nat)
    requires Entries(providers, t) == Entries(providers, u)
    ensures var polled := cr.(status := C.HealthStatus(cr, providers, t));
            C.HealthStatus(polled, providers, u) == polled.status
  {
    var es := Entries(providers, t);
    var un := UnknownLabels(es);
    var g := cr.generation;
    var known := if un != []
                 then Condition(ProviderHealthKnown, StatusFalse, HealthUndetermined, UndeterminedProviders(un), g, t)
                 else Condition(ProviderHealthKnown, StatusTrue, HealthKnown, DeterminedProviders(|es|), g, t);
    var ready := Condition(Ready, StatusTrue, Reconciled, ConfigReady(cr.paused, |es|, |un|), g, t);
    var l1 := SetCondition(cr.status.conditions, known, t);
    var l2 := SetCondition(l1, ready, t);
    SecondWriteIsNoOp(cr.status.conditions, known, t);
    OtherWriteKeepsNoOp(l1, known, ready, t);
    RewriteIsNoOp(l2, known, known.(lastTransition := u), t, u);
    SecondWriteIsNoOp(l1, ready, t);
    RewriteIsNoOp(l2, ready, ready.(lastTransition := u), t, u);
  }

  lemma {:induction false} OtherWriteKeepsNoOp(conds: seq<Condition>, c: Condition, d: Condition, t: nat)
    requires c.ctype != d.ctype && SetCondition(conds, c, t) == conds
    ensures SetCondition(SetCondition(conds, d, t), c, t) == SetCondition(conds, d, t)
  {
    if conds != [] {
      var r := SetCondition(conds, d, t);
      assert SetCondition(conds, c, t)[0] == conds[0];
      if conds[0].ctype == d.ctype {
        assert r[1..] == conds[1..];
        assert SetCondition(conds, c, t)[1..] == SetCondition(conds[1..], c, t);
      } else if conds[0].ctype == c.ctype {
        assert r[1..] == SetCondition(conds[1..], d, t);
        assert r[0] == conds[0] && r == [r[0]] + r[1..];
      } else {
        assert SetCondition(conds, c, t)[1..] == SetCondition(conds[1..], c, t);
        OtherWriteKeepsNoOp(conds[1..], c, d, t);
        assert r[1..] == SetCondition(conds[1..], d, t);
      }
    }
  }

  // GenerationChangedPredicate: creation and deletion pass, and an update only
  // when the generation moved.
  predicate Enqueues(prev: Option<Config>, next: Option<Config>) {
    prev.None? || next.None? || prev.value.generation != next.value.generation
  }

  // With the predicate, nothing the reconciler does wakes it up, and every spec
  // edit of a user does.
  lemma ConfigEnqueuesExactlyOnUsers(process: Process, servers: Servers, name: string, c: C.Cell, a: C.Step)
    requires C.Inv(process, name, c) && C.Enabled(process, servers, c, a)
    requires C.After(process, servers, name, c, a).versions != c.versions
    ensures var d := C.After(process, servers, name, c, a);
            Enqueues(C.Current(c), C.Current(d)) <==> C.ByUser(a)
  {}
}
