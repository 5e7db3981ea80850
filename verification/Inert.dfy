/** An operator without a control plane changes nothing but conditions. */
module Inert {
  import opened Types
  import opened Startup
  import opened ControlPlane
  import opened System
  import P = PolicyCell
  import H = PolicyHistory
  import C = ConfigCell
  import K = KillSwitch

  // Nothing in flight and no pass past its call.
  predicate IdleCell(c: P.Cell) {
    && c.pending.None? && !c.pass.AwaitUpsert? && !c.pass.AwaitClose?
    && (c.pass.AtStatus? ==> c.pass.purpose.Explaining?)
  }

  predicate IdleConfig(c: C.Cell) {
    && c.pending.None? && !c.pass.AwaitPush? && !c.pass.AtHealth?
    && (c.pass.AtStatus? ==> c.pass.purpose.Explaining?)
  }

  ghost predicate Inert(s: State) {
    && WellFormed(s) && Running(s).NotConfigured?
    && (forall k :: IdleCell(CellOf(s, k)))
    && (forall n :: IdleConfig(ConfigOf(s, n)))
  }

  predicate NoRestart(acts: seq<Action>) { forall i :: 0 <= i < |acts| ==> !acts[i].Restart? }

  // The histories from s to t got no version with Ready=True that is not the
  // unchanged status of the version before it.
  ghost predicate NoNewReady(s: State, t: State) {
    && (forall k, i: nat :: |CellOf(s, k).versions| <= i < |CellOf(t, k).versions| ==>
                              H.ReadyIsInherited(CellOf(t, k), i))
    && (forall n, i: nat :: |ConfigOf(s, n).versions| <= i < |ConfigOf(t, n).versions| ==>
                              C.ReadyIsInherited(ConfigOf(t, n), i))
  }

  ghost predicate HistoriesGrow(s: State, t: State) {
    && (forall k :: CellOf(s, k).versions <= CellOf(t, k).versions)
    && (forall n :: ConfigOf(s, n).versions <= ConfigOf(t, n).versions)
  }

  lemma IdleCellStep(x: P.Context, kind: Kind, c: P.Cell, step: P.Step)
    requires H.Inv(c) && P.Enabled(x, kind, c, step) && IdleCell(c) && x.process.NotConfigured?
    ensures var d := P.After(x, kind, c, step);
            && IdleCell(d) && d.edges == c.edges && c.versions <= d.versions
            && forall i: nat :: |c.versions| <= i < |d.versions| ==> H.ReadyIsInherited(d, i)
  {
    var d := P.After(x, kind, c, step);
    H.StepKeeps(x, kind, c, step);
    forall i: nat | |c.versions| <= i < |d.versions| ensures H.ReadyIsInherited(d, i) {
      assert !d.versions[i].cause.ConfirmedBy?;
      H.OnlySuccessMakesReady(d, i);
    }
  }

  lemma IdleConfigStep(process: Process, servers: Servers, n: string, c: C.Cell, step: C.Step)
    requires C.Inv(process, n, c) && C.Enabled(process, servers, c, step) && IdleConfig(c) && process.NotConfigured?
    ensures var d := C.After(process, servers, n, c, step);
            && IdleConfig(d) && !step.ServePush? && c.versions <= d.versions
            && forall i: nat :: |c.versions| <= i < |d.versions| ==> C.ReadyIsInherited(d, i)
  {
    var d := C.After(process, servers, n, c, step);
    C.StepKeeps(process, servers, n, c, step);
    forall i: nat | |c.versions| <= i < |d.versions| ensures C.ReadyIsInherited(d, i) {
      assert !d.versions[i].cause.ConfigConfirmedBy?;
      C.OnlySuccessMakesReady(d, i);
    }
  }

  lemma InertStep(s: State, a: Action)
    requires SystemInv(s) && Inert(s) && CanDo(s, a) && !a.Restart?
    ensures Inert(Do(s, a))
    ensures forall k, target :: K.EdgesOf(Do(s, a), k, target) == K.EdgesOf(s, k, target)
    ensures !a.PauseOutOfBand? ==> Do(s, a).servers == s.servers
    ensures HistoriesGrow(s, Do(s, a)) && NoNewReady(s, Do(s, a))
  {
    hide H.Inv, C.Inv, P.After, C.After, P.Enabled, C.Enabled, IdleCell, IdleConfig, WriteFlag, FlagAt,
      H.ReadyIsInherited, C.ReadyIsInherited;
    var t := Do(s, a);
    forall k
      ensures IdleCell(CellOf(t, k)) && CellOf(t, k).edges == CellOf(s, k).edges
              && CellOf(s, k).versions <= CellOf(t, k).versions
      ensures forall i: nat :: |CellOf(s, k).versions| <= i < |CellOf(t, k).versions| ==>
                                 H.ReadyIsInherited(CellOf(t, k), i)
    {
      assert IdleCell(CellOf(s, k)) && H.Inv(CellOf(s, k));
      if a.OnPolicy? && a.key == k {
        IdleCellStep(ContextOf(s), k.kind, CellOf(s, k), a.step);
      } else {
        assert CellOf(t, k) == CellOf(s, k);
      }
    }
    forall n
      ensures IdleConfig(ConfigOf(t, n)) && ConfigOf(s, n).versions <= ConfigOf(t, n).versions
      ensures forall i: nat :: |ConfigOf(s, n).versions| <= i < |ConfigOf(t, n).versions| ==>
                                 C.ReadyIsInherited(ConfigOf(t, n), i)
    {
      assert IdleConfig(ConfigOf(s, n)) && C.Inv(Running(s), n, ConfigOf(s, n));
      if a.OnConfig? && a.name == n {
        IdleConfigStep(Running(s), s.servers, n, ConfigOf(s, n), a.cstep);
      } else {
        assert ConfigOf(t, n) == ConfigOf(s, n);
      }
    }
    if a.OnConfig? {
      assert IdleConfig(ConfigOf(s, a.name)) && C.Inv(Running(s), a.name, ConfigOf(s, a.name));
      IdleConfigStep(Running(s), s.servers, a.name, ConfigOf(s, a.name), a.cstep);
    }
  }

  // What is inherited in t stays so as the histories grow to u.
  lemma NoNewReadyTransitively(s: State, t: State, u: State)
    requires HistoriesGrow(s, t) && HistoriesGrow(t, u) && NoNewReady(s, t) && NoNewReady(t, u)
    ensures HistoriesGrow(s, u) && NoNewReady(s, u)
  {
    forall k, i: nat | |CellOf(s, k).versions| <= i < |CellOf(u, k).versions|
      ensures H.ReadyIsInherited(CellOf(u, k), i)
    {
      if i < |CellOf(t, k).versions| {
        assert H.ReadyIsInherited(CellOf(t, k), i) && CellOf(t, k).versions <= CellOf(u, k).versions;
      }
    }
    forall n, i: nat | |ConfigOf(s, n).versions| <= i < |ConfigOf(u, n).versions|
      ensures C.ReadyIsInherited(ConfigOf(u, n), i)
    {
      if i < |ConfigOf(t, n).versions| {
        assert C.ReadyIsInherited(ConfigOf(t, n), i) && ConfigOf(t, n).versions <= ConfigOf(u, n).versions;
      }
    }
  }

  // From an inert state an unconfigured process never sends a request: no edge
  // changes, the flags move only out of band, and no object of any kind gets a
  // Ready=True it did not have.
  lemma {:induction false} UnconfiguredIsInert(s: State, acts: seq<Action>, k: Key, target: Target)
    requires SystemInv(s) && Inert(s) && Valid(s, acts) && NoRestart(acts)
    ensures Inert(Exec(s, acts))
    ensures K.EdgesOf(Exec(s, acts), k, target) == K.EdgesOf(s, k, target)
    ensures (forall i :: 0 <= i < |acts| ==> !acts[i].PauseOutOfBand?) ==> Exec(s, acts).servers == s.servers
    ensures HistoriesGrow(s, Exec(s, acts)) && NoNewReady(s, Exec(s, acts))
    decreases |acts|
  {
    hide Do, CanDo, SystemInv, Inert, HistoriesGrow, NoNewReady;
    if acts == [] {
      NothingHappened(s);
    } else {
      var t := Do(s, acts[0]);
      ActionKeeps(s, acts[0]);
      InertStep(s, acts[0]);
      assert forall i :: 0 <= i < |acts[1..]| ==> acts[1..][i] == acts[i + 1];
      UnconfiguredIsInert(t, acts[1..], k, target);
      NoNewReadyTransitively(s, t, Exec(s, acts));
    }
  }

  lemma NothingHappened(s: State)
    ensures HistoriesGrow(s, s) && NoNewReady(s, s)
  {}

  // An operator installed without a control plane starts inert, and so does one
  // restarted without its settings once nothing is in flight.
  lemma UnconfiguredStartIsInert(servers: Servers, p: Process)
    requires p.NotConfigured?
    ensures Inert(Init(servers, p))
  {}

  lemma UnconfiguredRestartIsInert(s: State, p: Process)
    requires CanDo(s, Restart(p)) && p.NotConfigured?
    requires forall k :: CellOf(s, k).pending.None?
    requires forall n :: ConfigOf(s, n).pending.None?
    ensures Inert(Do(s, Restart(p)))
  {
    hide P.Enabled, C.Enabled;
    var t := Do(s, Restart(p));
    forall k ensures IdleCell(CellOf(t, k)) {
      assert CellOf(s, k).pending.None?;
      assert CellOf(t, k) == P.Crash(CellOf(s, k));
    }
    forall n ensures IdleConfig(ConfigOf(t, n)) {
      assert ConfigOf(s, n).pending.None?;
      assert ConfigOf(t, n) == C.Crash(ConfigOf(s, n));
    }
  }
}
