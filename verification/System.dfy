/** The whole system: any number of policies and PlatformConfigs, one running
    process, the control planes, and users. A run is a list of actions. */
module System {
  import opened Types
  import opened Startup
  import opened ControlPlane
  import opened Conditions
  import M = PolicyMachine
  import P = PolicyCell
  import H = PolicyHistory
  import C = ConfigCell

  // procs are the processes started so far, the last one running.
  datatype State = State(
    procs: seq<Process>, servers: Servers, cells: map<Key, P.Cell>, configs: map<string, C.Cell>)

  function CellOf(s: State, k: Key): P.Cell { if k in s.cells then s.cells[k] else P.EMPTY }

  function ConfigOf(s: State, n: string): C.Cell { if n in s.configs then s.configs[n] else C.EMPTY }

  predicate WellFormed(s: State) { s.procs != [] }

  function Running(s: State): Process
    requires WellFormed(s)
  {
    s.procs[|s.procs| - 1]
  }

  // The pause flag at a backend.
  function Flag(s: State, backend: string): bool { FlagAt(s.servers, backend) }

  function ContextOf(s: State): P.Context
    requires WellFormed(s)
  {
    P.Context(ConfigOf(s, Running(s).singleton).versions, Running(s), s.servers)
  }

  // ---- actions ----------------------------------------------------------

  datatype Action =
    | OnPolicy(key: Key, step: P.Step)
    | OnConfig(name: string, cstep: C.Step)
    | Restart(process: Process)
    | PauseOutOfBand(backend: string, value: bool)

  predicate CanDo(s: State, a: Action) {
    && WellFormed(s)
    && match a
       case OnPolicy(k, step) => P.Enabled(ContextOf(s), k.kind, CellOf(s, k), step)
       // object names are not empty
       case OnConfig(n, step) => n != "" && C.Enabled(Running(s), s.servers, ConfigOf(s, n), step)
       case Restart(p) => ValidProcess(p)
       case PauseOutOfBand(_, _) => true
  }

  // The write an applied push makes, and the server it makes it at.
  function PushedBy(n: string, push: C.Push): FlagWrite {
    Pushed(Configured(push.target, push.singleton), n, push.at, push.wanted)
  }

  function ServersAfter(s: State, n: string, step: C.Step): Servers
    requires WellFormed(s) && C.Enabled(Running(s), s.servers, ConfigOf(s, n), step)
  {
    if step.ServePush? && step.applied then
      var push := ConfigOf(s, n).pending.value;
      WriteFlag(s.servers, push.target.backend, PushedBy(n, push))
    else s.servers
  }

  function Do(s: State, a: Action): State
    requires CanDo(s, a)
  {
    match a
    case OnPolicy(k, step) =>
      s.(cells := s.cells[k := P.After(ContextOf(s), k.kind, CellOf(s, k), step)])
    case OnConfig(n, step) =>
      s.(configs := s.configs[n := C.After(Running(s), s.servers, n, ConfigOf(s, n), step)],
         servers := ServersAfter(s, n, step))
    case Restart(p) =>
      s.(procs := s.procs + [p],
         cells := map k | k in s.cells :: P.Crash(s.cells[k]),
         configs := map n | n in s.configs :: C.Crash(s.configs[n]))
    case PauseOutOfBand(b, v) => s.(servers := WriteFlag(s.servers, b, OutOfBand(v)))
  }

  function Init(servers: Servers, p: Process): State { State([p], servers, map[], map[]) }

  // ---- runs -------------------------------------------------------------

  predicate Valid(s: State, acts: seq<Action>)
    decreases |acts|
  {
    acts == [] || (CanDo(s, acts[0]) && Valid(Do(s, acts[0]), acts[1..]))
  }

  function Exec(s: State, acts: seq<Action>): State
    requires Valid(s, acts)
    decreases |acts|
  {
    if acts == [] then s else Exec(Do(s, acts[0]), acts[1..])
  }

  predicate Untouched(servers: Servers) { forall b :: b in servers ==> servers[b].writes == [] }

  predicate Reaches(servers: Servers, p: Process, acts: seq<Action>, s: State) {
    && Untouched(servers) && ValidProcess(p)
    && Valid(Init(servers, p), acts)
    && s == Exec(Init(servers, p), acts)
  }

  lemma {:induction false} Concat(s: State, a: seq<Action>, b: seq<Action>)
    requires Valid(s, a) && Valid(Exec(s, a), b)
    ensures Valid(s, a + b) && Exec(s, a + b) == Exec(Exec(s, a), b)
    decreases |a|
  {
    hide Do, CanDo;
    if a == [] {
      assert a + b == b;
    } else {
      Concat(Do(s, a[0]), a[1..], b);
      assert (a + b)[1..] == a[1..] + b;
    }
  }

  // A valid run splits at any place.
  lemma {:induction false} Split(s: State, a: seq<Action>, b: seq<Action>)
    requires Valid(s, a + b)
    ensures Valid(s, a) && Valid(Exec(s, a), b) && Exec(s, a + b) == Exec(Exec(s, a), b)
    decreases |a|
  {
    hide Do, CanDo;
    if a == [] {
      assert a + b == b;
    } else {
      assert (a + b)[0] == a[0] && (a + b)[1..] == a[1..] + b;
      Split(Do(s, a[0]), a[1..], b);
    }
  }

  // Some run leads from s to t.
  ghost predicate Leads(s: State, t: State) {
    exists acts :: Valid(s, acts) && Exec(s, acts) == t
  }

  lemma LeadsBy(s: State, acts: seq<Action>)
    requires Valid(s, acts)
    ensures Leads(s, Exec(s, acts))
  {}

  lemma LeadsTransitively(s: State, t: State, u: State)
    requires Leads(s, t) && Leads(t, u)
    ensures Leads(s, u)
  {
    hide Do, CanDo;
    var a :| Valid(s, a) && Exec(s, a) == t;
    var b :| Valid(t, b) && Exec(t, b) == u;
    Concat(s, a, b);
  }

  // ---- the invariant ----------------------------------------------------

  // Gate events record PlatformConfig versions that said spec.paused=false, and
  // the flow provider they named.
  predicate OpenAt(s: State, g: M.Opening) {
    var c := ConfigOf(s, g.singleton);
    C.Present(c, g.version)
    && var o := c.versions[g.version].obj.value; !o.paused && o.flowProvider == g.provider
  }

  predicate GatesTrue(s: State, k: Key) {
    forall e :: e in CellOf(s, k).log ==> e.GateOpened? ==> OpenAt(s, e.gate)
  }

  // A push on its way was sent by a process that ran.
  predicate PendingTrue(s: State, n: string) {
    var c := ConfigOf(s, n);
    c.pending.Some? ==> Configured(c.pending.value.target, c.pending.value.singleton) in s.procs
  }

  // A pushed value is a spec.paused that an object held, pushed by a process that
  // the object governs and that is configured for this server.
  predicate PushTrue(s: State, backend: string, w: FlagWrite) {
    w.Pushed? ==>
      && w.source in s.procs && w.source.Configured? && w.source.target.backend == backend
      && C.Governs(w.source.singleton, w.name) && C.Present(ConfigOf(s, w.name), w.at)
      && ConfigOf(s, w.name).versions[w.at].obj.value.paused == w.value
  }

  predicate ServerTrue(s: State, backend: string) {
    var writes := ServerAt(s.servers, backend).writes;
    forall i :: 0 <= i < |writes| ==> PushTrue(s, backend, writes[i])
  }

  ghost predicate SystemInv(s: State) {
    && WellFormed(s)
    && (forall k :: H.Inv(CellOf(s, k)))
    && (forall n :: C.Inv(Running(s), n, ConfigOf(s, n)))
    && (forall k :: GatesTrue(s, k))
    && (forall n :: PendingTrue(s, n))
    && (forall b :: ServerTrue(s, b))
    && ConfigOf(s, "").versions == C.EMPTY.versions
  }

  lemma InitInv(servers: Servers, p: Process)
    requires Untouched(servers)
    ensures SystemInv(Init(servers, p))
  {
    H.InvEmpty();
    forall n ensures C.Inv(p, n, ConfigOf(Init(servers, p), n)) {
      C.InvEmpty(p, n);
    }
  }

  lemma GateStepTrue(s: State, k: Key, step: P.Step)
    requires SystemInv(s) && CanDo(s, OnPolicy(k, step))
    ensures GatesTrue(Do(s, OnPolicy(k, step)), k)
  {
    hide H.Inv, C.Inv, C.After, C.Enabled, PendingTrue, ServerTrue, FlagAt;
    var c, t := CellOf(s, k), Do(s, OnPolicy(k, step));
    assert GatesTrue(s, k);
    forall e | e in CellOf(t, k).log && e.GateOpened? ensures OpenAt(t, e.gate) {
      if e in c.log {
        assert OpenAt(s, e.gate);
      } else {
        assert step.Gate?;
      }
    }
  }

  // PlatformConfig histories and processes only get more, so what was read from
  // them stays true.
  lemma RecordsStay(s: State, t: State)
    requires SystemInv(s) && WellFormed(t) && s.procs <= t.procs
    requires forall n :: ConfigOf(s, n).versions <= ConfigOf(t, n).versions
    ensures forall g :: OpenAt(s, g) ==> OpenAt(t, g)
    ensures forall k :: CellOf(t, k).log == CellOf(s, k).log ==> GatesTrue(t, k)
    ensures forall b, w :: PushTrue(s, b, w) ==> PushTrue(t, b, w)
    ensures forall n :: ConfigOf(t, n).pending == ConfigOf(s, n).pending ==> PendingTrue(t, n)
  {
    forall g | OpenAt(s, g) ensures OpenAt(t, g) {
      assert ConfigOf(s, g.singleton).versions <= ConfigOf(t, g.singleton).versions;
    }
    forall k | CellOf(t, k).log == CellOf(s, k).log ensures GatesTrue(t, k) {
      assert GatesTrue(s, k);
    }
    forall b, w | PushTrue(s, b, w) ensures PushTrue(t, b, w) {
      if w.Pushed? {
        assert ConfigOf(s, w.name).versions <= ConfigOf(t, w.name).versions;
      }
    }
    forall n | ConfigOf(t, n).pending == ConfigOf(s, n).pending ensures PendingTrue(t, n) {
      assert PendingTrue(s, n);
    }
  }

  // What a server keeps when it is left alone or gets one more true write.
  lemma ServersStay(s: State, t: State, backend: string, w: FlagWrite)
    requires SystemInv(s) && WellFormed(t)
    requires t.servers == s.servers || (t.servers == WriteFlag(s.servers, backend, w) && PushTrue(t, backend, w))
    requires forall b, v :: PushTrue(s, b, v) ==> PushTrue(t, b, v)
    ensures forall b :: ServerTrue(t, b)
  {
    forall b ensures ServerTrue(t, b) {
      var before, after := ServerAt(s.servers, b).writes, ServerAt(t.servers, b).writes;
      assert ServerTrue(s, b);
      forall i | 0 <= i < |after| ensures PushTrue(t, b, after[i]) {
        if i < |before| {
          assert PushTrue(s, b, before[i]);
        }
      }
    }
  }

  lemma PolicyActionKeeps(s: State, k: Key, step: P.Step)
    requires SystemInv(s) && CanDo(s, OnPolicy(k, step))
    ensures SystemInv(Do(s, OnPolicy(k, step)))
  {
    hide H.Inv, C.Inv, P.Enabled, C.Enabled;
    var t := Do(s, OnPolicy(k, step));
    H.StepKeeps(ContextOf(s), k.kind, CellOf(s, k), step);
    forall j ensures H.Inv(CellOf(t, j)) {
      assert j != k ==> CellOf(t, j) == CellOf(s, j);
    }
    forall n ensures C.Inv(Running(t), n, ConfigOf(t, n)) {
      assert ConfigOf(t, n) == ConfigOf(s, n);
    }
    RecordsStay(s, t);
    GateStepTrue(s, k, step);
    forall j ensures GatesTrue(t, j) {
      assert j != k ==> CellOf(t, j).log == CellOf(s, j).log;
    }
    ServersStay(s, t, "", OutOfBand(true));
  }

  lemma ConfigActionKeeps(s: State, n: string, step: C.Step)
    requires SystemInv(s) && CanDo(s, OnConfig(n, step))
    ensures SystemInv(Do(s, OnConfig(n, step)))
  {
    hide H.Inv, P.After, P.Enabled;
    var t := Do(s, OnConfig(n, step));
    var c := ConfigOf(s, n);
    assert C.Inv(Running(s), n, c) && PendingTrue(s, n);
    C.StepKeeps(Running(s), s.servers, n, c, step);
    forall m ensures C.Inv(Running(t), m, ConfigOf(t, m)) && ConfigOf(s, m).versions <= ConfigOf(t, m).versions {
      if m != n {
        assert ConfigOf(t, m) == ConfigOf(s, m) && C.Inv(Running(s), m, ConfigOf(s, m));
      }
    }
    forall k ensures CellOf(t, k) == CellOf(s, k) && H.Inv(CellOf(t, k)) {
      assert H.Inv(CellOf(s, k));
    }
    RecordsStay(s, t);
    forall m ensures PendingTrue(t, m) {
      assert PendingTrue(s, m);
      assert m != n ==> ConfigOf(t, m) == ConfigOf(s, m);
    }
    if step.ServePush? && step.applied {
      ServersStay(s, t, c.pending.value.target.backend, PushedBy(n, c.pending.value));
    } else {
      ServersStay(s, t, "", OutOfBand(true));
    }
  }

  lemma RestartKeeps(s: State, p: Process)
    requires SystemInv(s) && CanDo(s, Restart(p))
    ensures SystemInv(Do(s, Restart(p)))
  {
    hide H.Inv, C.Inv;
    var t := Do(s, Restart(p));
    forall k ensures H.Inv(CellOf(t, k)) && CellOf(t, k).log == CellOf(s, k).log {
      assert H.Inv(CellOf(s, k));
      H.CrashKeeps(CellOf(s, k));
      assert CellOf(t, k) == P.Crash(CellOf(s, k));
    }
    forall n ensures C.Inv(p, n, ConfigOf(t, n)) && ConfigOf(t, n) == C.Crash(ConfigOf(s, n)) {
      assert C.Inv(Running(s), n, ConfigOf(s, n));
      C.CrashKeeps(Running(s), p, n, ConfigOf(s, n));
    }
    RecordsStay(s, t);
    ServersStay(s, t, "", OutOfBand(true));
  }

  lemma OutOfBandKeeps(s: State, b: string, v: bool)
    requires SystemInv(s)
    ensures SystemInv(Do(s, PauseOutOfBand(b, v)))
  {
    hide H.Inv, C.Inv;
    var t := Do(s, PauseOutOfBand(b, v));
    forall k ensures H.Inv(CellOf(t, k)) && CellOf(t, k) == CellOf(s, k) {
      assert H.Inv(CellOf(s, k));
    }
    forall n ensures C.Inv(Running(t), n, ConfigOf(t, n)) && ConfigOf(t, n) == ConfigOf(s, n) {
      assert C.Inv(Running(s), n, ConfigOf(s, n));
    }
    RecordsStay(s, t);
    ServersStay(s, t, b, OutOfBand(v));
  }

  lemma ActionKeeps(s: State, a: Action)
    requires SystemInv(s) && CanDo(s, a)
    ensures SystemInv(Do(s, a))
  {
    match a
    case OnPolicy(k, step) => PolicyActionKeeps(s, k, step);
    case OnConfig(n, step) => ConfigActionKeeps(s, n, step);
    case Restart(p) => RestartKeeps(s, p);
    case PauseOutOfBand(b, v) => OutOfBandKeeps(s, b, v);
  }

  lemma {:induction false} RunKeeps(s: State, acts: seq<Action>)
    requires SystemInv(s) && Valid(s, acts)
    ensures SystemInv(Exec(s, acts))
    decreases |acts|
  {
    hide Do, CanDo;
    if acts != [] {
      ActionKeeps(s, acts[0]);
      RunKeeps(Do(s, acts[0]), acts[1..]);
    }
  }

  // Every reachable state, from any initial flags and process, in any
  // interleaving, has everything PolicyHistory and ConfigCell promise of each
  // policy and each PlatformConfig.
  lemma Invariant(servers: Servers, p: Process, acts: seq<Action>, s: State)
    requires Reaches(servers, p, acts, s)
    ensures SystemInv(s)
  {
    InitInv(servers, p);
    RunKeeps(Init(servers, p), acts);
  }

  // What a reader of any stored policy may rely on, in every reachable state: the
  // observed generation is one that a confirmed answer to that generation's spec
  // stands behind, Ready=True names it, and the last-confirmed value comes from
  // such an answer under a PlatformConfig that said spec.paused=false.
  lemma StatusIsBackedByHistory(servers: Servers, p: Process, acts: seq<Action>, s: State, k: Key, i: nat)
    requires Reaches(servers, p, acts, s) && H.Present(CellOf(s, k), i)
    ensures var c := CellOf(s, k);
            var o := c.versions[i].obj.value;
            && o.status.observedGeneration <= o.generation
            && (o.status.observedGeneration > 0 ==> H.Backed(c, o.uid, o.status.observedGeneration))
            && (H.ReadyTrue(o.status) ==>
                  o.status.observedGeneration > 0
                  && Find(o.status.conditions, Ready).value.observedGeneration == o.status.observedGeneration)
            && (match H.LastConfirmed(c.versions, i)
                case None => o.status.confirmed == if o.spec.SegmentationSpec? then ResolvedFlowProvider("")
                                                   else CorrelatedEvidenceCount(0)
                case Some(j) => H.SameLife(c, j, i) && H.Earned(c, c.versions[j].obj.value, o.status.confirmed))
            && (forall e :: e in c.log && e.GateOpened? ==> OpenAt(s, e.gate))
  {
    hide Do, CanDo, Valid, Exec;
    Invariant(servers, p, acts, s);
    var c := CellOf(s, k);
    assert H.Inv(c) && GatesTrue(s, k) && H.VersionOK(c, i);
    H.ConfirmedValueIsTheLast(c, i);
  }
}
