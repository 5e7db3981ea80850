/** The other half: a schedule of processes that is not disciplined has a run
    that orphans an edge. Releasing the finalizer without a close call assumes
    that an unconfigured process was preceded by unconfigured ones only, and
    releasing it after one assumes that the edges are where the call goes. */
module Schedules {
  import opened Types
  import opened Startup
  import opened ControlPlane
  import opened PolicyMachine
  import opened PolicyCell
  import opened System
  import opened Orphans
  import C = ConfigCell

  const KEY := Key(SegmentationPolicy, "team", "web")
  const SPEC := SegmentationSpec(None, None, None, "")
  const EDGE: set<string> := {"edge"}
  const RESULT := ReconcileResult("ok", 1, 0, ["edge"], 1, [], None)

  // ---- steps of one key, everything else standing still -----------------

  predicate StepsValid(x: Context, kind: Kind, c: Cell, steps: seq<Step>)
    decreases |steps|
  {
    steps == [] || (Enabled(x, kind, c, steps[0]) && StepsValid(x, kind, After(x, kind, c, steps[0]), steps[1..]))
  }

  function StepsAfter(x: Context, kind: Kind, c: Cell, steps: seq<Step>): Cell
    requires StepsValid(x, kind, c, steps)
    decreases |steps|
  {
    if steps == [] then c else StepsAfter(x, kind, After(x, kind, c, steps[0]), steps[1..])
  }

  lemma {:induction false} StepsConcat(x: Context, kind: Kind, c: Cell, a: seq<Step>, b: seq<Step>)
    requires StepsValid(x, kind, c, a) && StepsValid(x, kind, StepsAfter(x, kind, c, a), b)
    ensures StepsValid(x, kind, c, a + b)
    ensures StepsAfter(x, kind, c, a + b) == StepsAfter(x, kind, StepsAfter(x, kind, c, a), b)
    decreases |a|
  {
    hide Enabled, After;
    if a == [] {
      assert a + b == b;
    } else {
      StepsConcat(x, kind, After(x, kind, c, a[0]), a[1..], b);
      assert (a + b)[1..] == a[1..] + b;
    }
  }

  // ---- restarts ---------------------------------------------------------

  predicate AllValid(ps: seq<Process>) { forall i :: 0 <= i < |ps| ==> ValidProcess(ps[i]) }

  // The same state but for the processes started and the passes lost.
  ghost predicate Resumes(s: State, t: State, ps: seq<Process>) {
    && t.servers == s.servers && t.procs == s.procs + ps
    && CellOf(t, KEY) == (if ps == [] then CellOf(s, KEY) else Crash(CellOf(s, KEY)))
    && (forall n :: ConfigOf(t, n).versions == ConfigOf(s, n).versions)
  }

  lemma StaysPut(s: State)
    ensures Leads(s, s)
  {
    assert Valid(s, []) && Exec(s, []) == s;
  }

  lemma RestartLeads(s: State, p: Process) returns (t: State)
    requires WellFormed(s) && ValidProcess(p)
    ensures Leads(s, t) && Resumes(s, t, [p])
  {
    hide After, Enabled, C.After, C.Enabled, Leads;
    t := ActionLeads(s, Restart(p));
    assert CellOf(t, KEY) == Crash(CellOf(s, KEY));
    assert forall n :: ConfigOf(t, n) == C.Crash(ConfigOf(s, n));
  }

  lemma {:induction false} RestartsLead(s: State, ps: seq<Process>) returns (t: State)
    requires WellFormed(s) && AllValid(ps)
    ensures Leads(s, t) && Resumes(s, t, ps)
    decreases |ps|
  {
    hide Do, CanDo, Leads;
    if ps == [] {
      assert s.procs + ps == s.procs;
      StaysPut(s);
      t := s;
    } else {
      assert ValidProcess(ps[0]);
      var u := RestartLeads(s, ps[0]);
      t := RestartsLead(u, ps[1..]);
      assert s.procs + ps == (s.procs + [ps[0]]) + ps[1..];
      LeadsTransitively(s, u, t);
    }
  }

  lemma ActionLeads(s: State, a: Action) returns (t: State)
    requires CanDo(s, a)
    ensures t == Do(s, a) && Leads(s, t)
  {
    t := Do(s, a);
    assert [a][1..] == [] && Valid(t, []) && Exec(t, []) == t;
    LeadsBy(s, [a]);
  }

  // ---- a policy gets its edges ------------------------------------------

  function Fresh1(foreign: seq<Finalizer>): Object {
    Object(1, 1, false, foreign, SPEC, Status([], 0, ResolvedFlowProvider("")))
  }

  // A cell whose object is live and held, with edges open at one target.
  predicate Opened(c: Cell, target: Target) {
    && |c.versions| == 3 && c.floor <= 2 && c.pending.None?
    && Current(c) == Some(Fresh1([CREdges]))
    && target in c.edges && c.edges[target] == EDGE
  }

  const FINALIZING: seq<Step> := [Create(SPEC, []), Begin(1), Gate(FromCache(1), 0)]
  const OPENING: seq<Step> := [Store(Deliver), Send(0), ServeUpsert(Ok(RESULT), EDGE, false, 0)]

  lemma OneStep(x: Context, kind: Kind, c: Cell, a: Step)
    requires Enabled(x, kind, c, a)
    ensures StepsValid(x, kind, c, [a]) && StepsAfter(x, kind, c, [a]) == After(x, kind, c, a)
  {
    assert StepsAfter(x, kind, After(x, kind, c, a), [a][1..]) == After(x, kind, c, a);
  }

  lemma ThreeSteps(x: Context, kind: Kind, c0: Cell, a: Step, c1: Cell, b: Step, c2: Cell, d: Step)
    requires Enabled(x, kind, c0, a) && c1 == After(x, kind, c0, a)
    requires Enabled(x, kind, c1, b) && c2 == After(x, kind, c1, b)
    requires Enabled(x, kind, c2, d)
    ensures StepsValid(x, kind, c0, [a, b, d])
    ensures StepsAfter(x, kind, c0, [a, b, d]) == After(x, kind, c2, d)
  {
    OneStep(x, kind, c0, a);
    OneStep(x, kind, c1, b);
    OneStep(x, kind, c2, d);
    StepsConcat(x, kind, c1, [b], [d]);
    StepsConcat(x, kind, c0, [a], [b] + [d]);
    assert [a] + ([b] + [d]) == [a, b, d];
  }

  lemma {:induction false} StepsLead(s: State, steps: seq<Step>) returns (t: State)
    requires WellFormed(s) && StepsValid(ContextOf(s), KEY.kind, CellOf(s, KEY), steps)
    ensures Leads(s, t)
    ensures t.procs == s.procs && t.servers == s.servers && t.configs == s.configs
    ensures CellOf(t, KEY) == StepsAfter(ContextOf(s), KEY.kind, CellOf(s, KEY), steps)
    decreases |steps|
  {
    hide After, Enabled, Leads;
    if steps == [] {
      StaysPut(s);
      t := s;
    } else {
      var u := ActionLeads(s, OnPolicy(KEY, steps[0]));
      t := StepsLead(u, steps[1..]);
      LeadsTransitively(s, u, t);
    }
  }

  // The object was created and a pass is about to attach the finalizer.
  predicate Finalizing(c: Cell) {
    && c.versions == [Version(None, NeverExisted), Version(Some(Fresh1([])), Created)]
    && c.floor == 1 && c.pending.None?
    && c.pass.AtAdd? && c.pass.rv == 1 && c.pass.cr == Fresh1([CREdges])
  }

  lemma FinalizingSteps(x: Context)
    requires |x.gates| == 2 && x.gates[1].obj.Some? && !x.gates[1].obj.value.paused
    ensures StepsValid(x, SegmentationPolicy, EMPTY, FINALIZING)
    ensures Finalizing(StepsAfter(x, SegmentationPolicy, EMPTY, FINALIZING))
  {
    var kind := SegmentationPolicy;
    var c1 := After(x, kind, EMPTY, FINALIZING[0]);
    assert c1.versions == [Version(None, NeverExisted), Version(Some(Fresh1([])), Created)];
    var c2 := After(x, kind, c1, FINALIZING[1]);
    assert c2.pass == AtGate(1, Fresh1([]));
    ThreeSteps(x, kind, EMPTY, FINALIZING[0], c1, FINALIZING[1], c2, FINALIZING[2]);
  }

  lemma OpeningSteps(x: Context, c: Cell, target: Target)
    requires Finalizing(c) && Home(x.process) == Some(target) && !FlagAt(x.servers, target.backend)
    ensures StepsValid(x, SegmentationPolicy, c, OPENING)
    ensures Opened(StepsAfter(x, SegmentationPolicy, c, OPENING), target)
  {
    var kind := SegmentationPolicy;
    var c1 := After(x, kind, c, OPENING[0]);
    assert c1.versions == c.versions + [Version(Some(Fresh1([CREdges])), FinalizerAdded)];
    assert c1.pass.AtUpsert? && c1.pending.None?;
    var c2 := After(x, kind, c1, OPENING[1]);
    assert c2.pending.Some? && c2.pending.value.UpsertRequest? && c2.pending.value.target == target;
    ThreeSteps(x, kind, c, OPENING[0], c1, OPENING[1], c2, OPENING[2]);
  }

  // ---- the object goes away without them --------------------------------

  // Edges open at the target, and no object.
  predicate Orphaned(c: Cell, target: Target) {
    Current(c).None? && target in c.edges && c.edges[target] == EDGE
  }

  const CLOSED: Step := ServeClose(Ok(CloseResult("ok", 0, [])), {}, true, 0)

  function Releasing(p: Process): seq<Step> {
    if p.Configured? then [CLOSED, Store(Deliver)] else [Store(Deliver)]
  }

  function Closing(p: Process): seq<Step> { [Delete, Begin(3), Send(0)] + Releasing(p) }

  // The cell once its release is the next step.
  predicate ReleaseNext(c: Cell, target: Target) {
    var dying := Fresh1([CREdges]).(deleting := true, generation := 2);
    && |c.versions| == 4 && Current(c) == Some(dying)
    && c.pass == AtRelease(3, dying.(finalizers := []))
    && target in c.edges && c.edges[target] == EDGE
  }

  lemma ReleaseStep(x: Context, c: Cell, target: Target)
    requires ReleaseNext(c, target)
    ensures Enabled(x, SegmentationPolicy, c, Store(Deliver))
    ensures Orphaned(After(x, SegmentationPolicy, c, Store(Deliver)), target)
  {
    assert PolicyCell.Fresh(c) && Write(c) == c.versions + [Version(None, FinalizerDropped)];
  }

  // The deleting object's close call has been made or found unnecessary.
  predicate CloseSent(p: Process, c: Cell, target: Target) {
    var dying := Fresh1([CREdges]).(deleting := true, generation := 2);
    if p.NotConfigured? then ReleaseNext(c, target)
    else
      && |c.versions| == 4 && Current(c) == Some(dying)
      && c.pass == AwaitClose(3, dying) && c.pending == Some(CloseRequest(p.target))
      && target in c.edges && c.edges[target] == EDGE
  }

  lemma DyingSteps(x: Context, c: Cell, target: Target)
    requires Opened(c, target) && c.pass.Idle?
    ensures StepsValid(x, SegmentationPolicy, c, [Delete, Begin(3), Send(0)])
    ensures CloseSent(x.process, StepsAfter(x, SegmentationPolicy, c, [Delete, Begin(3), Send(0)]), target)
  {
    var kind := SegmentationPolicy;
    var dying := Fresh1([CREdges]).(deleting := true, generation := 2);
    var c1 := After(x, kind, c, Delete);
    assert c1.versions == c.versions + [Version(Some(dying), DeletionMarked)];
    var c2 := After(x, kind, c1, Begin(3));
    assert c2.pass == AtClose(3, dying);
    assert Without(dying.finalizers, CREdges) == [];
    ThreeSteps(x, kind, c, Delete, c1, Begin(3), c2, Send(0));
  }

  lemma ReleasingSteps(x: Context, c: Cell, target: Target)
    requires CloseSent(x.process, c, target) && Home(x.process) != Some(target)
    requires x.process.Configured? ==> !FlagAt(x.servers, x.process.target.backend)
    ensures StepsValid(x, SegmentationPolicy, c, Releasing(x.process))
    ensures Orphaned(StepsAfter(x, SegmentationPolicy, c, Releasing(x.process)), target)
  {
    var kind := SegmentationPolicy;
    var dying := Fresh1([CREdges]).(deleting := true, generation := 2);
    if x.process.Configured? {
      assert Without(dying.finalizers, CREdges) == [];
      var d := After(x, kind, c, CLOSED);
      ReleaseStep(x, d, target);
      OneStep(x, kind, c, CLOSED);
      OneStep(x, kind, d, Store(Deliver));
      StepsConcat(x, kind, c, [CLOSED], [Store(Deliver)]);
      assert [CLOSED] + [Store(Deliver)] == Releasing(x.process);
    } else {
      ReleaseStep(x, c, target);
      OneStep(x, kind, c, Store(Deliver));
    }
  }

  lemma ClosingSteps(x: Context, c: Cell, target: Target)
    requires Opened(c, target) && c.pass.Idle?
    requires Home(x.process) != Some(target)
    requires x.process.Configured? ==> !FlagAt(x.servers, x.process.target.backend)
    ensures StepsValid(x, SegmentationPolicy, c, Closing(x.process))
    ensures Orphaned(StepsAfter(x, SegmentationPolicy, c, Closing(x.process)), target)
  {
    hide After, Enabled, FlagAt, CloseSent;
    var first: seq<Step> := [Delete, Begin(3), Send(0)];
    DyingSteps(x, c, target);
    ReleasingSteps(x, StepsAfter(x, SegmentationPolicy, c, first), target);
    StepsConcat(x, SegmentationPolicy, c, first, Releasing(x.process));
  }

  // ---- the whole run ----------------------------------------------------

  lemma SwitchLifts(s: State, b: string) returns (t: State)
    requires WellFormed(s)
    ensures Leads(s, t) && t == s.(servers := WriteFlag(s.servers, b, OutOfBand(false)))
    ensures forall other :: Flag(t, other) ==> other != b && Flag(s, other)
  {
    hide After, Enabled, C.After, C.Enabled, Leads;
    t := ActionLeads(s, PauseOutOfBand(b, false));
    forall other | Flag(t, other) ensures other != b && Flag(s, other) {
      WriteFlagAt(s.servers, b, OutOfBand(false), other);
    }
  }

  lemma ConfigAppears(s: State) returns (t: State)
    requires WellFormed(s) && Running(s).singleton != ""
    requires ConfigOf(s, Running(s).singleton).versions == C.EMPTY.versions
    ensures Leads(s, t) && t.procs == s.procs && t.cells == s.cells && t.servers == s.servers
    ensures var gates := ContextOf(t).gates;
            |gates| == 2 && gates[1].obj.Some? && !gates[1].obj.value.paused
  {
    hide After, Enabled, Leads, FlagAt;
    t := ActionLeads(s, OnConfig(Running(s).singleton, C.Create(false, "Hubble")));
  }

  // The kill switches at two backends are lifted and a PlatformConfig opens the
  // gate of the running process.
  lemma GateOpens(s: State, b: string, other: string) returns (t: State)
    requires WellFormed(s) && Running(s).singleton != ""
    requires ConfigOf(s, Running(s).singleton).versions == C.EMPTY.versions
    ensures Leads(s, t)
    ensures t.procs == s.procs && t.cells == s.cells && !Flag(t, b) && !Flag(t, other)
    ensures var gates := ContextOf(t).gates;
            |gates| == 2 && gates[1].obj.Some? && !gates[1].obj.value.paused
  {
    hide Do, CanDo, Leads, FlagAt, WriteFlag;
    var u := SwitchLifts(s, b);
    var v := SwitchLifts(u, other);
    assert !Flag(u, b) && !Flag(v, b) && !Flag(v, other);
    assert ConfigOf(v, Running(s).singleton) == ConfigOf(s, Running(s).singleton);
    t := ConfigAppears(v);
    LeadsTransitively(s, u, v);
    LeadsTransitively(s, v, t);
  }

  // From the initial state: start the processes up to i and open the edges.
  lemma EdgesGetOpened(servers: Servers, ps: seq<Process>, i: nat, other: string) returns (t: State)
    requires AllValid(ps) && i < |ps| && Opens(ps[i])
    ensures Leads(Init(servers, ps[0]), t)
    ensures t.procs == ps[..i + 1] && Opened(CellOf(t, KEY), ps[i].target) && !Flag(t, other)
  {
    hide Do, CanDo, Valid, Exec, FlagAt, Enabled, After, Leads, StepsValid, StepsAfter, Opened, Finalizing;
    var s0 := Init(servers, ps[0]);
    var s1 := RestartsLead(s0, ps[1..i + 1]);
    assert s1.procs == ps[..i + 1] && Running(s1) == ps[i];
    assert CellOf(s1, KEY) == EMPTY && ConfigOf(s1, ps[i].singleton).versions == ConfigOf(s0, ps[i].singleton).versions;
    var s2 := GateOpens(s1, ps[i].target.backend, other);
    assert CellOf(s2, KEY) == EMPTY;
    FinalizingSteps(ContextOf(s2));
    var s3 := StepsLead(s2, FINALIZING);
    assert ContextOf(s3) == ContextOf(s2);
    OpeningSteps(ContextOf(s3), CellOf(s3, KEY), ps[i].target);
    t := StepsLead(s3, OPENING);
    LeadsTransitively(s0, s1, s2);
    LeadsTransitively(s0, s2, s3);
    LeadsTransitively(s0, s3, t);
  }

  // From there: start the processes up to j, delete the object, start the rest.
  lemma ObjectGoesAway(s: State, ps: seq<Process>, i: nat, j: nat) returns (t: State)
    requires AllValid(ps) && i < j < |ps| && Opens(ps[i]) && Home(ps[j]) != Home(ps[i])
    requires s.procs == ps[..i + 1] && Opened(CellOf(s, KEY), ps[i].target)
    requires ps[j].Configured? ==> !Flag(s, ps[j].target.backend)
    ensures Leads(s, t) && t.procs == ps && Orphaned(CellOf(t, KEY), ps[i].target)
  {
    hide Do, CanDo, Valid, Exec, Enabled, After, Leads, FlagAt;
    var s1 := RestartsLead(s, ps[i + 1..j + 1]);
    assert s1.procs == ps[..j + 1] && Running(s1) == ps[j];
    assert Opened(CellOf(s1, KEY), ps[i].target) && CellOf(s1, KEY).pass.Idle?;
    ClosingSteps(ContextOf(s1), CellOf(s1, KEY), ps[i].target);
    var s2 := StepsLead(s1, Closing(ps[j]));
    t := RestartsLead(s2, ps[j + 1..]);
    assert s2.procs + ps[j + 1..] == ps;
    LeadsTransitively(s, s1, s2);
    LeadsTransitively(s, s2, t);
  }

  lemma UndisciplinedOrphans(servers: Servers, ps: seq<Process>, i: nat, j: nat) returns (t: State)
    requires AllValid(ps) && i < j < |ps| && Opens(ps[i]) && Home(ps[j]) != Home(ps[i])
    ensures Leads(Init(servers, ps[0]), t)
    ensures t.procs == ps && Orphaned(CellOf(t, KEY), ps[i].target)
  {
    hide Do, CanDo, Valid, Exec, FlagAt;
    var other := if ps[j].Configured? then ps[j].target.backend else "";
    var s := EdgesGetOpened(servers, ps, i, other);
    t := ObjectGoesAway(s, ps, i, j);
    LeadsTransitively(Init(servers, ps[0]), s, t);
  }

  // ---- exactly when -----------------------------------------------------

  // Some run with this schedule of processes ends with an orphaned edge.
  ghost predicate CanOrphan(servers: Servers, ps: seq<Process>)
    requires ps != []
  {
    exists s :: Leads(Init(servers, ps[0]), s) && s.procs == ps && !NoOrphans(s)
  }

  // Edges are never orphaned, whatever happens, exactly when the schedule is
  // disciplined: once a process was configured and had a PlatformConfig to read,
  // every later one is configured for the same backend and the same cluster.
  lemma NeverOrphansIff(servers: Servers, ps: seq<Process>)
    requires Untouched(servers) && ps != [] && AllValid(ps)
    ensures !CanOrphan(servers, ps) <==> Disciplined(ps)
  {
    hide Do, CanDo, Valid, Exec;
    var s0 := Init(servers, ps[0]);
    assert ValidProcess(ps[0]);
    if Disciplined(ps) {
      forall s | Leads(s0, s) && s.procs == ps ensures NoOrphans(s) {
        var acts :| Valid(s0, acts) && Exec(s0, acts) == s;
        NoOrphansWhenDisciplined(servers, ps[0], acts, s);
      }
    } else {
      var i, j :| 0 <= i < j < |ps| && Opens(ps[i]) && Home(ps[j]) != Home(ps[i]);
      var s := UndisciplinedOrphans(servers, ps, i, j);
      assert "edge" in CellOf(s, KEY).edges[ps[i].target];
      assert !NoOrphan(CellOf(s, KEY));
    }
  }

  // A restart that points the operator at another backend, with the same cluster
  // id, is one that orphans.
  lemma NewBackendOrphans(servers: Servers, cluster: nat, singleton: string)
    requires Untouched(servers) && 0 < cluster <= MAX_INT && singleton != ""
    ensures var a, b := Target("http://a", cluster), Target("http://b", cluster);
            CanOrphan(servers, [Configured(a, singleton), Configured(b, singleton)])
  {
    var ps := [Configured(Target("http://a", cluster), singleton), Configured(Target("http://b", cluster), singleton)];
    assert "http://a"[7] != "http://b"[7];
    assert Opens(ps[0]) && Home(ps[1]) != Home(ps[0]);
    NeverOrphansIff(servers, ps);
  }
}
