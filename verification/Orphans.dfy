/** The finalizer's promise: no edge is open without an object that holds the
    finalizer guaranteeing it gets closed. It depends on how the operator's
    processes were configured over time, and this file says exactly how. */
module Orphans {
  import opened Types
  import opened Errors
  import opened Startup
  import opened ControlPlane
  import opened PolicyMachine
  import opened PolicyCell
  import opened PolicyHistory
  import opened System
  import C = ConfigCell

  // ---- the invariant of one key -----------------------------------------

  predicate HeldNow(c: Cell) { Current(c).Some? && Held(Current(c).value.finalizers) }

  predicate HeldFor(c: Cell, uid: nat) { HeldNow(c) && Current(c).value.uid == uid }

  // A live version that carries the finalizer.
  predicate LiveHeld(c: Cell, i: nat) {
    Present(c, i) && !c.versions[i].obj.value.deleting && Held(c.versions[i].obj.value.finalizers)
  }

  predicate NoEdges(c: Cell) { forall target :: target in c.edges ==> c.edges[target] == {} }

  predicate PassHolds(c: Cell) {
    match c.pass
    case AtGate(_, cr) => Held(cr.finalizers) ==> HeldFor(c, cr.uid)
    case AtUpsert(_, cr, _) => HeldFor(c, cr.uid)
    case AwaitUpsert(_, cr, _) => HeldFor(c, cr.uid)
    case AtRelease(_, _) => NoEdges(c) && (c.pending.Some? ==> c.pending.value.CloseRequest?)
    case _ => true
  }

  // home is where the running process sends its calls, if anywhere; under a
  // disciplined schedule it is the one place where edges ever opened.
  predicate Guarded(home: Option<Target>, c: Cell) {
    // open edges belong to home and to an object that is held
    && (forall target :: target in c.edges && c.edges[target] != {} ==> home == Some(target) && HeldNow(c))
    && (c.pending.Some? && c.pending.value.UpsertRequest? ==> home == Some(c.pending.value.target) && HeldNow(c))
    && (c.pass.AwaitUpsert? || c.pass.AwaitClose? ==> home.Some?)
    && (c.pass.AwaitClose? && c.pending.Some? ==> home == Some(c.pending.value.target))
    && PassHolds(c)
    // what the cache may still serve as live and held is held now: dropping the
    // finalizer takes a pass that has read past every live version
    && (forall i :: c.floor <= i < |c.versions| && LiveHeld(c, i) ==> HeldFor(c, c.versions[i].obj.value.uid))
  }

  lemma PutGuarded(home: Option<Target>, c: Cell, obj: Option<Object>, cause: Cause)
    requires Inv(c) && Guarded(home, c)
    requires Current(c).Some? && Held(Current(c).value.finalizers) ==>
               obj.Some? && Held(obj.value.finalizers) && obj.value.uid == Current(c).value.uid
    ensures Guarded(home, c.(versions := Put(c.versions, obj, cause)))
  {
    var d := c.(versions := Put(c.versions, obj, cause));
    if obj != Current(c) {
      assert Current(d) == obj;
      forall i | d.floor <= i < |d.versions| && LiveHeld(d, i) ensures HeldFor(d, d.versions[i].obj.value.uid) {
        if i < |c.versions| {
          assert LiveHeld(c, i);
        }
      }
    } else {
      assert d == c;
    }
  }

  lemma UserGuarded(x: Context, kind: Kind, c: Cell, a: Step)
    requires Inv(c) && Enabled(x, kind, c, a) && ByUser(a) && Guarded(Home(x.process), c)
    ensures Guarded(Home(x.process), After(x, kind, c, a))
  {
    match a
    case Create(spec, foreign) =>
      var born := Object(|c.versions|, 1, false, foreign, spec, Status([], 0, ZeroConfirmed(spec)));
      assert After(x, kind, c, a) == c.(versions := Put(c.versions, Some(born), Created));
      hide After, Guarded, Inv, Put;
      PutGuarded(Home(x.process), c, Some(born), Created);
    case Edit(spec, foreign) =>
      var o := Current(c).value;
      var edited := Settle(Updated(o, o.(spec := spec, finalizers := foreign)));
      assert After(x, kind, c, a) == c.(versions := Put(c.versions, edited, Edited));
      hide After, Guarded, Inv, Put;
      PutGuarded(Home(x.process), c, edited, Edited);
    case Delete =>
      var o := Current(c).value;
      var marked := if o.finalizers == [] then None
                    else if o.deleting then Some(o)
                    else Some(o.(deleting := true, generation := o.generation + 1));
      assert After(x, kind, c, a) == c.(versions := Put(c.versions, marked, DeletionMarked));
      hide After, Guarded, Inv, Put;
      PutGuarded(Home(x.process), c, marked, DeletionMarked);
  }

  // What Write makes of the versions, for the two writes that keep the finalizer.
  lemma KeepingWriteGuarded(home: Option<Target>, c: Cell)
    requires Inv(c) && Fresh(c) && !c.pass.AtRelease? && Guarded(home, c)
    ensures Guarded(home, c.(versions := Write(c)))
    ensures c.pass.AtAdd? ==> HeldFor(c.(versions := Write(c)), c.pass.cr.uid)
  {
    var stored := Current(c).value;
    match c.pass
    case AtAdd(_, cr, _) =>
      assert CREdges in cr.finalizers;
      PutGuarded(home, c, Settle(Updated(stored, cr)), FinalizerAdded);
    case AtStatus(_, cr, purpose, _) =>
      PutGuarded(home, c, Some(stored.(status := cr.status)),
                 match purpose case Confirming(v) => ConfirmedBy(v) case Explaining(_) => Explained);
  }

  // The release itself: the pass read the version it replaces, and that one was
  // already being deleted, so no later read can serve a live held version.
  lemma ReleaseGuarded(home: Option<Target>, c: Cell, p: Pass)
    requires Inv(c) && Fresh(c) && c.pass.AtRelease? && Guarded(home, c) && p.Done?
    ensures Guarded(home, c.(versions := Write(c), pass := p))
  {
    var d := c.(versions := Write(c), pass := p);
    assert forall i :: d.floor <= i < |d.versions| ==> !LiveHeld(d, i);
  }

  lemma PassGuarded(home: Option<Target>, c: Cell, p: Pass)
    requires Guarded(home, c) && !p.AwaitUpsert? && !p.AwaitClose? && PassHolds(c.(pass := p))
    ensures Guarded(home, c.(pass := p))
  {
    var d := c.(pass := p);
    forall i | d.floor <= i < |d.versions| && LiveHeld(d, i) ensures HeldFor(d, d.versions[i].obj.value.uid) {
      assert LiveHeld(c, i);
    }
  }

  lemma StoreGuarded(x: Context, kind: Kind, c: Cell, a: Step)
    requires Inv(c) && Enabled(x, kind, c, a) && a.Store? && Guarded(Home(x.process), c)
    ensures Guarded(Home(x.process), After(x, kind, c, a))
  {
    hide Chain, VersionOK, StatusOK, Earned, FlagAt, AfterGate, AfterUpsert, AfterClose, Guarded;
    var p := AfterWrite(c.pass, WriteAnswer(c, a.chance));
    if Fresh(c) && !a.chance.FailBefore? {
      if c.pass.AtRelease? {
        ReleaseGuarded(Home(x.process), c, p);
      } else {
        var d := c.(versions := Write(c));
        KeepingWriteGuarded(Home(x.process), c);
        assert PassHolds(d.(pass := p));
        PassGuarded(Home(x.process), d, p);
      }
    } else {
      assert p.Done?;
      PassGuarded(Home(x.process), c, p);
    }
  }

  lemma SendGuarded(x: Context, kind: Kind, c: Cell, a: Step)
    requires Inv(c) && Enabled(x, kind, c, a) && a.Send? && Guarded(Home(x.process), c)
    ensures Guarded(Home(x.process), After(x, kind, c, a))
  {
    hide Chain, VersionOK, StatusOK, Earned, RequestOK, FlagAt, Inconsistent, FailurePlan, SuccessStatus, FailureStatus;
    hide UpsertAllowed, CloseAllowed, AfterGate, Settle, Put, Updated, GateWasOpen, Confirms, Backs;
    var d := After(x, kind, c, a);
    assert d.versions == c.versions && d.edges == c.edges && d.floor == c.floor;
    assert Current(d) == Current(c);
    forall i | d.floor <= i < |d.versions| && LiveHeld(d, i) ensures HeldFor(d, d.versions[i].obj.value.uid) {
      assert LiveHeld(c, i);
    }
  }

  lemma TimeoutGuarded(x: Context, kind: Kind, c: Cell, a: Step)
    requires Inv(c) && Enabled(x, kind, c, a) && a.Timeout? && Guarded(Home(x.process), c)
    ensures Guarded(Home(x.process), After(x, kind, c, a))
  {
    hide Chain, VersionOK, StatusOK, Earned, RequestOK, FlagAt, Inconsistent, FailurePlan, SuccessStatus, FailureStatus,
      UpsertAllowed, CloseAllowed, AfterGate, Settle, Put, Updated;
    assert !IsUnconfigured(LOST);
  }

  lemma ServeGuarded(x: Context, kind: Kind, c: Cell, a: Step)
    requires Inv(c) && Enabled(x, kind, c, a) && Guarded(Home(x.process), c)
    requires a.ServeUpsert? || a.ServeClose? || a.Drop?
    ensures Guarded(Home(x.process), After(x, kind, c, a))
  {
    hide Chain, VersionOK, StatusOK, Earned, FlagAt, Inconsistent, FailurePlan, SuccessStatus, FailureStatus,
      AfterGate, Settle, Put, Updated;
    var d := After(x, kind, c, a);
    if !a.Drop? {
      var target := c.pending.value.target;
      forall other | other in d.edges && d.edges[other] != {}
        ensures Home(x.process) == Some(other) && HeldNow(d)
      {
        if other == target {
          assert a.ServeClose? ==> Edges(c, target) != {};
        } else {
          assert other in c.edges;
        }
      }
      if d.pass.AtRelease? {
        forall other | other in d.edges ensures d.edges[other] == {} {
          if other != target {
            assert other in c.edges;
          }
        }
      }
    }
  }

  lemma BeginGuarded(x: Context, kind: Kind, c: Cell, a: Step)
    requires Inv(c) && Enabled(x, kind, c, a) && (a.Begin? || a.BeginFailed? || a.Gate?) && Guarded(Home(x.process), c)
    ensures Guarded(Home(x.process), After(x, kind, c, a))
  {
    hide Chain, VersionOK, RequestOK, StatusOK, Earned, FlagAt, SuccessStatus, FailureStatus;
    if a.Begin? && LiveHeld(c, a.read) {
      assert HeldFor(c, c.versions[a.read].obj.value.uid);
    }
  }

  lemma StepGuarded(x: Context, kind: Kind, c: Cell, a: Step)
    requires Inv(c) && Enabled(x, kind, c, a) && Guarded(Home(x.process), c)
    ensures Guarded(Home(x.process), After(x, kind, c, a))
  {
    hide After, Enabled, Inv, Guarded;
    match a
    case Begin(_) => BeginGuarded(x, kind, c, a);
    case BeginFailed(_) => BeginGuarded(x, kind, c, a);
    case Gate(_, _) => BeginGuarded(x, kind, c, a);
    case Store(_) => StoreGuarded(x, kind, c, a);
    case Send(_) => SendGuarded(x, kind, c, a);
    case Timeout(_) => TimeoutGuarded(x, kind, c, a);
    case ServeUpsert(_, _, _, _) => ServeGuarded(x, kind, c, a);
    case ServeClose(_, _, _, _) => ServeGuarded(x, kind, c, a);
    case Drop => ServeGuarded(x, kind, c, a);
    case _ => UserGuarded(x, kind, c, a);
  }

  // ---- schedules of processes -------------------------------------------

  // The process can open edges: with an empty singleton name it has no
  // PlatformConfig to read, so its gates stay shut.
  predicate Opens(p: Process) { p.Configured? && p.singleton != "" }

  // Once a process could open edges, every later one is configured for the same
  // place: the same backend and the same cluster id.
  predicate Disciplined(ps: seq<Process>) {
    forall i, j :: 0 <= i < j < |ps| && Opens(ps[i]) ==> Home(ps[j]) == Home(ps[i])
  }

  predicate NoneOpens(ps: seq<Process>) { forall i :: 0 <= i < |ps| ==> !Opens(ps[i]) }

  // What holds as long as no process could open edges.
  predicate Calm(p: Process, c: Cell) {
    && NoEdges(c) && (c.pending.Some? ==> c.pending.value.CloseRequest?)
    && (p.Configured? ==> !c.pass.AtAdd? && !c.pass.AtUpsert? && !c.pass.AwaitUpsert?)
  }

  lemma StepCalm(x: Context, kind: Kind, c: Cell, a: Step)
    requires Enabled(x, kind, c, a) && Calm(x.process, c) && !Opens(x.process)
    requires x.process.singleton == "" ==> x.gates == C.EMPTY.versions
    ensures Calm(x.process, After(x, kind, c, a))
  {
    hide FlagAt, Inconsistent, FailurePlan, SuccessStatus, FailureStatus;
    if a.ServeClose? {
      assert Edges(c, c.pending.value.target) == {};
    }
  }

  predicate NoOrphan(c: Cell) {
    forall target :: target in c.edges && c.edges[target] != {} ==> HeldNow(c)
  }

  ghost predicate NoOrphans(s: State) { forall k :: NoOrphan(CellOf(s, k)) }

  ghost predicate AllGuarded(s: State) {
    && WellFormed(s)
    && (forall k :: Guarded(Home(Running(s)), CellOf(s, k)))
    && (NoneOpens(s.procs) ==> forall k :: Calm(Running(s), CellOf(s, k)))
  }

  // A new process takes over.
  lemma RestartGuarded(s: State, p: Process, k: Key)
    requires AllGuarded(s) && CanDo(s, Restart(p)) && Disciplined(s.procs + [p])
    ensures var d := CellOf(Do(s, Restart(p)), k);
            && Guarded(Home(p), d)
            && (NoneOpens(s.procs + [p]) ==> Calm(p, d))
  {
    hide PolicyCell.After, PolicyCell.Enabled, C.After, C.Enabled, Settle, Put, Updated, FlagAt, WriteFlag;
    var c := CellOf(s, k);
    assert Guarded(Home(Running(s)), c) && (NoneOpens(s.procs) ==> Calm(Running(s), c));
    assert CellOf(Do(s, Restart(p)), k) == Crash(c);
    var n := |s.procs|;
    var ps := s.procs + [p];
    assert ps[n] == p && ps[n - 1] == Running(s);
    if !NoneOpens(s.procs) {
      var i :| 0 <= i < n && Opens(s.procs[i]);
      assert ps[i] == s.procs[i] && Home(ps[n]) == Home(ps[i]) && Home(ps[n - 1]) == Home(ps[i]);
      assert !NoneOpens(ps);
    }
    forall i | c.floor <= i < |c.versions| && LiveHeld(Crash(c), i)
      ensures HeldFor(Crash(c), c.versions[i].obj.value.uid)
    {
      assert LiveHeld(c, i);
    }
  }

  lemma PolicyStepGuarded(s: State, k: Key, step: Step)
    requires SystemInv(s) && AllGuarded(s) && CanDo(s, OnPolicy(k, step))
    ensures AllGuarded(Do(s, OnPolicy(k, step)))
  {
    hide PolicyCell.After, PolicyCell.Enabled, Inv, Guarded, Calm;
    var t := Do(s, OnPolicy(k, step));
    var none := NoneOpens(s.procs);
    forall j ensures Guarded(Home(Running(t)), CellOf(t, j)) && (none ==> Calm(Running(t), CellOf(t, j))) {
      var c := CellOf(s, j);
      assert Guarded(Home(Running(s)), c) && Inv(c) && (none ==> Calm(Running(s), c));
      if j == k {
        StepGuarded(ContextOf(s), k.kind, c, step);
        if none {
          assert !Opens(s.procs[|s.procs| - 1]);
          StepCalm(ContextOf(s), k.kind, c, step);
        }
      } else {
        assert CellOf(t, j) == c;
      }
    }
  }

  lemma ActionGuarded(s: State, a: Action)
    requires SystemInv(s) && AllGuarded(s) && CanDo(s, a) && Disciplined(Do(s, a).procs)
    ensures AllGuarded(Do(s, a))
  {
    hide PolicyCell.After, PolicyCell.Enabled, C.After, C.Enabled, Inv, Guarded, Calm, WriteFlag, FlagAt;
    var t := Do(s, a);
    match a
    case OnPolicy(k, step) => PolicyStepGuarded(s, k, step);
    case Restart(p) =>
      forall k ensures Guarded(Home(p), CellOf(t, k)) && (NoneOpens(t.procs) ==> Calm(p, CellOf(t, k))) {
        RestartGuarded(s, p, k);
      }
    case OnConfig(_, _) => assert forall k :: CellOf(t, k) == CellOf(s, k);
    case PauseOutOfBand(_, _) => assert forall k :: CellOf(t, k) == CellOf(s, k);
  }

  lemma {:induction false} ProcsGrow(s: State, acts: seq<Action>)
    requires Valid(s, acts)
    ensures s.procs <= Exec(s, acts).procs
    decreases |acts|
  {
    if acts != [] {
      ProcsGrow(Do(s, acts[0]), acts[1..]);
    }
  }

  lemma PrefixIsDisciplined(a: seq<Process>, b: seq<Process>)
    requires a <= b && Disciplined(b)
    ensures Disciplined(a)
  {
    forall i, j | 0 <= i < j < |a| && Opens(a[i]) ensures Home(a[j]) == Home(a[i]) {
      assert b[i] == a[i] && b[j] == a[j];
    }
  }

  lemma {:induction false} RunGuarded(s: State, acts: seq<Action>)
    requires SystemInv(s) && AllGuarded(s) && Valid(s, acts) && Disciplined(Exec(s, acts).procs)
    ensures AllGuarded(Exec(s, acts))
    decreases |acts|
  {
    hide Do, CanDo, Disciplined;
    if acts != [] {
      var t := Do(s, acts[0]);
      ProcsGrow(t, acts[1..]);
      PrefixIsDisciplined(t.procs, Exec(s, acts).procs);
      ActionKeeps(s, acts[0]);
      ActionGuarded(s, acts[0]);
      RunGuarded(t, acts[1..]);
    }
  }

  // No orphaned edges, in every run whose processes were configured consistently:
  // crashes between any two steps, write conflicts, stale caches, lost replies,
  // requests still in flight, deletes and re-creations under the same name.
  lemma NoOrphansWhenDisciplined(servers: Servers, p: Process, acts: seq<Action>, s: State)
    requires Reaches(servers, p, acts, s) && Disciplined(s.procs)
    ensures NoOrphans(s)
  {
    hide Do, CanDo;
    InitInv(servers, p);
    RunGuarded(Init(servers, p), acts);
    forall k ensures NoOrphan(CellOf(s, k)) {
      assert Guarded(Home(Running(s)), CellOf(s, k));
    }
  }
}
