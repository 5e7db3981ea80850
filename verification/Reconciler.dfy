/** The policy reconcilers as they are written: methods that read, change and
    write back a copy of the object, against an API server and a control plane
    that answer as they please. Every method is shown to take exactly the
    micro-steps of PolicyMachine, so what holds of every run of those steps holds
    of this code. */
module Reconciler {
  import opened Types
  import opened Conditions
  import opened Errors
  import opened Wire
  import opened Startup
  import opened ControlPlane
  import opened PolicyMachine
  import opened PolicyCell
  import H = PolicyHistory
  import O = Orphans

  // The copy of the custom resource a pass works on.
  class Resource {
    var rv: nat
    var uid: nat
    var generation: nat
    var deleting: bool
    var finalizers: seq<Finalizer>
    var spec: PolicySpec
    var observedGeneration: nat
    var confirmed: Confirmed
    const conditions: ConditionList

    constructor (rv: nat, o: Object)
      ensures this.rv == rv && Value() == o && fresh(conditions)
    {
      this.rv := rv;
      uid, generation, deleting, finalizers, spec := o.uid, o.generation, o.deleting, o.finalizers, o.spec;
      observedGeneration, confirmed := o.status.observedGeneration, o.status.confirmed;
      conditions := new ConditionList(o.status.conditions);
    }

    function Value(): Object
      reads this, conditions
    {
      Object(uid, generation, deleting, finalizers, spec, Status(conditions.items, observedGeneration, confirmed))
    }

    // An accepted write replaces the copy by the object as stored.
    method Reload(rv: nat, o: Object)
      modifies this, conditions
      ensures this.rv == rv && Value() == o
    {
      this.rv := rv;
      uid, generation, deleting, finalizers, spec := o.uid, o.generation, o.deleting, o.finalizers, o.spec;
      observedGeneration, confirmed := o.status.observedGeneration, o.status.confirmed;
      conditions.items := o.status.conditions;
    }

    // controllerutil.AddFinalizer and RemoveFinalizer
    method AddFinalizer()
      requires !Held(finalizers)
      modifies this`finalizers
      ensures Value() == old(Value()).(finalizers := old(finalizers) + [CREdges])
    {
      finalizers := finalizers + [CREdges];
    }

    method RemoveFinalizer()
      modifies this`finalizers
      ensures Value() == old(Value()).(finalizers := Without(old(finalizers), CREdges))
    {
      var kept: seq<Finalizer> := [];
      var i := |finalizers|;
      while i > 0
        invariant 0 <= i <= |finalizers|
        invariant kept == Without(finalizers[i..], CREdges)
      {
        i := i - 1;
        assert finalizers[i..][1..] == finalizers[i + 1..];
        if finalizers[i] != CREdges {
          kept := [finalizers[i]] + kept;
        }
      }
      assert finalizers[0..] == finalizers;
      finalizers := kept;
    }
  }

  // A request that has left the operator, as far as the network knows.
  datatype InFlight = UpsertTo(target: Target) | CloseTo(target: Target)

  function Sent(r: Option<Request>): Option<InFlight> {
    match r
    case None => None
    case Some(UpsertRequest(target, _, _, _)) => Some(UpsertTo(target))
    case Some(CloseRequest(target)) => Some(CloseTo(target))
  }

  // ---- what users may do, and what becomes of the object ----------------

  predicate UserMay(kind: Kind, last: Option<Object>, a: Step) {
    match a
    case Create(spec, foreign) => last.None? && KindOf(spec) == kind && !Held(foreign)
    case Edit(spec, foreign) =>
      last.Some? && KindOf(spec) == KindOf(last.value.spec) && (Held(foreign) <==> Held(last.value.finalizers))
    case Delete => last.Some?
    case _ => false
  }

  function UserWrite(n: nat, last: Option<Object>, a: Step): Option<Object> {
    match (a, last)
    case (Create(spec, foreign), _) => Some(Object(n, 1, false, foreign, spec, Status([], 0, ZeroConfirmed(spec))))
    case (Edit(spec, foreign), Some(o)) => Settle(Updated(o, o.(spec := spec, finalizers := foreign)))
    case (Delete, Some(o)) =>
      if o.finalizers == [] then None
      else if o.deleting then last
      else Some(o.(deleting := true, generation := o.generation + 1))
    case _ => last
  }

  lemma UserAppends(x: Context, kind: Kind, c: Cell, a: Step)
    requires c.versions != [] && UserMay(kind, Current(c), a)
    ensures Enabled(x, kind, c, a)
    ensures var d, next := After(x, kind, c, a), UserWrite(|c.versions|, Current(c), a);
            && d == c.(versions := d.versions) && c.versions <= d.versions
            && (if next != Current(c)
                then |d.versions| == |c.versions| + 1 && d.versions[|c.versions|].obj == next
                else d.versions == c.versions)
  {}

  // What one pass can reach: its key in the API server, the PlatformConfig, the
  // client and the edges behind it. history[rv] is the object at resourceVersion
  // rv. Everything but the copy the pass works on may move between any two of its
  // calls. The ghost cell is the same key in PolicyCell, and the ghost trace the
  // steps taken since the pass began, by it and by others.
  class World {
    const kind: Kind
    const process: Process
    var configs: seq<ConfigVersion>
    var servers: Servers
    var history: seq<Option<Object>>
    var floor: nat
    var edges: map<Target, set<string>>
    var inFlight: Option<InFlight>
    var statusWrites: nat
    ghost var cell: Cell
    ghost var start: Cell
    ghost var trace: seq<Move>

    constructor (kind: Kind, process: Process, configs: seq<ConfigVersion>, servers: Servers,
                 history: seq<Option<Object>>, floor: nat, edges: map<Target, set<string>>,
                 inFlight: Option<InFlight>, ghost cell: Cell)
      requires floor < |history| == |cell.versions| && cell.floor == floor && cell.edges == edges
      requires inFlight == Sent(cell.pending)
      requires forall i :: 0 <= i < |history| ==> history[i] == cell.versions[i].obj
      ensures Valid() && this.cell == cell && this.kind == kind && this.process == process
    {
      this.kind, this.process, this.configs, this.servers := kind, process, configs, servers;
      this.history, this.floor, this.edges, this.inFlight, this.statusWrites := history, floor, edges, inFlight, 0;
      this.cell, this.start, this.trace := cell, cell, [];
    }

    ghost function X(): Context
      reads this
    {
      Context(configs, process, servers)
    }

    ghost predicate Valid()
      reads this
    {
      && 0 <= floor < |history| == |cell.versions| && cell.floor == floor
      && cell.edges == edges && inFlight == Sent(cell.pending)
      && (forall i :: 0 <= i < |history| ==> history[i] == cell.versions[i].obj)
      && Traced()
    }

    // The trace is a run of this process, and leads from start to cell.
    ghost predicate Traced()
      reads this
    {
      && (forall i :: 0 <= i < |trace| ==> trace[i].x.process == process)
      && MovesValid(kind, start, trace) && MovesAfter(kind, start, trace) == cell
    }

    // The specification takes one step.
    ghost method Advance(a: Step)
      requires Traced() && Enabled(X(), kind, cell, a)
      modifies this`cell, this`trace
      ensures cell == After(X(), kind, old(cell), a) && Traced()
    {
      hide Enabled, After;
      var next := After(X(), kind, cell, a);
      LastMove(kind, start, trace, cell, Move(X(), a));
      cell, trace := next, trace + [Move(X(), a)];
    }

    ghost method BeginTrace()
      requires Valid()
      modifies this`start, this`trace
      ensures Valid() && start == cell
    {
      start, trace := cell, [];
    }

    // ---- the rest of the system -----------------------------------------

    // Users act on the object.
    method UserActs()
      requires Valid()
      modifies this`history, this`cell, this`trace
      ensures Valid() && cell == old(cell).(versions := cell.versions) && old(cell).versions <= cell.versions
    {
      hide After, Enabled, MovesValid, MovesAfter;
      var a: Step := *;
      var last := history[|history| - 1];
      if UserMay(kind, last, a) {
        var next := UserWrite(|history|, last, a);
        UserAppends(X(), kind, cell, a);
        Advance(a);
        if next != last {
          history := history + [next];
        }
      }
    }

    // The request in flight is served and its answer lost, or it is lost itself.
    method SettleRequest()
      requires Valid() && inFlight.Some?
      modifies this`edges, this`inFlight, this`cell, this`trace
      ensures Valid() && inFlight.None? && cell == old(cell).(pending := None, edges := cell.edges)
    {
      hide MovesValid, MovesAfter, AfterUpsert, AfterClose, Write, WriteAnswer, AfterWrite, AfterGate,
        PolicyMachine.Start, FlagAt;
      var served: bool, after: set<string> := *, *;
      var target := inFlight.value.target;
      var open := if target in edges then edges[target] else {};
      if !served {
        Advance(Drop);
      } else if inFlight.value.UpsertTo? {
        var reply: Reply<ReconcileResult, Error> := *;
        if !UpsertAllowed(FlagAt(servers, target.backend), open, reply, after) {
          reply, after := Err(LOST), open;
        }
        Advance(ServeUpsert(reply, after, false, 0));
        edges := edges[target := after];
      } else {
        var reply: Reply<CloseResult, Error> := *;
        if !CloseAllowed(FlagAt(servers, target.backend), open, reply, after) {
          reply, after := Err(LOST), open;
        }
        Advance(ServeClose(reply, after, false, 0));
        edges := edges[target := after];
      }
      inFlight := None;
    }

    // Any number of steps that are not the pass's own: users act, PlatformConfig
    // and the flags change, and what is in flight is settled.
    method Meanwhile()
      requires Valid()
      modifies this`configs, this`servers, this`history, this`edges, this`inFlight, this`cell, this`trace
      ensures Valid() && cell.pass == old(cell).pass && old(cell).versions <= cell.versions
      ensures cell.pending == old(cell).pending || cell.pending.None?
    {
      hide MovesValid, MovesAfter;
      var steps: int := *;
      var i := 0;
      while i < steps
        invariant Valid() && cell.pass == old(cell).pass && old(cell).versions <= cell.versions
        invariant cell.pending == old(cell).pending || cell.pending.None?
      {
        var who: int := *;
        if who == 0 {
          var version: ConfigVersion := *;
          configs := configs + [version];
        } else if who == 1 {
          var moved: Servers := *;
          servers := moved;
        } else if who == 2 && inFlight.Some? {
          SettleRequest();
        } else {
          UserActs();
        }
        i := i + 1;
      }
    }

    // ---- the API server -------------------------------------------------

    // Get, from a cache that never goes back but may lag.
    method Get() returns (r: GetReply)
      requires Valid() && (cell.pass.Idle? || cell.pass.Done?)
      modifies this`configs, this`servers, this`history, this`edges, this`inFlight, this`floor, this`cell, this`trace
      ensures Valid() && cell.pass == PolicyMachine.Start(r)
    {
      hide MovesValid, MovesAfter;
      Meanwhile();
      var fails: bool := *;
      if fails {
        Advance(BeginFailed("get"));
        return GetError("get");
      }
      var read: int := *;
      if !(floor <= read < |history|) {
        read := |history| - 1;
      }
      floor := read;
      Advance(Begin(read));
      r := if history[read].Some? then Found(read, history[read].value) else NotFound;
    }

    method GetConfig(now: nat) returns (r: GateRead)
      requires Valid() && cell.pass.AtGate?
      modifies this`configs, this`servers, this`history, this`edges, this`inFlight, this`cell, this`trace
      ensures Valid() && cell.pass == AfterGate(old(cell).pass, process.singleton, r, now)
    {
      hide MovesValid, MovesAfter, AfterGate;
      Meanwhile();
      var version: int := *;
      if 0 <= version < |configs| {
        r := match configs[version].obj
             case None => Missing
             case Some(config) => Seen(version, config.paused, config.flowProvider);
        Advance(Gate(FromCache(version), now));
      } else {
        r := Unreadable("get");
        Advance(Gate(ReadFailed("get"), now));
      }
    }

    // What a write leaves in the history, if the copy is the stored version.
    static ghost function Target(c: Cell): Option<Object>
      requires Fresh(c)
    {
      if c.pass.AtStatus? then Some(Current(c).value.(status := c.pass.cr.status))
      else Settle(Updated(Current(c).value, c.pass.cr))
    }

    static lemma StoreAppends(x: Context, kind: Kind, c: Cell, chance: Chance)
      requires Enabled(x, kind, c, Store(chance))
      ensures var d := After(x, kind, c, Store(chance));
              && d == c.(versions := d.versions, pass := AfterWrite(c.pass, WriteAnswer(c, chance)))
              && c.versions <= d.versions
              && (if Fresh(c) && !chance.FailBefore? && Target(c) != Current(c)
                  then |d.versions| == |c.versions| + 1 && d.versions[|c.versions|].obj == Target(c)
                  else d.versions == c.versions)
    {}

    // The part of both writes that changes the history.
    method Commit(rv: nat, next: Option<Object>, chance: Chance)
      requires Valid() && Writing(cell.pass) && cell.pass.rv == rv
      requires Fresh(cell) ==> next == Target(cell)
      modifies this`history, this`cell, this`trace
      ensures Valid()
      ensures cell == After(X(), kind, old(cell), Store(chance))
      ensures Fresh(old(cell)) && !chance.FailBefore? ==> |history| == |Write(old(cell))|
    {
      hide After, MovesValid, MovesAfter;
      StoreAppends(X(), kind, cell, chance);
      var current := rv == |history| - 1 && history[rv].Some?;
      assert current <==> Fresh(cell);
      Advance(Store(chance));
      if current && !chance.FailBefore? && next != history[rv] {
        history := history + [next];
      }
    }

    // Update of metadata and spec: refused unless the copy is the stored version.
    method Update(cr: Resource) returns (refused: Option<WriteError>)
      requires Valid() && (cell.pass.AtAdd? || cell.pass.AtRelease?)
      requires cell.pass.rv == cr.rv && cell.pass.cr == cr.Value()
      modifies this`configs, this`servers, this`history, this`edges, this`inFlight, this`cell, this`trace, cr,
        cr.conditions
      ensures Valid()
      ensures cell.pass == AfterWrite(old(cell).pass, Answer(refused, cr))
      ensures refused.Some? ==> cr.Value() == old(cr.Value()) && cr.rv == old(cr.rv)
    {
      hide MovesValid, MovesAfter, AfterGate, AfterUpsert, AfterClose, PolicyMachine.Start, UserWrite;
      Meanwhile();
      var lost: bool, applied: bool := *, *;
      var chance := if !lost then Deliver else if applied then LoseReply else FailBefore;
      var current := cr.rv == |history| - 1 && history[cr.rv].Some?;
      assert current <==> Fresh(cell);
      var stored := if current then Updated(history[cr.rv].value, cr.Value()) else cr.Value();
      Commit(cr.rv, Settle(stored), chance);
      if current && chance.Deliver? {
        cr.Reload(|history| - 1, stored);
        return None;
      }
      refused := Some(if chance.Deliver? then Conflict else WriteFailed("no answer"));
    }

    // Status().Update
    method UpdateStatus(cr: Resource) returns (refused: Option<WriteError>)
      requires Valid() && cell.pass.AtStatus? && cell.pass.rv == cr.rv && cell.pass.cr == cr.Value()
      modifies this`configs, this`servers, this`history, this`edges, this`inFlight, this`statusWrites, this`cell,
        this`trace
      ensures Valid() && statusWrites == old(statusWrites) + 1
      ensures cell.pass == AfterStatus(old(cell).pass, Answer(refused, cr))
    {
      hide MovesValid, MovesAfter, AfterGate, AfterUpsert, AfterClose, PolicyMachine.Start, UserWrite;
      Meanwhile();
      statusWrites := statusWrites + 1;
      var lost: bool, applied: bool := *, *;
      var chance := if !lost then Deliver else if applied then LoseReply else FailBefore;
      var current := cr.rv == |history| - 1 && history[cr.rv].Some?;
      assert current <==> Fresh(cell);
      Commit(cr.rv, if current then Some(history[cr.rv].value.(status := cr.Value().status)) else None, chance);
      if current && chance.Deliver? {
        return None;
      }
      refused := Some(if chance.Deliver? then Conflict else WriteFailed("no answer"));
    }

    // ---- the client -----------------------------------------------------

    // A configured process sends a request; what was in flight is settled by now.
    method SendRequest(request: InFlight, now: nat)
      requires Valid() && process.Configured? && request.target == process.target
      requires if request.UpsertTo? then cell.pass.AtUpsert? else cell.pass.AtClose?
      modifies this`edges, this`inFlight, this`cell, this`trace
      ensures Valid() && inFlight == Some(request)
      ensures var p := old(cell).pass;
              cell.pass == if request.UpsertTo? then AwaitUpsert(p.rv, p.cr, p.gate) else AwaitClose(p.rv, p.cr)
    {
      hide MovesValid, MovesAfter, AfterUpsert, AfterClose, ToWire;
      if inFlight.Some? {
        SettleRequest();
      }
      Advance(Send(now));
      inFlight := Some(request);
    }

    // The reconcile endpoints. An unconfigured client answers before a request
    // is built. Otherwise what was in flight is settled by now, and the control
    // plane serves the request and its answer arrives or is lost, or the request
    // itself is lost.
    method CallReconcile(wire: WireSpec, now: nat) returns (r: Reply<ReconcileResult, Error>)
      requires Valid() && cell.pass.AtUpsert? && wire == ToWire(cell.pass.cr.spec)
      modifies this`configs, this`servers, this`history, this`edges, this`inFlight, this`cell, this`trace
      ensures Valid()
      ensures var p := old(cell).pass;
              cell.pass == AfterUpsert(AwaitUpsert(p.rv, p.cr, p.gate), r, now)
    {
      hide MovesValid, MovesAfter, AfterUpsert, AfterClose, Write, WriteAnswer, AfterWrite, AfterGate,
        PolicyMachine.Start, ToWire, FlagAt, Put, Settle, Updated;
      Meanwhile();
      if process.NotConfigured? {
        Advance(Send(now));
        return Err(Unconfigured(process.missing));
      }
      SendRequest(UpsertTo(process.target), now);
      Meanwhile();
      var answered: bool := *;
      if answered && inFlight.Some? {
        r := AnswerUpsert(now);
        return;
      }
      Advance(Timeout(now));
      r := Err(LOST);
    }

    method AnswerUpsert(now: nat) returns (r: Reply<ReconcileResult, Error>)
      requires Valid() && cell.pass.AwaitUpsert? && cell.pending.Some? && cell.pending.value.UpsertRequest?
      modifies this`edges, this`inFlight, this`cell, this`trace
      ensures Valid() && cell.pass == AfterUpsert(old(cell).pass, r, now)
    {
      hide MovesValid, MovesAfter, AfterUpsert, AfterClose, Write, WriteAnswer, AfterWrite, AfterGate,
        PolicyMachine.Start, ToWire, FlagAt, Put, Settle, Updated;
      var target := inFlight.value.target;
      var open := if target in edges then edges[target] else {};
      var reply: Reply<ReconcileResult, Error>, after: set<string> := *, *;
      if !UpsertAllowed(FlagAt(servers, target.backend), open, reply, after) {
        reply, after := Err(LOST), open;
      }
      Advance(ServeUpsert(reply, after, true, now));
      edges, inFlight := edges[target := after], None;
      r := reply;
    }

    method CallClose(now: nat) returns (r: Reply<CloseResult, Error>)
      requires Valid() && cell.pass.AtClose?
      modifies this`configs, this`servers, this`history, this`edges, this`inFlight, this`cell, this`trace
      ensures Valid()
      ensures cell.pass == AfterClose(AwaitClose(old(cell).pass.rv, old(cell).pass.cr), r, now)
    {
      hide MovesValid, MovesAfter, AfterUpsert, AfterClose, Write, WriteAnswer, AfterWrite, AfterGate,
        PolicyMachine.Start, FlagAt, Put, Settle, Updated;
      Meanwhile();
      if process.NotConfigured? {
        Advance(Send(now));
        return Err(Unconfigured(process.missing));
      }
      SendRequest(CloseTo(process.target), now);
      Meanwhile();
      var answered: bool := *;
      if answered && inFlight.Some? {
        r := AnswerClose(now);
        return;
      }
      Advance(Timeout(now));
      r := Err(LOST);
    }

    method AnswerClose(now: nat) returns (r: Reply<CloseResult, Error>)
      requires Valid() && cell.pass.AwaitClose? && cell.pending.Some? && cell.pending.value.CloseRequest?
      modifies this`edges, this`inFlight, this`cell, this`trace
      ensures Valid() && cell.pass == AfterClose(old(cell).pass, r, now)
    {
      hide MovesValid, MovesAfter, AfterUpsert, AfterClose, Write, WriteAnswer, AfterWrite, AfterGate,
        PolicyMachine.Start, FlagAt, Put, Settle, Updated;
      var target := inFlight.value.target;
      var open := if target in edges then edges[target] else {};
      var reply: Reply<CloseResult, Error>, after: set<string> := *, *;
      if !CloseAllowed(FlagAt(servers, target.backend), open, reply, after) {
        reply, after := Err(LOST), open;
      }
      Advance(ServeClose(reply, after, true, now));
      edges, inFlight := edges[target := after], None;
      r := reply;
    }
  }

  // Answers a pass has not had, or will not need.
  ghost const NOTHING_YET := Answers(NotFound, Missing, Refused(Conflict), Err(LOST), Err(LOST), Refused(Conflict))

  ghost function Answer(refused: Option<WriteError>, cr: Resource): WriteReply
    reads cr, cr.conditions
  {
    if refused.None? then Accepted(cr.rv, cr.Value()) else Refused(refused.value)
  }

  class PolicyReconciler {
    const singleton: string

    constructor (singleton: string)
      ensures this.singleton == singleton
    {
      this.singleton := singleton;
    }

    // checkPauseGate
    method CheckGate(w: World, now: nat) returns (gate: Gate, ghost r: GateRead)
      requires w.Valid() && w.cell.pass.AtGate? && w.process.singleton == singleton
      modifies w`configs, w`servers, w`history, w`edges, w`inFlight, w`cell, w`trace
      ensures w.Valid()
      ensures gate == CheckPauseGate(singleton, r)
      ensures w.cell.pass == AfterGate(old(w.cell).pass, singleton, r, now)
    {
      var read := w.GetConfig(now);
      r := read;
      match read
      case Missing =>
        gate := Shut(PlatformConfigMissing, GateMessage(singleton, ""));
      case Unreadable(text) =>
        gate := Shut(PlatformConfigUnreadable, GateMessage(singleton, text));
      case Seen(version, paused, flowProvider) =>
        if paused {
          gate := Shut(Paused, GateMessage(singleton, ""));
        } else {
          gate := Open(Opening(singleton, version, flowProvider));
        }
    }

    // notReady
    method NotReady(w: World, cr: Resource, reason: Reason, message: Message, delay: nat, now: nat)
      returns (out: Outcome, ghost status: WriteReply)
      requires w.Valid() && w.cell.pass == NotReadyPass(cr.rv, cr.Value(), reason, message, delay, now)
      modifies w`configs, w`servers, w`history, w`edges, w`inFlight, w`statusWrites, w`cell, w`trace, cr.conditions
      ensures w.statusWrites == old(w.statusWrites) + 1
      ensures w.Valid() && w.cell.pass == Done(out) && out == Finish(old(w.cell).pass, status)
      ensures delay == 0 ==> out.error.Some?
    {
      cr.conditions.Set(cr.generation, Ready, StatusFalse, reason, message, now);
      var refused := w.UpdateStatus(cr);
      status := Answer(refused, cr);
      if refused.Some? {
        out := Outcome(0, Some(UpdatingStatus(reason, refused.value)));
        return;
      }
      if delay > 0 {
        out := Outcome(delay, None);
        return;
      }
      out := Outcome(0, Some(PassError.NotReady(reason, message)));
    }

    // reconcileError. The last return of each branch that reaches notReady with
    // no delay is never taken: notReady itself returns the error.
    method ReconcileError(w: World, cr: Resource, e: Error, now: nat) returns (out: Outcome, ghost status: WriteReply)
      requires w.Valid()
      requires var plan := FailurePlan(KindOf(cr.spec), e);
               w.cell.pass == NotReadyPass(cr.rv, cr.Value(), plan.0, CallFailed(e), plan.1, now)
      modifies w`configs, w`servers, w`history, w`edges, w`inFlight, w`statusWrites, w`cell, w`trace, cr.conditions
      ensures w.statusWrites == old(w.statusWrites) + 1
      ensures w.Valid() && w.cell.pass == Done(out) && out == Finish(old(w.cell).pass, status)
    {
      hide MovesValid, MovesAfter, NotReadyPass, Finish;
      if IsUnconfigured(e) {
        out, status := NotReady(w, cr, AwaitingConfiguration, CallFailed(e), UNCONFIGURED_REQUEUE, now);
        return;
      }
      if IsPaused(e) {
        out, status := NotReady(w, cr, Paused, CallFailed(e), PAUSED_REQUEUE, now);
        return;
      }
      if cr.spec.RuntimeSpec? && IsProviderUnavailable(e) {
        out, status := NotReady(w, cr, ProviderUnavailable, CallFailed(e), PAUSED_REQUEUE, now);
        return;
      }
      if AsApi(e).Some? {
        var reason := ReconcileFailed;
        if IsWriteNotVerified(e) {
          reason := WriteNotVerified;
        }
        out, status := NotReady(w, cr, reason, CallFailed(e), 0, now);
        return;
      }
      out, status := NotReady(w, cr, BackendUnreachable, CallFailed(e), 0, now);
      if out.error.None? {
        assert false;
      }
    }

    // finalize
    method Finalize(w: World, cr: Resource, ghost a: Answers, now: nat) returns (out: Outcome, ghost b: Answers)
      requires w.Valid()
      requires w.cell.pass == Start(Found(cr.rv, cr.Value())) && cr.deleting
      modifies w`configs, w`servers, w`history, w`edges, w`inFlight, w`statusWrites, w`cell, w`trace, cr, cr.conditions
      ensures w.Valid() && w.cell.pass == Done(out)
      ensures out == if Held(old(cr.finalizers)) then ClosingOutcome(old(cr.rv), old(cr.Value()), b, now)
                     else Outcome(0, None)
      ensures b.get == a.get
      ensures w.statusWrites == old(w.statusWrites) +
                (if Held(old(cr.finalizers))
                    && AfterClose(AwaitClose(old(cr.rv), old(cr.Value())), b.close, now).AtStatus?
                 then 1 else 0)
    {
      hide MovesValid, MovesAfter;
      b := a;
      if !Held(cr.finalizers) {
        out := Outcome(0, None);
        return;
      }
      var r := w.CallClose(now);
      b := b.(close := r);
      if r.Err? {
        if IsUnconfigured(r.error) {
          out, b := Release(w, cr, b);
        } else if IsPaused(r.error) {
          ghost var status;
          out, status := NotReady(w, cr, Paused, CallFailed(r.error), PAUSED_REQUEUE, now);
          b := b.(status := status);
        } else {
          ghost var status;
          out, status := NotReady(w, cr, CloseFailed, CallFailed(r.error), 0, now);
          b := b.(status := status);
        }
        return;
      }
      if r.value.status != "ok" || |r.value.unverifiedEdgeKeys| > 0 {
        ghost var status;
        var why := CloseUnconfirmed(r.value.status, |r.value.unverifiedEdgeKeys|);
        out, status := NotReady(w, cr, CloseFailed, why, 0, now);
        b := b.(status := status);
        return;
      }
      out, b := Release(w, cr, b);
    }

    // The end of finalize, the same after a confirmed close and without one.
    method Release(w: World, cr: Resource, ghost a: Answers) returns (out: Outcome, ghost b: Answers)
      requires w.Valid()
      requires w.cell.pass == AtRelease(cr.rv, cr.Value().(finalizers := Without(cr.finalizers, CREdges)))
      modifies w`configs, w`servers, w`history, w`edges, w`inFlight, w`statusWrites, w`cell, w`trace, cr, cr.conditions
      ensures w.Valid() && w.cell.pass == Done(out)
      ensures b == a.(update := b.update) && out == Finish(old(w.cell).pass, b.update)
      ensures w.statusWrites == old(w.statusWrites)
    {
      hide MovesValid, MovesAfter;
      cr.RemoveFinalizer();
      var refused := w.Update(cr);
      b := a.(update := Answer(refused, cr));
      out := Outcome(0, if refused.Some? then Some(RemovingFinalizer(refused.value)) else None);
    }

    // The spec as it is sent.
    method WireOf(spec: PolicySpec) returns (wire: WireSpec)
      ensures wire == ToWire(spec)
    {
      if spec.SegmentationSpec? {
        wire := ToWireSpec(spec);
      } else {
        wire := WireRuntime(Entries(spec.matchLabels), spec.tracingPolicyRef, Items(spec.deniedBinaries));
      }
    }

    // The confirmed-success path: status from the result, then the write.
    method RecordSuccess(w: World, cr: Resource, provider: string, res: ReconcileResult, now: nat)
      returns (out: Outcome, ghost status: WriteReply)
      requires w.Valid()
      requires w.cell.pass == AtStatus(cr.rv, cr.Value().(status := SuccessStatus(cr.Value(), provider, res, now)),
                                       Confirming(ConfirmedValue(cr.spec, provider, res)),
                                       Outcome(RESYNC_INTERVAL, None))
      modifies w`configs, w`servers, w`history, w`edges, w`inFlight, w`statusWrites, w`cell, w`trace, cr, cr.conditions
      ensures w.Valid() && w.cell.pass == Done(out) && out == Finish(old(w.cell).pass, status)
      ensures w.statusWrites == old(w.statusWrites) + 1
    {
      if cr.spec.SegmentationSpec? {
        var resolved := cr.spec.providerRef;
        if resolved == "" {
          resolved := provider;
        }
        cr.confirmed := ResolvedFlowProvider(resolved);
      } else {
        cr.confirmed := CorrelatedEvidenceCount(res.edgesUpserted);
      }
      cr.observedGeneration := cr.generation;
      cr.conditions.Set(cr.generation, Ready, StatusTrue, Reconciled, ReadyMessage(res), now);
      var refused := w.UpdateStatus(cr);
      status := Answer(refused, cr);
      if refused.Some? {
        out := Outcome(0, Some(UpdatingStatus(Reconciled, refused.value)));
        return;
      }
      out := Outcome(RESYNC_INTERVAL, None);
    }

    // The part of Reconcile that needs the finalizer on and the gate open.
    method Call(w: World, cr: Resource, gate: Opening, ghost a: Answers, now: nat)
      returns (out: Outcome, ghost b: Answers)
      requires w.Valid() && w.cell.pass.AtUpsert? && w.cell.pass.gate == gate
      requires w.cell.pass.rv == cr.rv && w.cell.pass.cr == cr.Value()
      modifies w`configs, w`servers, w`history, w`edges, w`inFlight, w`statusWrites, w`cell, w`trace, cr, cr.conditions
      ensures w.Valid() && w.cell.pass == Done(out) && out == CallOutcome(old(w.cell).pass, b, now)
      ensures b == a.(upsert := b.upsert, status := b.status)
      ensures w.statusWrites == old(w.statusWrites) + 1
    {
      hide MovesValid, MovesAfter, NotReadyPass, FailurePlan, SuccessStatus, ConfirmedValue, ToWire;
      var wire := WireOf(cr.spec);
      var r := w.CallReconcile(wire, now);
      ghost var status;
      if r.Err? {
        out, status := ReconcileError(w, cr, r.error, now);
      } else {
        var why := Inconsistent(KindOf(cr.spec), r.value);
        if why.Some? {
          out, status := NotReady(w, cr, WriteNotVerified, Unconfirmed(why.value), 0, now);
        } else {
          out, status := RecordSuccess(w, cr, gate.provider, r.value, now);
        }
      }
      b := a.(upsert := r, status := status);
    }

    // The part of Reconcile over a live object: gate, finalizer, call.
    method Live(w: World, cr: Resource, ghost a: Answers, now: nat) returns (out: Outcome, ghost b: Answers)
      requires w.Valid() && w.process.singleton == singleton
      requires w.cell.pass == AtGate(cr.rv, cr.Value())
      modifies w`configs, w`servers, w`history, w`edges, w`inFlight, w`statusWrites, w`cell, w`trace, cr, cr.conditions
      ensures w.Valid() && w.cell.pass == Done(out) && b.get == a.get
      ensures out == LiveOutcome(old(w.cell).pass, singleton, b, now)
      ensures w.statusWrites == old(w.statusWrites) +
                (if LiveAttempts(old(w.cell).pass, singleton, b, now) then 1 else 0)
    {
      hide MovesValid, MovesAfter, CallOutcome, Finish, AfterUpsert, FailureStatus;
      var gate;
      ghost var read, status;
      gate, read := CheckGate(w, now);
      b := a.(gate := read);
      if gate.Shut? {
        out, status := NotReady(w, cr, gate.reason, gate.message, PAUSED_REQUEUE, now);
        b := b.(status := status);
        return;
      }
      if !Held(cr.finalizers) {
        cr.AddFinalizer();
        var refused := w.Update(cr);
        b := b.(update := Answer(refused, cr));
        if refused.Some? {
          out := Outcome(0, Some(AddingFinalizer(refused.value)));
          return;
        }
      }
      out, b := Call(w, cr, gate.opening, b, now);
      CallAttempts(gate.opening, b, now);
    }

    // Reconcile: whatever the world answers, and whatever else happens in it
    // meanwhile, the pass runs to its end by the steps of the specification, from
    // the state it began in; what it returns is the specified outcome of the
    // answers it was given, and it writes status exactly when specified.
    method Reconcile(w: World, now: nat) returns (out: Outcome, ghost a: Answers)
      requires w.Valid() && (w.cell.pass.Idle? || w.cell.pass.Done?) && w.process.singleton == singleton
      modifies w
      ensures w.Valid() && w.start == old(w.cell) && w.cell.pass == Done(out)
      ensures out == PassOutcome(singleton, a, now)
      ensures w.statusWrites == old(w.statusWrites) + if AttemptsStatus(singleton, a, now) then 1 else 0
    {
      hide MovesValid, MovesAfter, ClosingOutcome, LiveOutcome, LiveAttempts, AfterClose;
      w.BeginTrace();
      var got := w.Get();
      a := NOTHING_YET.(get := got);
      if got.NotFound? {
        out := Outcome(0, None);
        return;
      }
      if got.GetError? {
        out := Outcome(0, Some(GetFailed(got.text)));
        return;
      }
      var cr := new Resource(got.rv, got.cr);
      if cr.deleting {
        out, a := Finalize(w, cr, a, now);
      } else {
        out, a := Live(w, cr, a, now);
      }
    }
  }

  // Every answer to the call leads to a status write.
  lemma CallAttempts(gate: Opening, a: Answers, now: nat)
    ensures forall rv, cr :: AfterUpsert(AwaitUpsert(rv, cr, gate), a.upsert, now).AtStatus?
  {}

  // What the runs of the specification keep, this code keeps: the history is as
  // PolicyHistory says, and with a consistently configured process no edge is
  // left without an object that holds the finalizer.
  lemma {:induction false} RunsKeep(process: Process, kind: Kind, c: Cell, moves: seq<Move>)
    requires H.Inv(c) && MovesValid(kind, c, moves)
    requires forall i :: 0 <= i < |moves| ==> moves[i].x.process == process
    ensures var d := MovesAfter(kind, c, moves); H.Inv(d) && H.Grows(c, d)
    ensures O.Guarded(Home(process), c) ==>
              var d := MovesAfter(kind, c, moves); O.Guarded(Home(process), d) && O.NoOrphan(d)
    decreases |moves|
  {
    hide After, Enabled, H.Inv;
    if moves != [] {
      var x, a := moves[0].x, moves[0].step;
      H.StepKeeps(x, kind, c, a);
      if O.Guarded(Home(process), c) {
        O.StepGuarded(x, kind, c, a);
      }
      assert forall i :: 0 <= i < |moves[1..]| ==> moves[1..][i] == moves[i + 1];
      RunsKeep(process, kind, After(x, kind, c, a), moves[1..]);
    }
  }

  // So it is of a pass, which leaves its world with a trace from where it began.
  lemma PassesKeep(w: World)
    requires w.Valid() && H.Inv(w.start)
    ensures H.Inv(w.cell) && H.Grows(w.start, w.cell)
    ensures O.Guarded(Home(w.process), w.start) ==> O.Guarded(Home(w.process), w.cell) && O.NoOrphan(w.cell)
  {
    RunsKeep(w.process, w.kind, w.start, w.trace);
  }
}
