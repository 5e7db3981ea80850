/** The PlatformConfig reconciler as it is written, shown to take exactly the
    steps of ConfigCell. */
module ConfigReconciler {
  import opened Types
  import opened Conditions
  import opened Errors
  import opened Startup
  import opened ControlPlane
  import opened Providers
  import opened ConfigCell

  // The copy of the PlatformConfig a pass works on.
  class Resource {
    var rv: nat
    var uid: nat
    var generation: nat
    var paused: bool
    var flowProvider: string
    var observedGeneration: nat
    var providerHealth: seq<HealthEntry>
    const conditions: ConditionList

    constructor (rv: nat, o: Config)
      ensures this.rv == rv && Value() == o && fresh(conditions)
    {
      this.rv := rv;
      uid, generation, paused, flowProvider := o.uid, o.generation, o.paused, o.flowProvider;
      observedGeneration, providerHealth := o.status.observedGeneration, o.status.providerHealth;
      conditions := new ConditionList(o.status.conditions);
    }

    function Value(): Config
      reads this, conditions
    {
      Config(uid, generation, paused, flowProvider,
             ConfigStatus(conditions.items, observedGeneration, providerHealth))
    }
  }

  // ---- what users may do, and what becomes of the object ----------------

  predicate UserMay(last: Option<Config>, a: Step) {
    if a.Create? then last.None? else ByUser(a) && last.Some?
  }

  function UserWrite(n: nat, last: Option<Config>, a: Step): Option<Config> {
    match (a, last)
    case (Create(p, flowProvider), _) => Some(Config(n, 1, p, flowProvider, ConfigStatus([], 0, [])))
    case (Edit(p, flowProvider), Some(o)) =>
      if o.paused == p && o.flowProvider == flowProvider then last
      else Some(o.(paused := p, flowProvider := flowProvider, generation := o.generation + 1))
    case (Delete, _) => None
    case _ => last
  }

  lemma UserAppends(process: Process, servers: Servers, name: string, c: Cell, a: Step)
    requires c.versions != [] && UserMay(Current(c), a)
    ensures Enabled(process, servers, c, a)
    ensures var d, next := After(process, servers, name, c, a), UserWrite(|c.versions|, Current(c), a);
            && d == c.(versions := d.versions) && c.versions <= d.versions
            && (if next != Current(c)
                then |d.versions| == |c.versions| + 1 && d.versions[|c.versions|].obj == next
                else d.versions == c.versions)
  {}

  // One name in the API server, and the control planes. history[rv] is the object
  // at resourceVersion rv; inFlight is where a push is on its way to, and what it
  // asks for; sent are the values this process has pushed. Users and flags may
  // move between any two calls of a pass. cell, start and trace are its
  // specification.
  class World {
    const process: Process
    const name: string
    var servers: Servers
    var history: seq<Option<Config>>
    var floor: nat
    var inFlight: Option<(string, bool)>
    var sent: seq<bool>
    var statusWrites: nat
    ghost var cell: Cell
    ghost var start: Cell
    ghost var trace: seq<Move>

    constructor (process: Process, name: string, servers: Servers, history: seq<Option<Config>>, floor: nat,
                 inFlight: Option<(string, bool)>, ghost cell: Cell)
      requires floor < |history| == |cell.versions| && cell.floor == floor && inFlight == Sent(cell.pending)
      requires forall i :: 0 <= i < |history| ==> history[i] == cell.versions[i].obj
      ensures Valid() && this.cell == cell && this.process == process && this.name == name && sent == []
    {
      this.process, this.name, this.servers, this.history := process, name, servers, history;
      this.floor, this.inFlight, this.sent, this.statusWrites := floor, inFlight, [], 0;
      this.cell, this.start, this.trace := cell, cell, [];
    }

    static function Sent(p: Option<Push>): Option<(string, bool)> {
      match p
      case None => None
      case Some(push) => Some((push.target.backend, push.wanted))
    }

    ghost predicate Valid()
      reads this
    {
      && 0 <= floor < |history| == |cell.versions| && cell.floor == floor && inFlight == Sent(cell.pending)
      && (forall i :: 0 <= i < |history| ==> history[i] == cell.versions[i].obj)
      && Traced()
    }

    ghost predicate Traced()
      reads this
    {
      MovesValid(process, name, start, trace) && MovesAfter(process, name, start, trace) == cell
    }

    ghost method Advance(a: Step)
      requires Traced() && Enabled(process, servers, cell, a)
      modifies this`cell, this`trace
      ensures cell == After(process, servers, name, old(cell), a) && Traced()
    {
      hide Enabled, After;
      var next := After(process, servers, name, cell, a);
      LastMove(process, name, start, trace, cell, Move(servers, a));
      cell, trace := next, trace + [Move(servers, a)];
    }

    ghost method BeginTrace()
      requires Valid()
      modifies this`start, this`trace
      ensures Valid() && start == cell
    {
      start, trace := cell, [];
    }

    // ---- the rest of the system -----------------------------------------

    method UserActs()
      requires Valid()
      modifies this`history, this`cell, this`trace
      ensures Valid() && cell == old(cell).(versions := cell.versions) && old(cell).versions <= cell.versions
    {
      hide After, Enabled, MovesValid, MovesAfter;
      var a: Step := *;
      var last := history[|history| - 1];
      if UserMay(last, a) {
        var next := UserWrite(|history|, last, a);
        UserAppends(process, servers, name, cell, a);
        Advance(a);
        if next != last {
          history := history + [next];
        }
      }
    }

    // The push in flight is served and its answer lost, or it is lost itself.
    method SettlePush()
      requires Valid() && inFlight.Some?
      modifies this`servers, this`inFlight, this`cell, this`trace
      ensures Valid() && inFlight.None? && cell == old(cell).(pending := None)
    {
      hide MovesValid, MovesAfter, AfterPush, AfterHealth, Write, Put, AfterStatus, ConfigCell.Start, FlagAt;
      var served: bool, applied: bool := *, *;
      if served {
        Advance(ServePush(applied, Err(LOST), false, 0));
        if applied {
          servers := WriteFlag(servers, inFlight.value.0, OutOfBand(inFlight.value.1));
        }
      } else {
        Advance(Drop);
      }
      inFlight := None;
    }

    // Any number of steps that are not the pass's own.
    method Meanwhile()
      requires Valid()
      modifies this`servers, this`history, this`inFlight, this`cell, this`trace
      ensures Valid() && cell.pass == old(cell).pass && old(cell).versions <= cell.versions
      ensures cell.confirmed == old(cell).confirmed
      ensures cell.pending == old(cell).pending || cell.pending.None?
    {
      hide MovesValid, MovesAfter;
      var steps: int := *;
      var i := 0;
      while i < steps
        invariant Valid() && cell.pass == old(cell).pass && old(cell).versions <= cell.versions
        invariant cell.confirmed == old(cell).confirmed
        invariant cell.pending == old(cell).pending || cell.pending.None?
      {
        var who: int := *;
        if who == 0 {
          var moved: Servers := *;
          servers := moved;
        } else if who == 1 && inFlight.Some? {
          SettlePush();
        } else {
          UserActs();
        }
        i := i + 1;
      }
    }

    // ---- the API server -------------------------------------------------

    method Get(now: nat) returns (r: GetReply)
      requires Valid() && (cell.pass.Idle? || cell.pass.Done?)
      modifies this`servers, this`history, this`inFlight, this`floor, this`cell, this`trace
      ensures Valid() && cell.pass == ConfigCell.Start(process.singleton, name, r, now)
      ensures r.Found? ==> r.rv == floor && cell.versions[floor].obj == Some(r.cr)
    {
      hide MovesValid, MovesAfter, Stamp;
      Meanwhile();
      var fails: bool := *;
      if fails {
        Advance(BeginFailed("get"));
        return GetError("get");
      }
      var read: int := *;
      if !(floor <= read < |history|) {
        read := |history| - 1;
      }
      floor := read;
      Advance(Begin(read, now));
      r := if history[read].Some? then Found(read, history[read].value) else NotFound;
    }

    method UpdateStatus(cr: Resource) returns (refused: Option<WriteError>)
      requires Valid() && cell.pass.AtStatus? && cell.pass.rv == cr.rv && cell.pass.cr == cr.Value()
      modifies this`servers, this`history, this`inFlight, this`statusWrites, this`cell, this`trace
      ensures Valid() && cell.pass == AfterStatus(old(cell).pass, refused) && statusWrites == old(statusWrites) + 1
      ensures old(cell).versions <= cell.versions && cell.confirmed == old(cell).confirmed
    {
      hide MovesValid, MovesAfter, AfterPush, AfterHealth, ConfigCell.Start, UserWrite;
      Meanwhile();
      statusWrites := statusWrites + 1;
      var lost: bool, applied: bool := *, *;
      var chance := if !lost then Deliver else if applied then LoseReply else FailBefore;
      var current := cr.rv == |history| - 1 && history[cr.rv].Some?;
      assert current <==> Fresh(cell);
      Advance(Store(chance));
      if current && !chance.FailBefore? {
        var next := Some(history[cr.rv].value.(status := cr.Value().status));
        if next != history[cr.rv] {
          history := history + [next];
        }
      }
      refused := if !chance.Deliver? then Some(WriteFailed("no answer"))
                 else if current then None else Some(Conflict);
    }

    // ---- the client -----------------------------------------------------

    method SendPush(wanted: bool, now: nat)
      requires Valid() && process.Configured? && cell.pass.AtPush? && wanted == cell.pass.cr.paused
      modifies this`servers, this`inFlight, this`sent, this`cell, this`trace
      ensures Valid() && inFlight == Some((process.target.backend, wanted)) && sent == old(sent) + [wanted]
      ensures cell.pass == AwaitPush(old(cell).pass.rv, old(cell).pass.cr)
      ensures cell.pending.Some? && cell.pending.value.at == old(cell).pass.rv
      ensures cell.versions == old(cell).versions && cell.confirmed == old(cell).confirmed
    {
      hide MovesValid, MovesAfter, AfterPush, AfterHealth;
      if inFlight.Some? {
        SettlePush();
      }
      Advance(Send(now));
      inFlight, sent := Some((process.target.backend, wanted)), sent + [wanted];
    }

    // SetPaused: applied or not, answered or not. The reply is the flag's value
    // once it was served.
    method SetPaused(wanted: bool, now: nat) returns (r: Reply<bool, Error>)
      requires Valid() && cell.pass.AtPush? && wanted == cell.pass.cr.paused
      modifies this`servers, this`history, this`inFlight, this`sent, this`cell, this`trace
      ensures Valid() && old(cell).versions <= cell.versions
      ensures cell.pass == AfterPush(AwaitPush(old(cell).pass.rv, old(cell).pass.cr), r, now)
      ensures sent == old(sent) || sent == old(sent) + [wanted]
      ensures r == Ok(wanted) ==>
                && sent == old(sent) + [wanted] && old(cell).pass.rv in cell.confirmed
                && process.Configured? && FlagAt(servers, process.target.backend) == wanted
    {
      hide MovesValid, MovesAfter, AfterPush, AfterHealth, Enabled, After, FlagAt;
      Meanwhile();
      if process.NotConfigured? {
        AdvanceUnconfigured(now);
        return Err(Unconfigured(process.missing));
      }
      SendPush(wanted, now);
      Meanwhile();
      var answered: bool := *;
      if answered && inFlight.Some? {
        r := AnswerPush(now);
        return;
      }
      GiveUp(now);
      r := Err(LOST);
    }

    ghost method AdvanceUnconfigured(now: nat)
      requires Valid() && process.NotConfigured? && cell.pass.AtPush?
      modifies this`cell, this`trace
      ensures Valid()
      ensures var p := old(cell).pass;
              cell == old(cell).(pass := AfterPush(AwaitPush(p.rv, p.cr), Err(Unconfigured(process.missing)), now))
    {
      hide MovesValid, MovesAfter, AfterPush;
      Advance(Send(now));
    }

    ghost method GiveUp(now: nat)
      requires Valid() && cell.pass.AwaitPush?
      modifies this`cell, this`trace
      ensures Valid() && cell == old(cell).(pass := AfterPush(old(cell).pass, Err(LOST), now))
    {
      hide MovesValid, MovesAfter, AfterPush;
      Advance(Timeout(now));
    }

    method AnswerPush(now: nat) returns (r: Reply<bool, Error>)
      requires Valid() && cell.pass.AwaitPush? && cell.pending.Some?
      modifies this`servers, this`inFlight, this`cell, this`trace
      ensures Valid() && cell.versions == old(cell).versions
      ensures cell.pass == AfterPush(old(cell).pass, r, now)
      ensures var push := old(cell).pending.value;
              r == Ok(push.wanted) ==>
                push.at in cell.confirmed && FlagAt(servers, push.target.backend) == push.wanted
    {
      hide MovesValid, MovesAfter, AfterPush, AfterHealth, Write, Put, AfterStatus, ConfigCell.Start, FlagAt, WriteFlag;
      var applied: bool, reply: Reply<bool, Error> := *, *;
      var backend, wanted := inFlight.value.0, inFlight.value.1;
      if !PushAllowed(FlagAt(servers, backend), wanted, applied, reply) {
        reply := Err(LOST);
      }
      Advance(ServePush(applied, reply, true, now));
      if applied {
        WriteFlagAt(servers, backend, OutOfBand(wanted), backend);
        servers := WriteFlag(servers, backend, OutOfBand(wanted));
      }
      inFlight := None;
      r := reply;
    }

    method ProviderHealth(now: nat) returns (r: Reply<seq<ProviderReport>, Error>)
      requires Valid() && cell.pass.AtHealth?
      modifies this`servers, this`history, this`inFlight, this`cell, this`trace
      ensures Valid() && old(cell).versions <= cell.versions && cell.pass == AfterHealth(old(cell).pass, r, now)
      ensures cell.confirmed == old(cell).confirmed
    {
      hide MovesValid, MovesAfter, AfterHealth;
      Meanwhile();
      r := *;
      if !HealthAllowed(process, r) {
        r := if process.NotConfigured? then Err(Unconfigured(process.missing)) else Err(LOST);
      }
      Advance(Health(r, now));
    }
  }

  class PlatformConfigReconciler {
    const singleton: string

    constructor (singleton: string)
      ensures this.singleton == singleton
    {
      this.singleton := singleton;
    }

    // The reason follows from what is at the root of the error, however wrapped.
    method PauseReason(e: Error) returns (reason: Reason)
      ensures reason == AwaitingConfiguration <==> Root(e).Unconfigured?
      ensures reason == ReconcileFailed <==> Root(e).Api?
      ensures reason == BackendUnreachable <==> Root(e).Opaque?
    {
      RootDecides(e);
      if IsUnconfigured(e) {
        return AwaitingConfiguration;
      }
      if AsApi(e).Some? {
        return ReconcileFailed;
      }
      reason := BackendUnreachable;
    }

    method NotReady(w: World, cr: Resource, reason: Reason, message: Message, now: nat)
      returns (out: Outcome, ghost refusal: Option<WriteError>)
      requires w.Valid() && w.cell.pass == NotReadyPass(cr.rv, cr.Value(), reason, message, now)
      modifies w`servers, w`history, w`inFlight, w`statusWrites, w`cell, w`trace, cr.conditions
      ensures w.statusWrites == old(w.statusWrites) + 1 && w.cell.confirmed == old(w.cell).confirmed
      ensures w.Valid() && w.cell.pass == Done(out) && out == Finish(old(w.cell).pass, refusal)
      ensures out.error.Some? && out.requeueAfter == 0
      ensures old(w.cell).versions <= w.cell.versions
    {
      hide MovesValid, MovesAfter;
      cr.conditions.Set(cr.generation, Ready, StatusFalse, reason, message, now);
      var refused := w.UpdateStatus(cr);
      refusal := refused;
      if refused.Some? {
        out := Outcome(0, Some(UpdatingStatus(reason, refused.value)));
        return;
      }
      out := Outcome(0, Some(PassError.NotReady(reason, message)));
    }

    method SetNotSingleton(w: World, cr: Resource, now: nat) returns (out: Outcome, ghost refusal: Option<WriteError>)
      requires w.Valid() && !Governs(singleton, w.name)
      requires w.cell.pass == ConfigCell.Start(singleton, w.name, Found(cr.rv, cr.Value()), now)
      modifies w`servers, w`history, w`inFlight, w`statusWrites, w`cell, w`trace, cr.conditions
      ensures w.statusWrites == old(w.statusWrites) + 1 && w.cell.confirmed == old(w.cell).confirmed
      ensures w.Valid() && w.cell.pass == Done(out) && out == Finish(old(w.cell).pass, refusal)
      ensures out.requeueAfter == 0
    {
      cr.conditions.Set(cr.generation, Ready, StatusFalse, NotSingleton, AnswersOnlyTo(w.name, singleton), now);
      var refused := w.UpdateStatus(cr);
      refusal := refused;
      out := Outcome(0, if refused.Some? then Some(UpdatingStatus(NotSingleton, refused.value)) else None);
    }

    // The confirmed-success path: the entries, the two conditions, the write.
    method RecordHealth(w: World, cr: Resource, providers: seq<ProviderReport>, now: nat)
      returns (out: Outcome, ghost refusal: Option<WriteError>)
      requires w.Valid()
      requires w.cell.pass == AtStatus(cr.rv, cr.Value().(status := HealthStatus(cr.Value(), providers, now)),
                                       Confirming(Entries(providers, now)), Outcome(HEALTH_POLL_INTERVAL, None))
      modifies w`servers, w`history, w`inFlight, w`statusWrites, w`cell, w`trace, cr, cr.conditions
      ensures w.statusWrites == old(w.statusWrites) + 1 && w.cell.confirmed == old(w.cell).confirmed
      ensures w.Valid() && w.cell.pass == Done(out) && old(w.cell).versions <= w.cell.versions
      ensures out == Finish(old(w.cell).pass, refusal)
    {
      hide MovesValid, MovesAfter, SetCondition, UnknownLabels, Entries, Enabled, After;
      var entries, undetermined := SplitProviderHealth(providers, now);
      cr.providerHealth := entries;
      if |undetermined| > 0 {
        cr.conditions.Set(cr.generation, ProviderHealthKnown, StatusFalse, HealthUndetermined,
                          UndeterminedProviders(undetermined), now);
      } else {
        cr.conditions.Set(cr.generation, ProviderHealthKnown, StatusTrue, HealthKnown,
                          DeterminedProviders(|entries|), now);
      }
      cr.observedGeneration := cr.generation;
      cr.conditions.Set(cr.generation, Ready, StatusTrue, Reconciled,
                        ConfigReady(cr.paused, |entries|, |undetermined|), now);
      var refused := w.UpdateStatus(cr);
      refusal := refused;
      if refused.Some? {
        out := Outcome(0, Some(UpdatingStatus(Reconciled, refused.value)));
        return;
      }
      out := Outcome(HEALTH_POLL_INTERVAL, None);
    }

    // A governing object's pass, from the push on: it pushes nothing but the spec it
    // read, and only a push read back as applied goes on to provider health.
    method Push(w: World, cr: Resource, ghost a: Answers, now: nat) returns (out: Outcome, ghost b: Answers)
      requires w.Valid() && w.cell.pass == AtPush(cr.rv, cr.Value())
      modifies w`servers, w`history, w`inFlight, w`sent, w`statusWrites, w`cell, w`trace, cr, cr.conditions
      ensures w.Valid() && w.cell.pass == Done(out) && old(w.cell).versions <= w.cell.versions
      ensures out == PushOutcome(old(cr.rv), old(cr.Value()), b, now)
      ensures b == a.(push := b.push, health := b.health, refusal := b.refusal)
      ensures w.sent == old(w.sent) || w.sent == old(w.sent) + [old(cr.paused)]
      ensures b.push == Ok(old(cr.paused)) ==>
                w.sent == old(w.sent) + [old(cr.paused)] && old(cr.rv) in w.cell.confirmed
      ensures w.statusWrites == old(w.statusWrites) + 1
    {
      hide MovesValid, MovesAfter, HealthStatus, PushAllowed, HealthAllowed, Stamp, FlagAt;
      var pushed := w.SetPaused(cr.paused, now);
      b := a.(push := pushed);
      ghost var refusal, health;
      if pushed.Err? {
        var reason := PauseReason(pushed.error);
        ConfigReasonsAreExact(pushed.error);
        out, refusal := NotReady(w, cr, reason, NotPushed(cr.paused, pushed.error), now);
      } else if pushed.value != cr.paused {
        out, refusal := NotReady(w, cr, WriteNotVerified, FlagMismatch(pushed.value, cr.paused), now);
      } else {
        out, health, refusal := ReadHealth(w, cr, now);
        b := b.(health := health);
      }
      b := b.(refusal := refusal);
    }

    method ReadHealth(w: World, cr: Resource, now: nat)
      returns (out: Outcome, ghost reply: Reply<seq<ProviderReport>, Error>, ghost refusal: Option<WriteError>)
      requires w.Valid() && w.cell.pass == AtHealth(cr.rv, cr.Value())
      modifies w`servers, w`history, w`inFlight, w`statusWrites, w`cell, w`trace, cr, cr.conditions
      ensures w.Valid() && w.cell.pass == Done(out) && old(w.cell).versions <= w.cell.versions
      ensures out == Finish(AfterHealth(old(w.cell).pass, reply, now), refusal)
      ensures w.statusWrites == old(w.statusWrites) + 1 && w.cell.confirmed == old(w.cell).confirmed
    {
      hide MovesValid, MovesAfter, HealthStatus, HealthAllowed;
      var health := w.ProviderHealth(now);
      reply := health;
      if health.Err? {
        cr.conditions.Set(cr.generation, ProviderHealthKnown, StatusFalse, HealthUndetermined,
                          CallFailed(health.error), now);
        var reason := HealthErrorReason(health.error);
        out, refusal := NotReady(w, cr, reason, HealthUnread(cr.paused, health.error), now);
      } else {
        out, refusal := RecordHealth(w, cr, health.value, now);
      }
    }

    // Reconcile: whatever else happens meanwhile, step for step the specification,
    // returning the specified outcome of the answers it had. It pushes at most
    // once, and then the spec.paused of the governing object it read; a pass that
    // asks to be polled again had that push confirmed; and it writes status exactly
    // when specified.
    method Reconcile(w: World, now: nat) returns (out: Outcome, ghost a: Answers)
      requires w.Valid() && (w.cell.pass.Idle? || w.cell.pass.Done?) && w.process.singleton == singleton
      modifies w
      ensures w.Valid() && w.start == old(w.cell) && w.cell.pass == Done(out)
      ensures out == PassOutcome(singleton, w.name, a, now)
      ensures w.sent != old(w.sent) ==>
                && Governs(singleton, w.name) && w.cell.versions[w.floor].obj.Some?
                && w.sent == old(w.sent) + [w.cell.versions[w.floor].obj.value.paused]
      ensures out.requeueAfter > 0 ==>
                && out == Outcome(120, None) && w.sent != old(w.sent) && w.floor in w.cell.confirmed
      ensures w.statusWrites == old(w.statusWrites) + if AttemptsStatus(singleton, w.name, a, now) then 1 else 0
    {
      hide MovesValid, MovesAfter, HealthStatus, Stamp, PushOutcome, AttemptsStatus;
      w.BeginTrace();
      var got := w.Get(now);
      a := Answers(got, Err(LOST), Err(LOST), None);
      OutcomeIsExact(singleton, w.name, a, now);
      StatusIsAttemptedIff(singleton, w.name, a, now);
      if got.NotFound? {
        out := Outcome(0, None);
        return;
      }
      if got.GetError? {
        out := Outcome(0, Some(GetFailed(got.text)));
        return;
      }
      ghost var seen := w.cell.versions;
      var cr := new Resource(got.rv, got.cr);
      if singleton != "" && w.name != singleton {
        ghost var refusal;
        out, refusal := SetNotSingleton(w, cr, now);
        a := a.(refusal := refusal);
      } else {
        out, a := Push(w, cr, a, now);
        assert w.cell.versions[w.floor] == seen[w.floor];
      }
      OutcomeIsExact(singleton, w.name, a, now);
      StatusIsAttemptedIff(singleton, w.name, a, now);
    }
  }

  // What every step keeps, every pass of this code keeps.
  lemma {:induction false} RunsKeep(process: Process, name: string, c: Cell, moves: seq<Move>)
    requires Inv(process, name, c) && MovesValid(process, name, c, moves)
    ensures var d := MovesAfter(process, name, c, moves); Inv(process, name, d) && Grows(c, d)
    decreases |moves|
  {
    hide After, Enabled, Inv;
    if moves != [] {
      StepKeeps(process, moves[0].servers, name, c, moves[0].step);
      RunsKeep(process, name, After(process, moves[0].servers, name, c, moves[0].step), moves[1..]);
    }
  }

  lemma PassesKeep(w: World)
    requires w.Valid() && Inv(w.process, w.name, w.start)
    ensures Inv(w.process, w.name, w.cell) && Grows(w.start, w.cell)
  {
    RunsKeep(w.process, w.name, w.start, w.trace);
  }
}
