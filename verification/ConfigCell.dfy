/** The PlatformConfig reconciler: its pass as micro-steps, and everything about
    one PlatformConfig name. It pushes spec.paused at the server-side flag, reads
    provider health back and writes status. */
module ConfigCell {
  import opened Types
  import opened Conditions
  import opened Errors
  import opened Startup
  import opened ControlPlane
  import opened Providers

  // ---- the pass ---------------------------------------------------------

  datatype Purpose = Confirming(entries: seq<HealthEntry>) | Explaining(reason: Reason)

  datatype Pass =
    | Idle
    | AtPush(rv: nat, cr: Config)
    | AwaitPush(rv: nat, cr: Config)
    | AtHealth(rv: nat, cr: Config)
    | AtStatus(rv: nat, cr: Config, purpose: Purpose, ending: Outcome)
    | Done(outcome: Outcome)

  function Stamp(s: ConfigStatus, generation: nat, t: ConditionType, status: ConditionStatus,
                 reason: Reason, message: Message, now: nat): ConfigStatus
  {
    s.(conditions := SetCondition(s.conditions, Condition(t, status, reason, message, generation, now), now))
  }

  // notReady, which here always returns an error.
  function NotReadyPass(rv: nat, cr: Config, reason: Reason, message: Message, now: nat): Pass {
    AtStatus(rv, cr.(status := Stamp(cr.status, cr.generation, Ready, StatusFalse, reason, message, now)),
             Explaining(reason), Outcome(0, Some(NotReady(reason, message))))
  }

  datatype GetReply = NotFound | Found(rv: nat, cr: Config) | GetError(text: string)

  // An empty singleton name turns the filter off.
  predicate Governs(singleton: string, name: string) { singleton == "" || name == singleton }

  function Start(singleton: string, name: string, r: GetReply, now: nat): Pass {
    match r
    case NotFound => Done(Outcome(0, None))
    case GetError(text) => Done(Outcome(0, Some(GetFailed(text))))
    case Found(rv, cr) =>
      if Governs(singleton, name) then AtPush(rv, cr)
      else AtStatus(rv, cr.(status := Stamp(cr.status, cr.generation, Ready, StatusFalse, NotSingleton,
                                            AnswersOnlyTo(name, singleton), now)),
                    Explaining(NotSingleton), Outcome(0, None))
  }

  // The reply to SetPaused is the flag as the server then has it.
  function AfterPush(p: Pass, r: Reply<bool, Error>, now: nat): Pass
    requires p.AwaitPush?
  {
    match r
    case Err(e) => NotReadyPass(p.rv, p.cr, PauseErrorReason(e), NotPushed(p.cr.paused, e), now)
    case Ok(paused) =>
      if paused != p.cr.paused
      then NotReadyPass(p.rv, p.cr, WriteNotVerified, FlagMismatch(paused, p.cr.paused), now)
      else AtHealth(p.rv, p.cr)
  }

  function HealthStatus(cr: Config, providers: seq<ProviderReport>, now: nat): ConfigStatus {
    var entries := Entries(providers, now);
    var undetermined := UnknownLabels(entries);
    var s := cr.status.(providerHealth := entries);
    var s' := if undetermined != []
              then Stamp(s, cr.generation, ProviderHealthKnown, StatusFalse, HealthUndetermined,
                         UndeterminedProviders(undetermined), now)
              else Stamp(s, cr.generation, ProviderHealthKnown, StatusTrue, HealthKnown,
                         DeterminedProviders(|entries|), now);
    Stamp(s'.(observedGeneration := cr.generation), cr.generation, Ready, StatusTrue, Reconciled,
          ConfigReady(cr.paused, |entries|, |undetermined|), now)
  }

  function AfterHealth(p: Pass, r: Reply<seq<ProviderReport>, Error>, now: nat): Pass
    requires p.AtHealth?
  {
    match r
    case Err(e) =>
      var cr := p.cr.(status := Stamp(p.cr.status, p.cr.generation, ProviderHealthKnown, StatusFalse,
                                      HealthUndetermined, CallFailed(e), now));
      NotReadyPass(p.rv, cr, HealthErrorReason(e), HealthUnread(p.cr.paused, e), now)
    case Ok(providers) =>
      AtStatus(p.rv, p.cr.(status := HealthStatus(p.cr, providers, now)),
               Confirming(Entries(providers, now)), Outcome(HEALTH_POLL_INTERVAL, None))
  }

  function AfterStatus(p: Pass, refusal: Option<WriteError>): Pass
    requires p.AtStatus?
  {
    match refusal
    case None => Done(p.ending)
    case Some(e) =>
      Done(Outcome(0, Some(UpdatingStatus(if p.purpose.Explaining? then p.purpose.reason else Reconciled, e))))
  }

  // ---- what the conditions of a pass say --------------------------------

  predicate Says(s: ConfigStatus, t: ConditionType, generation: nat, status: ConditionStatus,
                 reason: Reason, message: Message)
  {
    && Find(s.conditions, t).Some?
    && var c := Find(s.conditions, t).value;
       c.status == status && c.reason == reason && c.message == message && c.observedGeneration == generation
  }

  lemma StampSays(s: ConfigStatus, generation: nat, t: ConditionType, status: ConditionStatus,
                  reason: Reason, message: Message, now: nat)
    ensures var r := Stamp(s, generation, t, status, reason, message, now);
            && Says(r, t, generation, status, reason, message)
            && r.observedGeneration == s.observedGeneration && r.providerHealth == s.providerHealth
            && (forall u :: u != t ==> Find(r.conditions, u) == Find(s.conditions, u))
            && r.conditions == SetCondition(s.conditions, Find(r.conditions, t).value, now)
  {
    var c := Condition(t, status, reason, message, generation, now);
    SetConditionAt(s.conditions, c, now);
    WriteAsFound(s.conditions, c, now);
    forall u | u != t ensures Find(SetCondition(s.conditions, c, now), u) == Find(s.conditions, u) {
      FindOther(s.conditions, c, now, u);
    }
  }

  // The pass is about to say that it is not ready, and to return this very error;
  // what was observed and polled before stays.
  ghost predicate NotReadyFor(q: Pass, rv: nat, cr: Config, reason: Reason, message: Message) {
    && q.AtStatus? && q.rv == rv && q.cr == cr.(status := q.cr.status)
    && Says(q.cr.status, Ready, cr.generation, StatusFalse, reason, message)
    && q.cr.status.observedGeneration == cr.status.observedGeneration
    && q.cr.status.providerHealth == cr.status.providerHealth
    && (forall u :: u != Ready && u != ProviderHealthKnown ==>
          Find(q.cr.status.conditions, u) == Find(cr.status.conditions, u))
    && q.purpose == Explaining(reason) && q.ending == Outcome(0, Some(NotReady(reason, message)))
  }

  // Of the conditions nothing moved but Ready, by one write at this time.
  predicate OnlyReady(cr: Config, q: Pass, now: nat) {
    && q.AtStatus? && Find(q.cr.status.conditions, Ready).Some?
    && q.cr.status.conditions ==
       SetCondition(cr.status.conditions, Find(q.cr.status.conditions, Ready).value, now)
  }

  // Of the conditions nothing moved but these two, by a write each at this time.
  predicate BothStamped(cr: Config, s: ConfigStatus, now: nat) {
    && Find(s.conditions, Ready).Some? && Find(s.conditions, ProviderHealthKnown).Some?
    && s.conditions ==
       SetCondition(SetCondition(cr.status.conditions, Find(s.conditions, ProviderHealthKnown).value, now),
                    Find(s.conditions, Ready).value, now)
  }

  // An object of another name is told whom the operator answers to.
  lemma StartSays(singleton: string, name: string, rv: nat, cr: Config, now: nat)
    ensures var q := Start(singleton, name, Found(rv, cr), now);
            if singleton == "" || name == singleton then q == AtPush(rv, cr)
            else
              && q.AtStatus? && q.rv == rv && q.cr == cr.(status := q.cr.status) && q.ending == Outcome(0, None)
              && Says(q.cr.status, Ready, cr.generation, StatusFalse, NotSingleton, AnswersOnlyTo(name, singleton))
              && q.cr.status.observedGeneration == cr.status.observedGeneration
              && q.cr.status.providerHealth == cr.status.providerHealth
              && q.cr.status.conditions ==
                 SetCondition(cr.status.conditions, Find(q.cr.status.conditions, Ready).value, now)
  {
    StampSays(cr.status, cr.generation, Ready, StatusFalse, NotSingleton, AnswersOnlyTo(name, singleton), now);
  }

  // Every answer to the push: it goes on exactly on a read-back that matches.
  lemma PushSays(p: Pass, r: Reply<bool, Error>, now: nat)
    requires p.AwaitPush?
    ensures var q := AfterPush(p, r, now);
            match r
            case Ok(paused) =>
              if paused == p.cr.paused then q == AtHealth(p.rv, p.cr)
              else NotReadyFor(q, p.rv, p.cr, WriteNotVerified, FlagMismatch(paused, p.cr.paused))
                   && OnlyReady(p.cr, q, now)
            case Err(e) =>
              OnlyReady(p.cr, q, now) &&
              NotReadyFor(q, p.rv, p.cr,
                          match Root(e)
                          case Unconfigured(_) => AwaitingConfiguration
                          case Api(_, _, _, _) => ReconcileFailed
                          case _ => BackendUnreachable,
                          NotPushed(p.cr.paused, e))
  {
    match r
    case Ok(paused) =>
      StampSays(p.cr.status, p.cr.generation, Ready, StatusFalse, WriteNotVerified,
                FlagMismatch(paused, p.cr.paused), now);
    case Err(e) =>
      ConfigReasonsAreExact(e);
      StampSays(p.cr.status, p.cr.generation, Ready, StatusFalse, PauseErrorReason(e), NotPushed(p.cr.paused, e), now);
  }

  // The two stamps of a poll.
  lemma StampsSay(cr: Config, entries: seq<HealthEntry>, status: ConditionStatus, reason: Reason, message: Message,
                  ready: Message, now: nat)
    ensures var g := cr.generation;
            var polled := cr.status.(providerHealth := entries);
            var known := Stamp(polled, g, ProviderHealthKnown, status, reason, message, now);
            var s := Stamp(known.(observedGeneration := g), g, Ready, StatusTrue, Reconciled, ready, now);
            && s.providerHealth == entries && s.observedGeneration == g && BothStamped(cr, s, now)
            && Says(s, Ready, g, StatusTrue, Reconciled, ready)
            && Says(s, ProviderHealthKnown, g, status, reason, message)
  {
    hide Stamp, SetCondition;
    var g := cr.generation;
    var s := cr.status.(providerHealth := entries);
    StampSays(s, g, ProviderHealthKnown, status, reason, message, now);
    var known := Stamp(s, g, ProviderHealthKnown, status, reason, message, now);
    StampSays(known.(observedGeneration := g), g, Ready, StatusTrue, Reconciled, ready, now);
  }

  // What a poll says: health is known exactly if every provider was determined,
  // and the object is ready either way.
  lemma PollSays(cr: Config, providers: seq<ProviderReport>, now: nat)
    ensures var s := HealthStatus(cr, providers, now);
            var unknown := UnknownLabels(Entries(providers, now));
            && s.providerHealth == Entries(providers, now) && s.observedGeneration == cr.generation
            && BothStamped(cr, s, now)
            && Says(s, Ready, cr.generation, StatusTrue, Reconciled,
                    ConfigReady(cr.paused, |providers|, |unknown|))
            && (if forall p :: p in providers ==> p.checked && p.healthy.Some?
                then Says(s, ProviderHealthKnown, cr.generation, StatusTrue, HealthKnown,
                          DeterminedProviders(|providers|))
                else Says(s, ProviderHealthKnown, cr.generation, StatusFalse, HealthUndetermined,
                          UndeterminedProviders(unknown)))
  {
    hide Stamp, Entries, UnknownLabels, Says, BothStamped;
    var entries := Entries(providers, now);
    var unknown := UnknownLabels(entries);
    NoneUnknownIff(providers, now);
    var ready := ConfigReady(cr.paused, |entries|, |unknown|);
    if unknown != [] {
      StampsSay(cr, entries, StatusFalse, HealthUndetermined, UndeterminedProviders(unknown), ready, now);
    } else {
      StampsSay(cr, entries, StatusTrue, HealthKnown, DeterminedProviders(|entries|), ready, now);
    }
  }

  // Every answer to the health call: a failed one makes health unknown, and leaves
  // the entries of the last poll.
  lemma HealthSays(p: Pass, r: Reply<seq<ProviderReport>, Error>, now: nat)
    requires p.AtHealth?
    ensures var q := AfterHealth(p, r, now);
            match r
            case Ok(providers) =>
              && q == AtStatus(p.rv, p.cr.(status := HealthStatus(p.cr, providers, now)),
                               Confirming(Entries(providers, now)), Outcome(120, None))
            case Err(e) =>
              && NotReadyFor(q, p.rv, p.cr,
                             match Root(e)
                             case Unconfigured(_) => AwaitingConfiguration
                             case Api(_, _, _, _) => HealthUndetermined
                             case _ => BackendUnreachable,
                             HealthUnread(p.cr.paused, e))
              && Says(q.cr.status, ProviderHealthKnown, p.cr.generation, StatusFalse, HealthUndetermined, CallFailed(e))
              && BothStamped(p.cr, q.cr.status, now)
  {
    if r.Err? {
      hide Stamp;
      var e, g := r.error, p.cr.generation;
      ConfigReasonsAreExact(e);
      var s := Stamp(p.cr.status, g, ProviderHealthKnown, StatusFalse, HealthUndetermined, CallFailed(e), now);
      StampSays(p.cr.status, g, ProviderHealthKnown, StatusFalse, HealthUndetermined, CallFailed(e), now);
      StampSays(s, g, Ready, StatusFalse, HealthErrorReason(e), HealthUnread(p.cr.paused, e), now);
    }
  }

  // ---- a pass from start to end -----------------------------------------

  // Everything the world answers during one pass.
  datatype Answers = Answers(get: GetReply, push: Reply<bool, Error>, health: Reply<seq<ProviderReport>, Error>,
                             refusal: Option<WriteError>)

  function Finish(p: Pass, refusal: Option<WriteError>): Outcome
    requires p.AtStatus? || p.Done?
  {
    if p.AtStatus? then AfterStatus(p, refusal).outcome else p.outcome
  }

  function PushOutcome(rv: nat, cr: Config, a: Answers, now: nat): Outcome {
    var q := AfterPush(AwaitPush(rv, cr), a.push, now);
    if q.AtStatus? then Finish(q, a.refusal) else Finish(AfterHealth(q, a.health, now), a.refusal)
  }

  // The return value of Reconcile.
  function PassOutcome(singleton: string, name: string, a: Answers, now: nat): Outcome {
    var p := Start(singleton, name, a.get, now);
    if p.AtPush? then PushOutcome(p.rv, p.cr, a, now) else Finish(p, a.refusal)
  }

  // A pass is forgotten exactly when the object is gone or says on itself that
  // it governs nothing; it is paced exactly when the push was read back as
  // applied, health was read and the status stored; and every other governing
  // pass ends in an error, an unconfigured one included.
  lemma OutcomeIsExact(singleton: string, name: string, a: Answers, now: nat)
    ensures var o := PassOutcome(singleton, name, a, now);
            var governs := singleton == "" || name == singleton;
            && (Silent(o) <==> a.get.NotFound? || (a.get.Found? && !governs && a.refusal.None?))
            && (o.requeueAfter > 0 <==>
                a.get.Found? && governs && a.push == Ok(a.get.cr.paused) && a.health.Ok? && a.refusal.None?)
            && (o.requeueAfter > 0 ==> o == Outcome(120, None))
            && (a.get.Found? && governs && (a.push.Err? || a.health.Err?) ==> o.error.Some?)
  {}

  // The pace promised for an unconfigured operator is not kept here: its pass ends
  // without an error only over an object that is gone or governs nothing.
  lemma UnconfiguredIsSilentIff(singleton: string, name: string, a: Answers, now: nat)
    requires a.push.Err? && IsUnconfigured(a.push.error)
    ensures PassOutcome(singleton, name, a, now).error.None? <==>
            || a.get.NotFound?
            || (a.get.Found? && singleton != "" && name != singleton && a.refusal.None?)
    ensures PassOutcome(singleton, name, a, now).requeueAfter == 0
  {
    OutcomeIsExact(singleton, name, a, now);
  }

  // The pass gets as far as a status write.
  predicate AttemptsStatus(singleton: string, name: string, a: Answers, now: nat) {
    var p := Start(singleton, name, a.get, now);
    if p.AtPush? then
      var q := AfterPush(AwaitPush(p.rv, p.cr), a.push, now);
      if q.AtHealth? then AfterHealth(q, a.health, now).AtStatus? else q.AtStatus?
    else p.AtStatus?
  }

  // Here every path over an object that is there attempts to leave a condition.
  lemma StatusIsAttemptedIff(singleton: string, name: string, a: Answers, now: nat)
    ensures AttemptsStatus(singleton, name, a, now) <==> a.get.Found?
  {}

  // The pass knows that its conditions are on the object.
  predicate Told(singleton: string, name: string, a: Answers, now: nat) {
    AttemptsStatus(singleton, name, a, now) && a.refusal.None?
  }

  // So a failure goes untold exactly when the object could not be read or the
  // status write was refused.
  lemma UntoldFailuresIff(singleton: string, name: string, a: Answers, now: nat)
    ensures PassOutcome(singleton, name, a, now).error.Some? && !Told(singleton, name, a, now) <==>
            a.get.GetError? || (a.get.Found? && a.refusal.Some?)
  {}

  const NEWCOMER := Config(1, 1, true, "Hubble", ConfigStatus([], 0, []))

  // An operator without settings, and its default object: an error, not a pace.
  lemma UnconfiguredFails(health: Reply<seq<ProviderReport>, Error>)
    ensures var a := Answers(Found(1, NEWCOMER), Err(Unconfigured(["K8BOSS_BACKEND_URL"])), health, None);
            var o := PassOutcome("default", "default", a, 0);
            && o.requeueAfter == 0 && o.error.Some? && o.error.value.NotReady?
            && o.error.value.reason == AwaitingConfiguration
  {}

  // A conflict on the status write of a pass that did all else leaves nothing.
  lemma RefusedStatusIsUntold(push: Reply<bool, Error>, health: Reply<seq<ProviderReport>, Error>)
    ensures var a := Answers(Found(1, NEWCOMER), push, health, Some(Conflict));
            && !Told("default", "default", a, 0)
            && PassOutcome("default", "default", a, 0).error.Some?
  {
    UntoldFailuresIff("default", "default", Answers(Found(1, NEWCOMER), push, health, Some(Conflict)), 0);
  }

  // ---- the cell ---------------------------------------------------------

  // A SetPaused request that has left the operator: where it goes, the name the
  // process answered to, what it asks for, and the version whose spec asked.
  datatype Push = Push(target: Target, singleton: string, wanted: bool, at: nat)

  // An answered provider-health call, for the version the pass was working on.
  datatype Poll = Poll(at: nat, providers: seq<ProviderReport>, now: nat)

  // confirmed lists the versions whose push the server read back as applied.
  datatype Cell = Cell(versions: seq<ConfigVersion>, floor: nat, pass: Pass, pending: Option<Push>,
                       confirmed: seq<nat>, polls: seq<Poll>)

  const EMPTY := Cell([ConfigVersion(None, ConfigNeverExisted)], 0, Idle, None, [], [])

  function Current(c: Cell): Option<Config> {
    if c.versions == [] then None else c.versions[|c.versions| - 1].obj
  }

  function Put(vs: seq<ConfigVersion>, obj: Option<Config>, cause: ConfigCause): seq<ConfigVersion> {
    if vs != [] && vs[|vs| - 1].obj == obj then vs else vs + [ConfigVersion(obj, cause)]
  }

  predicate Fresh(c: Cell) {
    c.pass.AtStatus? && c.versions != [] && c.pass.rv == |c.versions| - 1 && Current(c).Some?
  }

  function Write(c: Cell): seq<ConfigVersion>
    requires Fresh(c)
  {
    Put(c.versions, Some(Current(c).value.(status := c.pass.cr.status)),
        match c.pass.purpose case Confirming(es) => ConfigConfirmedBy(es) case Explaining(_) => ConfigExplained)
  }

  datatype Chance = Deliver | FailBefore | LoseReply

  datatype Step =
    | Begin(read: nat, now: nat)
    | BeginFailed(text: string)
    | Send(now: nat)
    | Timeout(now: nat)
    | Health(reply: Reply<seq<ProviderReport>, Error>, now: nat)
    | Store(chance: Chance)
    | ServePush(applied: bool, pushed: Reply<bool, Error>, delivered: bool, now: nat)
    | Drop
    | Create(paused: bool, flowProvider: string)
    | Edit(paused: bool, flowProvider: string)
    | Delete

  predicate ByUser(a: Step) { a.Create? || a.Edit? || a.Delete? }

  predicate Enabled(process: Process, servers: Servers, c: Cell, a: Step) {
    match a
    case Begin(read, _) => (c.pass.Idle? || c.pass.Done?) && c.floor <= read < |c.versions|
    case BeginFailed(_) => c.pass.Idle? || c.pass.Done?
    case Send(_) => c.pass.AtPush? && (process.Configured? ==> c.pending.None?)
    case Timeout(_) => c.pass.AwaitPush?
    case Health(r, _) => c.pass.AtHealth? && HealthAllowed(process, r)
    case Store(_) => c.pass.AtStatus?
    case ServePush(applied, r, delivered, _) =>
      && c.pending.Some?
      && PushAllowed(FlagAt(servers, c.pending.value.target.backend), c.pending.value.wanted, applied, r)
      && (delivered ==> c.pass.AwaitPush?)
    case Drop => c.pending.Some?
    case Create(_, _) => Current(c).None?
    case Edit(_, _) => Current(c).Some?
    case Delete => Current(c).Some?
  }

  function After(process: Process, servers: Servers, name: string, c: Cell, a: Step): Cell
    requires Enabled(process, servers, c, a)
  {
    match a
    case Begin(read, now) =>
      var r := match c.versions[read].obj case None => NotFound case Some(o) => Found(read, o);
      c.(floor := read, pass := Start(process.singleton, name, r, now))
    case BeginFailed(text) => c.(pass := Start(process.singleton, name, GetError(text), 0))
    case Send(now) =>
      var waiting := AwaitPush(c.pass.rv, c.pass.cr);
      if process.NotConfigured? then c.(pass := AfterPush(waiting, Err(Unconfigured(process.missing)), now))
      else c.(pass := waiting,
              pending := Some(Push(process.target, process.singleton, c.pass.cr.paused, c.pass.rv)))
    case Timeout(now) => c.(pass := AfterPush(c.pass, Err(LOST), now))
    case Health(r, now) =>
      c.(pass := AfterHealth(c.pass, r, now),
         polls := if r.Ok? then c.polls + [Poll(c.pass.rv, r.value, now)] else c.polls)
    case Store(chance) =>
      c.(versions := if Fresh(c) && !chance.FailBefore? then Write(c) else c.versions,
         pass := AfterStatus(c.pass, if !chance.Deliver? then Some(WriteFailed("no answer"))
                                     else if Fresh(c) then None else Some(Conflict)))
    case ServePush(applied, r, delivered, now) =>
      c.(pending := None,
         pass := if delivered then AfterPush(c.pass, r, now) else c.pass,
         confirmed := if delivered && r == Ok(c.pending.value.wanted) then c.confirmed + [c.pending.value.at]
                      else c.confirmed)
    case Drop => c.(pending := None)
    case Create(p, flowProvider) =>
      c.(versions := Put(c.versions, Some(Config(|c.versions|, 1, p, flowProvider, ConfigStatus([], 0, []))),
                         ConfigCreated))
    case Edit(p, flowProvider) =>
      var o := Current(c).value;
      c.(versions := Put(c.versions,
                         if o.paused == p && o.flowProvider == flowProvider then Some(o)
                         else Some(o.(paused := p, flowProvider := flowProvider, generation := o.generation + 1)),
                         ConfigEdited))
    case Delete => c.(versions := Put(c.versions, None, ConfigDeleted))
  }

  function Crash(c: Cell): Cell { c.(pass := Idle) }

  // ---- what every step keeps --------------------------------------------

  predicate Evolves(o: Config, q: Config, cause: ConfigCause) {
    && q.uid == o.uid
    && (q.generation == o.generation || q.generation == o.generation + 1)
    && (q.generation == o.generation ==> q.paused == o.paused && q.flowProvider == o.flowProvider)
    && (cause == ConfigEdited ==> q.status == o.status)
    && (cause == ConfigExplained ==> q.generation == o.generation
                                     && q.status.observedGeneration == o.status.observedGeneration
                                     && q.status.providerHealth == o.status.providerHealth && !ReadyTrue(q.status))
    && (cause.ConfigConfirmedBy? ==> q.status.observedGeneration == q.generation == o.generation
                                     && q.status.providerHealth == cause.entries)
    && (cause == ConfigEdited || cause == ConfigExplained || cause.ConfigConfirmedBy?)
  }

  predicate Follows(n: nat, prev: Option<Config>, v: ConfigVersion) {
    match (prev, v.obj)
    case (None, None) => false
    case (None, Some(q)) =>
      q.uid == n && q.generation == 1 && q.status == ConfigStatus([], 0, []) && v.cause == ConfigCreated
    case (Some(o), None) => v.cause == ConfigDeleted
    case (Some(o), Some(q)) => Evolves(o, q, v.cause)
  }

  predicate Chain(vs: seq<ConfigVersion>) {
    && vs != [] && vs[0] == ConfigVersion(None, ConfigNeverExisted)
    && forall i :: 0 < i < |vs| ==> Follows(i, vs[i - 1].obj, vs[i])
  }

  predicate Present(c: Cell, i: nat) { i < |c.versions| && c.versions[i].obj.Some? }

  predicate ReadyTrue(s: ConfigStatus) {
    Find(s.conditions, Ready).Some? && Find(s.conditions, Ready).value.status == StatusTrue
  }

  // The spec.paused of generation g was pushed and read back as applied.
  predicate Backed(c: Cell, uid: nat, g: nat) {
    exists at :: at in c.confirmed && Present(c, at)
                 && c.versions[at].obj.value.uid == uid && c.versions[at].obj.value.generation == g
  }

  // The entries es are what a poll made for this generation of o reported.
  predicate Reported(c: Cell, o: Config, es: seq<HealthEntry>) {
    exists p :: p in c.polls && Present(c, p.at) && es == Entries(p.providers, p.now)
                && c.versions[p.at].obj.value.uid == o.uid && c.versions[p.at].obj.value.generation == o.generation
  }

  predicate StatusOK(c: Cell, o: Config) {
    && o.generation > 0 && o.status.observedGeneration <= o.generation
    && (o.status.observedGeneration > 0 ==> Backed(c, o.uid, o.status.observedGeneration))
    && (ReadyTrue(o.status) ==>
          o.status.observedGeneration > 0
          && Find(o.status.conditions, Ready).value.observedGeneration == o.status.observedGeneration)
  }

  predicate VersionOK(c: Cell, i: nat)
    requires i < |c.versions|
  {
    c.versions[i].obj.Some? ==>
      && StatusOK(c, c.versions[i].obj.value)
      && (c.versions[i].cause.ConfigConfirmedBy? ==>
            Reported(c, c.versions[i].obj.value, c.versions[i].cause.entries))
  }

  predicate Snapshot(c: Cell, rv: nat, o: Config) { Present(c, rv) && c.versions[rv].obj == Some(o) }

  predicate PassOK(process: Process, name: string, c: Cell) {
    match c.pass
    case Idle => true
    case Done(_) => true
    case AtPush(rv, cr) => Snapshot(c, rv, cr) && rv == c.floor && Governs(process.singleton, name)
    case AwaitPush(rv, cr) =>
      && Snapshot(c, rv, cr) && rv == c.floor && Governs(process.singleton, name)
      && (c.pending.Some? ==> process.Configured?
                              && c.pending.value == Push(process.target, process.singleton, cr.paused, rv))
    case AtHealth(rv, cr) =>
      Snapshot(c, rv, cr) && rv == c.floor && Governs(process.singleton, name) && rv in c.confirmed
    case AtStatus(rv, cr, purpose, _) =>
      && Present(c, rv)
      && var o := c.versions[rv].obj.value;
         && cr == o.(status := cr.status) && StatusOK(c, cr)
         && (match purpose
             case Confirming(es) => cr.status.observedGeneration == cr.generation && cr.status.providerHealth == es
                                    && Reported(c, cr, es)
             case Explaining(_) => cr.status.observedGeneration == o.status.observedGeneration
                                   && cr.status.providerHealth == o.status.providerHealth && !ReadyTrue(cr.status))
  }

  // Only a governing object's own spec.paused is ever on its way to the server.
  predicate RequestOK(name: string, c: Cell) {
    c.pending.Some? ==>
      && Governs(c.pending.value.singleton, name) && Present(c, c.pending.value.at)
      && c.versions[c.pending.value.at].obj.value.paused == c.pending.value.wanted
  }

  predicate Inv(process: Process, name: string, c: Cell) {
    && Chain(c.versions) && c.floor < |c.versions|
    && PassOK(process, name, c) && RequestOK(name, c)
    && forall i :: 0 <= i < |c.versions| ==> VersionOK(c, i)
  }

  lemma InvEmpty(process: Process, name: string)
    ensures Inv(process, name, EMPTY)
  {}

  predicate Grows(c: Cell, d: Cell) {
    c.versions <= d.versions && c.confirmed <= d.confirmed && c.polls <= d.polls
  }

  lemma ReportedGrows(c: Cell, d: Cell, o: Config, es: seq<HealthEntry>)
    requires Grows(c, d) && Reported(c, o, es)
    ensures Reported(d, o, es)
  {
    var p :| p in c.polls && Present(c, p.at) && es == Entries(p.providers, p.now)
             && c.versions[p.at].obj.value.uid == o.uid && c.versions[p.at].obj.value.generation == o.generation;
    assert p in d.polls && Present(d, p.at);
  }

  // A status write in hand stays good while the history grows.
  lemma StatusWriteGrows(process: Process, name: string, c: Cell, d: Cell)
    requires Grows(c, d) && PassOK(process, name, c) && c.pass.AtStatus? && d.pass == c.pass
    ensures PassOK(process, name, d)
  {
    StatusGrows(c, d, c.pass.cr);
    if c.pass.purpose.Confirming? {
      ReportedGrows(c, d, c.pass.cr, c.pass.purpose.entries);
    }
  }

  lemma StatusGrows(c: Cell, d: Cell, o: Config)
    requires Grows(c, d) && StatusOK(c, o)
    ensures StatusOK(d, o)
  {
    if o.status.observedGeneration > 0 {
      var at :| at in c.confirmed && Present(c, at)
                && c.versions[at].obj.value.uid == o.uid
                && c.versions[at].obj.value.generation == o.status.observedGeneration;
      assert at in d.confirmed && Present(d, at);
    }
  }

  lemma VersionsGrow(c: Cell, d: Cell)
    requires Grows(c, d)
    requires forall i :: 0 <= i < |c.versions| ==> VersionOK(c, i)
    ensures forall i :: 0 <= i < |c.versions| ==> VersionOK(d, i)
  {
    forall i | 0 <= i < |c.versions| ensures VersionOK(d, i) {
      assert VersionOK(c, i);
      if c.versions[i].obj.Some? {
        StatusGrows(c, d, c.versions[i].obj.value);
        if c.versions[i].cause.ConfigConfirmedBy? {
          ReportedGrows(c, d, c.versions[i].obj.value, c.versions[i].cause.entries);
        }
      }
    }
  }

  lemma PutKeeps(process: Process, name: string, c: Cell, obj: Option<Config>, cause: ConfigCause)
    requires Inv(process, name, c)
    requires obj != Current(c) ==>
               && Follows(|c.versions|, Current(c), ConfigVersion(obj, cause))
               && (obj.Some? ==> StatusOK(c, obj.value))
               && (obj.Some? && cause.ConfigConfirmedBy? ==> Reported(c, obj.value, cause.entries))
    ensures Inv(process, name, c.(versions := Put(c.versions, obj, cause)))
    ensures Grows(c, c.(versions := Put(c.versions, obj, cause)))
  {
    var d := c.(versions := Put(c.versions, obj, cause));
    if obj != Current(c) {
      VersionsGrow(c, d);
      if obj.Some? {
        StatusGrows(c, d, obj.value);
        if cause.ConfigConfirmedBy? {
          ReportedGrows(c, d, obj.value, cause.entries);
        }
      }
      if c.pass.AtStatus? {
        StatusWriteGrows(process, name, c, d);
      }
    } else {
      assert d == c;
    }
  }

  lemma PassKeeps(process: Process, name: string, c: Cell, d: Cell)
    requires Inv(process, name, c) && PassOK(process, name, d)
    requires d.versions == c.versions && Grows(c, d) && d.floor < |d.versions|
    requires d.pending == c.pending || d.pending.None?
    ensures Inv(process, name, d)
  {
    VersionsGrow(c, d);
  }

  // A stamp that is not Ready=True leaves a good status good.
  lemma StampIsOK(c: Cell, cr: Config, t: ConditionType, status: ConditionStatus,
                  reason: Reason, message: Message, now: nat)
    requires StatusOK(c, cr)
    requires t == Ready ==> status != StatusTrue
    ensures var s := Stamp(cr.status, cr.generation, t, status, reason, message, now);
            StatusOK(c, cr.(status := s))
            && s.observedGeneration == cr.status.observedGeneration && s.providerHealth == cr.status.providerHealth
            && (t == Ready ==> !ReadyTrue(s))
  {
    var cond := Condition(t, status, reason, message, cr.generation, now);
    SetConditionAt(cr.status.conditions, cond, now);
    if t != Ready {
      FindOther(cr.status.conditions, cond, now, Ready);
    }
  }

  lemma NotReadyIsOK(process: Process, name: string, c: Cell, rv: nat, cr: Config,
                     reason: Reason, message: Message, now: nat)
    requires Inv(process, name, c) && Snapshot(c, rv, cr)
    ensures PassOK(process, name, c.(pass := NotReadyPass(rv, cr, reason, message, now)))
  {
    assert VersionOK(c, rv);
    StampIsOK(c, cr, Ready, StatusFalse, reason, message, now);
    var d := c.(pass := NotReadyPass(rv, cr, reason, message, now));
    StatusGrows(c, d, d.pass.cr);
  }

  lemma PushReplyIsOK(process: Process, name: string, c: Cell, r: Reply<bool, Error>, now: nat)
    requires Inv(process, name, c) && c.pass.AwaitPush?
    requires r == Ok(c.pass.cr.paused) ==> c.pass.rv in c.confirmed
    ensures PassOK(process, name, c.(pass := AfterPush(c.pass, r, now)))
  {
    var p := c.pass;
    match r
    case Err(e) =>
      NotReadyIsOK(process, name, c, p.rv, p.cr, PauseErrorReason(e), NotPushed(p.cr.paused, e), now);
    case Ok(paused) =>
      if paused != p.cr.paused {
        NotReadyIsOK(process, name, c, p.rv, p.cr, WriteNotVerified, FlagMismatch(paused, p.cr.paused), now);
      }
  }

  lemma HealthReplyIsOK(process: Process, name: string, c: Cell, r: Reply<seq<ProviderReport>, Error>, now: nat)
    requires Inv(process, name, c) && c.pass.AtHealth?
    requires r.Ok? ==> Poll(c.pass.rv, r.value, now) in c.polls
    ensures PassOK(process, name, c.(pass := AfterHealth(c.pass, r, now)))
  {
    var p := c.pass;
    var d := c.(pass := AfterHealth(p, r, now));
    assert VersionOK(c, p.rv);
    match r
    case Err(e) =>
      StampIsOK(c, p.cr, ProviderHealthKnown, StatusFalse, HealthUndetermined, CallFailed(e), now);
      var cr := p.cr.(status := Stamp(p.cr.status, p.cr.generation, ProviderHealthKnown, StatusFalse,
                                      HealthUndetermined, CallFailed(e), now));
      StampIsOK(c, cr, Ready, StatusFalse, HealthErrorReason(e), HealthUnread(p.cr.paused, e), now);
      StatusGrows(c, d, d.pass.cr);
    case Ok(providers) =>
      var s := HealthStatus(p.cr, providers, now);
      assert Backed(d, p.cr.uid, p.cr.generation) by {
        assert p.rv in d.confirmed && Present(d, p.rv);
      }
      assert Reported(d, d.pass.cr, Entries(providers, now)) by {
        assert Poll(p.rv, providers, now) in d.polls && Present(d, p.rv);
      }
      var entries := Entries(providers, now);
      var undetermined := UnknownLabels(entries);
      var conds := if undetermined != []
                   then SetCondition(p.cr.status.conditions,
                                     Condition(ProviderHealthKnown, StatusFalse, HealthUndetermined,
                                               UndeterminedProviders(undetermined), p.cr.generation, now), now)
                   else SetCondition(p.cr.status.conditions,
                                     Condition(ProviderHealthKnown, StatusTrue, HealthKnown,
                                               DeterminedProviders(|entries|), p.cr.generation, now), now);
      SetConditionAt(conds, Condition(Ready, StatusTrue, Reconciled,
                                      ConfigReady(p.cr.paused, |entries|, |undetermined|), p.cr.generation, now), now);
  }

  lemma BeginKeeps(process: Process, servers: Servers, name: string, c: Cell, a: Step)
    requires Inv(process, name, c) && Enabled(process, servers, c, a) && (a.Begin? || a.BeginFailed?)
    ensures Inv(process, name, After(process, servers, name, c, a))
    ensures Grows(c, After(process, servers, name, c, a))
  {
    var d := After(process, servers, name, c, a);
    if a.Begin? && c.versions[a.read].obj.Some? {
      var cr := c.versions[a.read].obj.value;
      assert VersionOK(c, a.read);
      StampIsOK(c, cr, Ready, StatusFalse, NotSingleton, AnswersOnlyTo(name, process.singleton), a.now);
      if d.pass.AtStatus? {
        StatusGrows(c, d, d.pass.cr);
      }
    }
    PassKeeps(process, name, c, d);
  }

  lemma SendKeeps(process: Process, servers: Servers, name: string, c: Cell, a: Step)
    requires Inv(process, name, c) && Enabled(process, servers, c, a) && (a.Send?)
    ensures Inv(process, name, After(process, servers, name, c, a))
    ensures Grows(c, After(process, servers, name, c, a))
  {
    var d := After(process, servers, name, c, a);
    if process.NotConfigured? {
      var e := Unconfigured(process.missing);
      NotReadyIsOK(process, name, c, c.pass.rv, c.pass.cr, PauseErrorReason(e), NotPushed(c.pass.cr.paused, e), a.now);
      PassKeeps(process, name, c, d);
    } else {
      VersionsGrow(c, d);
    }
  }

  lemma ReplyKeeps(process: Process, servers: Servers, name: string, c: Cell, a: Step)
    requires Inv(process, name, c) && Enabled(process, servers, c, a) && (a.Timeout? || a.Health?)
    ensures Inv(process, name, After(process, servers, name, c, a))
    ensures Grows(c, After(process, servers, name, c, a))
  {
    if a.Timeout? {
      PushReplyIsOK(process, name, c, Err(LOST), a.now);
    } else {
      var answered := After(process, servers, name, c, a).(pass := c.pass);
      PassKeeps(process, name, c, answered);
      HealthReplyIsOK(process, name, answered, a.reply, a.now);
    }
    PassKeeps(process, name, c, After(process, servers, name, c, a));
  }

  lemma ServeKeeps(process: Process, servers: Servers, name: string, c: Cell, a: Step)
    requires Inv(process, name, c) && Enabled(process, servers, c, a) && (a.ServePush? || a.Drop?)
    ensures Inv(process, name, After(process, servers, name, c, a))
    ensures Grows(c, After(process, servers, name, c, a))
  {
    var d := After(process, servers, name, c, a);
    var served := d.(pass := c.pass);
    if c.pass.AtStatus? {
      StatusWriteGrows(process, name, c, served);
    }
    PassKeeps(process, name, c, served);
    if a.ServePush? && a.delivered {
      PushReplyIsOK(process, name, served, a.pushed, a.now);
    }
    PassKeeps(process, name, served, d);
  }

  lemma UserKeeps(process: Process, servers: Servers, name: string, c: Cell, a: Step)
    requires Inv(process, name, c) && Enabled(process, servers, c, a) && (ByUser(a))
    ensures Inv(process, name, After(process, servers, name, c, a))
    ensures Grows(c, After(process, servers, name, c, a))
  {
    hide PassOK, RequestOK, Start, AfterPush, AfterHealth, AfterStatus, FlagAt, Backed, Reported;
    assert VersionOK(c, |c.versions| - 1);
    match a
    case Create(p, f) =>
      PutKeeps(process, name, c, Some(Config(|c.versions|, 1, p, f, ConfigStatus([], 0, []))), ConfigCreated);
    case Edit(p, f) =>
      var o := Current(c).value;
      PutKeeps(process, name, c,
               if o.paused == p && o.flowProvider == f then Some(o)
               else Some(o.(paused := p, flowProvider := f, generation := o.generation + 1)), ConfigEdited);
    case Delete => PutKeeps(process, name, c, None, ConfigDeleted);
  }

  lemma StoreKeeps(process: Process, servers: Servers, name: string, c: Cell, a: Step)
    requires Inv(process, name, c) && Enabled(process, servers, c, a) && a.Store?
    ensures Inv(process, name, After(process, servers, name, c, a))
    ensures Grows(c, After(process, servers, name, c, a))
  {
    var d := After(process, servers, name, c, a);
    var written := c.(versions := d.versions);
    if Fresh(c) && !a.chance.FailBefore? {
      assert VersionOK(c, |c.versions| - 1);
      PutKeeps(process, name, c, Some(Current(c).value.(status := c.pass.cr.status)),
               match c.pass.purpose case Confirming(es) => ConfigConfirmedBy(es) case Explaining(_) => ConfigExplained);
    } else {
      assert written == c;
    }
    PassKeeps(process, name, written, d);
  }

  lemma StepKeeps(process: Process, servers: Servers, name: string, c: Cell, a: Step)
    requires Inv(process, name, c) && Enabled(process, servers, c, a)
    ensures Inv(process, name, After(process, servers, name, c, a))
    ensures Grows(c, After(process, servers, name, c, a))
  {
    hide After, Enabled, Inv, Grows;
    match a
    case Begin(_, _) => BeginKeeps(process, servers, name, c, a);
    case BeginFailed(_) => BeginKeeps(process, servers, name, c, a);
    case Send(_) => SendKeeps(process, servers, name, c, a);
    case Timeout(_) => ReplyKeeps(process, servers, name, c, a);
    case Health(_, _) => ReplyKeeps(process, servers, name, c, a);
    case Store(_) => StoreKeeps(process, servers, name, c, a);
    case ServePush(_, _, _, _) => ServeKeeps(process, servers, name, c, a);
    case Drop => ServeKeeps(process, servers, name, c, a);
    case Create(_, _) => UserKeeps(process, servers, name, c, a);
    case Edit(_, _) => UserKeeps(process, servers, name, c, a);
    case Delete => UserKeeps(process, servers, name, c, a);
  }

  // A process that stops leaves its pass; the next one may answer to another name.
  lemma CrashKeeps(process: Process, next: Process, name: string, c: Cell)
    requires Inv(process, name, c)
    ensures Inv(next, name, Crash(c)) && Grows(c, Crash(c))
  {
    VersionsGrow(c, Crash(c));
  }

  // A version that no success wrote has Ready=True only as it found it.
  predicate ReadyIsInherited(c: Cell, i: nat) {
    Present(c, i) && ReadyTrue(c.versions[i].obj.value.status) ==>
      i > 0 && Present(c, i - 1) && c.versions[i].obj.value.status == c.versions[i - 1].obj.value.status
  }

  lemma OnlySuccessMakesReady(c: Cell, i: nat)
    requires Chain(c.versions) && i < |c.versions| && !c.versions[i].cause.ConfigConfirmedBy?
    ensures ReadyIsInherited(c, i)
  {
    assert i > 0 ==> Follows(i, c.versions[i - 1].obj, c.versions[i]);
  }

  // The version whose write last stored a poll, going back from i to the creation
  // of the object.
  function LastPolled(vs: seq<ConfigVersion>, i: nat): Option<nat>
    requires i < |vs|
  {
    if vs[i].cause.ConfigConfirmedBy? then Some(i)
    else if vs[i].cause == ConfigCreated || i == 0 then None
    else LastPolled(vs, i - 1)
  }

  // status.providerHealth is what that poll reported, and empty if there was
  // none. No other write touches it.
  lemma {:induction false} ProviderHealthIsTheLast(process: Process, name: string, c: Cell, i: nat)
    requires Inv(process, name, c) && Present(c, i)
    ensures var o := c.versions[i].obj.value;
            match LastPolled(c.versions, i)
            case Some(j) =>
              && j <= i && Present(c, j) && c.versions[j].obj.value.uid == o.uid
              && c.versions[j].cause == ConfigConfirmedBy(o.status.providerHealth)
              && Reported(c, c.versions[j].obj.value, o.status.providerHealth)
            case None => o.status.providerHealth == []
  {
    assert VersionOK(c, i);
    assert i > 0 && Follows(i, c.versions[i - 1].obj, c.versions[i]);
    if !c.versions[i].cause.ConfigConfirmedBy? && c.versions[i].cause != ConfigCreated {
      ProviderHealthIsTheLast(process, name, c, i - 1);
    }
  }

  // ---- runs of one name -------------------------------------------------

  // A step, and the control planes when it was taken.
  datatype Move = Move(servers: Servers, step: Step)

  predicate MovesValid(process: Process, name: string, c: Cell, moves: seq<Move>)
    decreases |moves|
  {
    moves == [] ||
    (Enabled(process, moves[0].servers, c, moves[0].step)
     && MovesValid(process, name,
                   After(process, moves[0].servers, name, c, moves[0].step), moves[1..]))
  }

  function MovesAfter(process: Process, name: string, c: Cell, moves: seq<Move>): Cell
    requires MovesValid(process, name, c, moves)
    decreases |moves|
  {
    if moves == [] then c
    else MovesAfter(process, name,
                    After(process, moves[0].servers, name, c, moves[0].step), moves[1..])
  }

  lemma {:induction false} LastMove(process: Process, name: string, c: Cell, moves: seq<Move>,
                                    d: Cell, m: Move)
    requires MovesValid(process, name, c, moves) && MovesAfter(process, name, c, moves) == d
    requires Enabled(process, m.servers, d, m.step)
    ensures MovesValid(process, name, c, moves + [m])
    ensures MovesAfter(process, name, c, moves + [m]) ==
            After(process, m.servers, name, d, m.step)
    decreases |moves|
  {
    hide Enabled, After;
    if moves == [] {
      var e := After(process, m.servers, name, d, m.step);
      assert moves + [m] == [m] && [m][1..] == [];
      assert MovesValid(process, name, e, []) && MovesAfter(process, name, e, []) == e;
    } else {
      LastMove(process, name,
               After(process, moves[0].servers, name, c, moves[0].step), moves[1..], d, m);
      assert (moves + [m])[1..] == moves[1..] + [m];
    }
  }
}
