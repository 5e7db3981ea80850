/** One reconcile pass over a policy object, as the micro-steps between which
    the process can stop and the rest of the world can move. The two policy
    reconcilers run the same steps; they differ in the consistency check, the
    status field they fill and the reason map, which follow the spec's kind. */
module PolicyMachine {
  import opened Types
  import opened Conditions
  import opened Errors

  // ---- finalizers -------------------------------------------------------

  predicate Held(fs: seq<Finalizer>) { CREdges in fs }

  function Without(fs: seq<Finalizer>, f: Finalizer): (r: seq<Finalizer>)
    ensures f !in r
    ensures forall g :: g != f ==> (g in r <==> g in fs)
  {
    if fs == [] then []
    else if fs[0] == f then Without(fs[1..], f)
    else [fs[0]] + Without(fs[1..], f)
  }

  // What is kept is kept in order.
  lemma {:induction false} WithoutKeepsOrder(a: seq<Finalizer>, b: seq<Finalizer>, f: Finalizer)
    ensures Without(a + b, f) == Without(a, f) + Without(b, f)
    ensures Without([f], f) == [] && forall g :: g != f ==> Without([g], f) == [g]
    decreases |a|
  {
    if a == [] {
      assert a + b == b;
    } else {
      WithoutKeepsOrder(a[1..], b, f);
      assert (a + b)[1..] == a[1..] + b;
    }
  }

  // ---- checkPauseGate ---------------------------------------------------

  // What reading the PlatformConfig gave; version is its place in the history.
  datatype GateRead =
    | Missing
    | Unreadable(text: string)
    | Seen(version: nat, paused: bool, flowProvider: string)

  // A PlatformConfig version that was read and opens the gate, and the cluster's
  // flow provider it names.
  datatype Opening = Opening(singleton: string, version: nat, provider: string)

  datatype Gate =
    | Shut(reason: Reason, message: Message)
    | Open(opening: Opening)

  function CheckPauseGate(singleton: string, r: GateRead): (g: Gate)
    ensures g.Open? <==> r.Seen? && !r.paused
    ensures g.Open? ==> g.opening == Opening(singleton, r.version, r.flowProvider)
    ensures g.Shut? ==> g.reason == match r
                                    case Missing => PlatformConfigMissing
                                    case Unreadable(_) => PlatformConfigUnreadable
                                    case Seen(_, _, _) => Paused
  {
    match r
    case Missing => Shut(PlatformConfigMissing, GateMessage(singleton, ""))
    case Unreadable(text) => Shut(PlatformConfigUnreadable, GateMessage(singleton, text))
    case Seen(version, paused, flowProvider) =>
      if paused then Shut(Paused, GateMessage(singleton, "")) else Open(Opening(singleton, version, flowProvider))
  }

  // ---- the confirmed result ---------------------------------------------

  function SegmentationInconsistency(r: ReconcileResult): Option<Inconsistency> {
    if r.status != "ok" then Some(BadStatus(r.status))
    else if |r.unverifiedEdgeKeys| > 0 then Some(UnverifiedEdges(|r.unverifiedEdgeKeys|))
    else if r.edgesUpserted != r.matchedWorkloads then Some(CountMismatch(r.edgesUpserted, r.matchedWorkloads))
    else None
  }

  function RuntimeInconsistency(r: ReconcileResult): Option<Inconsistency> {
    if r.status != "ok" then Some(BadStatus(r.status))
    else if r.providerInstalled.None? then Some(ProviderUnconfirmed)
    else if !r.providerInstalled.value then Some(ProviderAbsent)
    else if |r.unverifiedEdgeKeys| > 0 then Some(UnverifiedEdges(|r.unverifiedEdgeKeys|))
    else if r.edgesUpserted != r.matchedWorkloads then Some(CountMismatch(r.edgesUpserted, r.matchedWorkloads))
    else None
  }

  function Inconsistent(kind: Kind, r: ReconcileResult): Option<Inconsistency> {
    if kind == SegmentationPolicy then SegmentationInconsistency(r) else RuntimeInconsistency(r)
  }

  // What a 200 must show to count as confirmation.
  predicate Confirms(kind: Kind, r: ReconcileResult) {
    && r.status == "ok" && r.unverifiedEdgeKeys == [] && r.edgesUpserted == r.matchedWorkloads
    && (kind == RuntimeSecurityPolicy ==> r.providerInstalled == Some(true))
  }

  lemma ConsistentIffConfirms(kind: Kind, r: ReconcileResult)
    ensures Inconsistent(kind, r).None? <==> Confirms(kind, r)
    ensures Inconsistent(kind, r).None? <==>
            && r.status == "ok" && r.unverifiedEdgeKeys == [] && r.edgesUpserted == r.matchedWorkloads
            && (kind == RuntimeSecurityPolicy ==> r.providerInstalled == Some(true))
  {}

  // Which shortcoming of a 200 is told: the first, in this order.
  lemma InconsistencyIsTheFirst(kind: Kind, r: ReconcileResult)
    ensures var why := Inconsistent(kind, r);
            var runtime := kind == RuntimeSecurityPolicy;
            var affirmed := runtime ==> r.providerInstalled == Some(true);
            var verified := r.unverifiedEdgeKeys == [];
            && (r.status != "ok" ==> why == Some(BadStatus(r.status)))
            && (r.status == "ok" && runtime && r.providerInstalled.None? ==> why == Some(ProviderUnconfirmed))
            && (r.status == "ok" && runtime && r.providerInstalled == Some(false) ==> why == Some(ProviderAbsent))
            && (r.status == "ok" && affirmed && !verified ==> why == Some(UnverifiedEdges(|r.unverifiedEdgeKeys|)))
            && (r.status == "ok" && affirmed && verified && r.edgesUpserted != r.matchedWorkloads ==>
                  why == Some(CountMismatch(r.edgesUpserted, r.matchedWorkloads)))
  {}

  function ReadyMessage(r: ReconcileResult): Message {
    if r.matchedWorkloads == 0 then ConfirmedZero(r.edgesClosed)
    else ConfirmedCounts(r.matchedWorkloads, r.edgesUpserted, r.edgesClosed)
  }

  function ConfirmedValue(spec: PolicySpec, gateProvider: string, r: ReconcileResult): Confirmed {
    match spec
    case SegmentationSpec(_, _, _, providerRef) =>
      ResolvedFlowProvider(if providerRef == "" then gateProvider else providerRef)
    case RuntimeSpec(_, _, _) => CorrelatedEvidenceCount(r.edgesUpserted)
  }

  // The provider a policy was reconciled under is its own choice if it made one,
  // else the cluster's; the evidence is the edges that landed.
  predicate ValueIs(spec: PolicySpec, clusterProvider: string, r: ReconcileResult, v: Confirmed) {
    match spec
    case SegmentationSpec(_, _, _, own) =>
      && v.ResolvedFlowProvider?
      && (own != "" ==> v.provider == own) && (own == "" ==> v.provider == clusterProvider)
    case RuntimeSpec(_, _, _) => v.CorrelatedEvidenceCount? && v.count == r.edgesUpserted
  }

  lemma ConfirmedValueIs(spec: PolicySpec, clusterProvider: string, r: ReconcileResult, v: Confirmed)
    ensures v == ConfirmedValue(spec, clusterProvider, r) <==> ValueIs(spec, clusterProvider, r, v)
  {}

  function SuccessStatus(cr: Object, gateProvider: string, r: ReconcileResult, now: nat): Status {
    Status(SetCondition(cr.status.conditions,
                        Condition(Ready, StatusTrue, Reconciled, ReadyMessage(r), cr.generation, now), now),
           cr.generation, ConfirmedValue(cr.spec, gateProvider, r))
  }

  function FailureStatus(cr: Object, reason: Reason, message: Message, now: nat): Status {
    cr.status.(conditions := SetCondition(cr.status.conditions,
                                          Condition(Ready, StatusFalse, reason, message, cr.generation, now), now))
  }

  // ---- the pass ---------------------------------------------------------

  // What the next status write records: a confirmed success, or not.
  datatype Purpose = Confirming(value: Confirmed) | Explaining(reason: Reason)

  // rv is the resourceVersion of the copy the pass works on; cr is that copy,
  // with the changes made to it since; gate is what the pass read at its gate.
  datatype Pass =
    | Idle
    | AtGate(rv: nat, cr: Object)
    | AtAdd(rv: nat, cr: Object, gate: Opening)
    | AtUpsert(rv: nat, cr: Object, gate: Opening)
    | AwaitUpsert(rv: nat, cr: Object, gate: Opening)
    | AtClose(rv: nat, cr: Object)
    | AwaitClose(rv: nat, cr: Object)
    | AtRelease(rv: nat, cr: Object)
    | AtStatus(rv: nat, cr: Object, purpose: Purpose, ending: Outcome)
    | Done(outcome: Outcome)

  datatype GetReply = NotFound | Found(rv: nat, cr: Object) | GetError(text: string)

  function Start(r: GetReply): Pass {
    match r
    case NotFound => Done(Outcome(0, None))
    case GetError(text) => Done(Outcome(0, Some(GetFailed(text))))
    case Found(rv, cr) =>
      if cr.deleting then (if Held(cr.finalizers) then AtClose(rv, cr) else Done(Outcome(0, None)))
      else AtGate(rv, cr)
  }

  // notReady: stamp the condition, write it, then requeue or fail.
  function NotReadyPass(rv: nat, cr: Object, reason: Reason, message: Message, delay: nat, now: nat): Pass {
    AtStatus(rv, cr.(status := FailureStatus(cr, reason, message, now)), Explaining(reason),
             if delay > 0 then Outcome(delay, None) else Outcome(0, Some(NotReady(reason, message))))
  }

  function AfterGate(p: Pass, singleton: string, r: GateRead, now: nat): Pass
    requires p.AtGate?
  {
    var gate := CheckPauseGate(singleton, r);
    if gate.Shut? then NotReadyPass(p.rv, p.cr, gate.reason, gate.message, PAUSED_REQUEUE, now)
    else if Held(p.cr.finalizers) then AtUpsert(p.rv, p.cr, gate.opening)
    else AtAdd(p.rv, p.cr.(finalizers := p.cr.finalizers + [CREdges]), gate.opening)
  }

  // The server's answer to an Update: the object as stored, or a refusal.
  datatype WriteReply = Accepted(rv: nat, obj: Object) | Refused(error: WriteError)

  function AfterAdd(p: Pass, w: WriteReply): Pass
    requires p.AtAdd?
  {
    match w
    case Accepted(rv, obj) => AtUpsert(rv, obj, p.gate)
    case Refused(e) => Done(Outcome(0, Some(AddingFinalizer(e))))
  }

  function AfterUpsert(p: Pass, r: Reply<ReconcileResult, Error>, now: nat): Pass
    requires p.AwaitUpsert?
  {
    var kind := KindOf(p.cr.spec);
    match r
    case Err(e) =>
      var (reason, delay) := FailurePlan(kind, e);
      NotReadyPass(p.rv, p.cr, reason, CallFailed(e), delay, now)
    case Ok(res) =>
      if Inconsistent(kind, res).Some?
      then NotReadyPass(p.rv, p.cr, WriteNotVerified, Unconfirmed(Inconsistent(kind, res).value), 0, now)
      else AtStatus(p.rv, p.cr.(status := SuccessStatus(p.cr, p.gate.provider, res, now)),
                    Confirming(ConfirmedValue(p.cr.spec, p.gate.provider, res)),
                    Outcome(RESYNC_INTERVAL, None))
  }

  function AfterClose(p: Pass, r: Reply<CloseResult, Error>, now: nat): Pass
    requires p.AwaitClose?
  {
    match r
    case Err(e) =>
      if IsUnconfigured(e) then AtRelease(p.rv, p.cr.(finalizers := Without(p.cr.finalizers, CREdges)))
      else if IsPaused(e) then NotReadyPass(p.rv, p.cr, Paused, CallFailed(e), PAUSED_REQUEUE, now)
      else NotReadyPass(p.rv, p.cr, CloseFailed, CallFailed(e), 0, now)
    case Ok(res) =>
      if res.status != "ok" || |res.unverifiedEdgeKeys| > 0
      then NotReadyPass(p.rv, p.cr, CloseFailed, CloseUnconfirmed(res.status, |res.unverifiedEdgeKeys|), 0, now)
      else AtRelease(p.rv, p.cr.(finalizers := Without(p.cr.finalizers, CREdges)))
  }

  function AfterRelease(p: Pass, w: WriteReply): Pass
    requires p.AtRelease?
  {
    Done(Outcome(0, if w.Accepted? then None else Some(RemovingFinalizer(w.error))))
  }

  function AfterStatus(p: Pass, w: WriteReply): Pass
    requires p.AtStatus?
  {
    match w
    case Accepted(_, _) => Done(p.ending)
    case Refused(e) =>
      Done(Outcome(0, Some(UpdatingStatus(if p.purpose.Explaining? then p.purpose.reason else Reconciled, e))))
  }

  // ---- a pass from start to end -----------------------------------------

  // Everything the world answers during one pass.
  datatype Answers = Answers(
    get: GetReply, gate: GateRead, update: WriteReply,
    upsert: Reply<ReconcileResult, Error>, close: Reply<CloseResult, Error>, status: WriteReply)

  function Finish(p: Pass, w: WriteReply): Outcome
    requires p.AtStatus? || p.AtRelease? || p.Done?
  {
    if p.AtStatus? then AfterStatus(p, w).outcome
    else if p.AtRelease? then AfterRelease(p, w).outcome
    else p.outcome
  }

  // A deleting copy that holds the finalizer, from the close call on.
  function ClosingOutcome(rv: nat, cr: Object, a: Answers, now: nat): Outcome {
    var q := AfterClose(AwaitClose(rv, cr), a.close, now);
    Finish(q, if q.AtRelease? then a.update else a.status)
  }

  // A live copy that holds the finalizer behind an open gate, from the call on.
  function CallOutcome(p: Pass, a: Answers, now: nat): Outcome
    requires p.AtUpsert?
  {
    Finish(AfterUpsert(AwaitUpsert(p.rv, p.cr, p.gate), a.upsert, now), a.status)
  }

  // A live copy, from the gate on.
  function LiveOutcome(p: Pass, singleton: string, a: Answers, now: nat): Outcome
    requires p.AtGate?
  {
    var q := AfterGate(p, singleton, a.gate, now);
    if q.AtStatus? then Finish(q, a.status)
    else
      var q' := if q.AtAdd? then AfterAdd(q, a.update) else q;
      if q'.Done? then q'.outcome else CallOutcome(q', a, now)
  }

  // The return value of Reconcile.
  function PassOutcome(singleton: string, a: Answers, now: nat): Outcome {
    var p := Start(a.get);
    if p.Done? then p.outcome
    else if p.AtClose? then ClosingOutcome(p.rv, p.cr, a, now)
    else LiveOutcome(p, singleton, a, now)
  }

  // ---- when a pass may be forgotten, and when it comes back -------------

  predicate ReleaseAllowed(close: Reply<CloseResult, Error>) {
    match close
    case Ok(res) => res.status == "ok" && res.unverifiedEdgeKeys == []
    case Err(e) => IsUnconfigured(e)
  }

  // The call is made: the object is live, the gate open, the finalizer on.
  predicate CallMade(a: Answers) {
    && a.get.Found? && !a.get.cr.deleting && a.gate.Seen? && !a.gate.paused
    && (Held(a.get.cr.finalizers) || a.update.Accepted?)
  }

  function CalledKind(a: Answers): Kind
    requires CallMade(a)
  {
    KindOf(if Held(a.get.cr.finalizers) then a.get.cr.spec else a.update.obj.spec)
  }

  // A pass ends with no error and no requeue only when nothing is left to do.
  lemma SilentIffNothingLeft(singleton: string, a: Answers, now: nat)
    ensures PassOutcome(singleton, a, now) == Outcome(0, None) <==>
            || a.get.NotFound?
            || (a.get.Found? && a.get.cr.deleting && CREdges !in a.get.cr.finalizers)
            || (a.get.Found? && a.get.cr.deleting && ReleaseAllowed(a.close) && a.update.Accepted?)
    ensures Silent(PassOutcome(singleton, a, now)) <==> PassOutcome(singleton, a, now) == Outcome(0, None)
  {}

  // ---- what the condition of a pass says --------------------------------

  // The pass is about to say this in its Ready condition, for the generation it
  // worked on.
  predicate Says(p: Pass, status: ConditionStatus, reason: Reason, message: Message) {
    && p.AtStatus? && Find(p.cr.status.conditions, Ready).Some?
    && var c := Find(p.cr.status.conditions, Ready).value;
       c.status == status && c.reason == reason && c.message == message && c.observedGeneration == p.cr.generation
  }

  // Of the copy, nothing moves but the status, and of the conditions nothing but
  // Ready, by one write at this time; unless it is a success, what was confirmed
  // before stays.
  predicate StampsReady(cr: Object, q: Pass, now: nat) {
    && q.AtStatus? && q.cr == cr.(status := q.cr.status) && Find(q.cr.status.conditions, Ready).Some?
    && q.cr.status.conditions ==
       SetCondition(cr.status.conditions, Find(q.cr.status.conditions, Ready).value, now)
    && (q.purpose.Explaining? ==>
          && q.cr.status.observedGeneration == cr.status.observedGeneration
          && q.cr.status.confirmed == cr.status.confirmed)
  }

  // It is not ready, and comes back after the delay, or with this very error.
  predicate NotReadyFor(p: Pass, reason: Reason, message: Message, delay: nat) {
    && Says(p, StatusFalse, reason, message) && p.purpose == Explaining(reason)
    && p.ending == if delay > 0 then Outcome(delay, None) else Outcome(0, Some(NotReady(reason, message)))
  }

  lemma NotReadyPassSays(rv: nat, cr: Object, reason: Reason, message: Message, delay: nat, now: nat)
    ensures NotReadyFor(NotReadyPass(rv, cr, reason, message, delay, now), reason, message, delay)
    ensures var q := NotReadyPass(rv, cr, reason, message, delay, now);
            q.rv == rv && StampsReady(cr, q, now)
  {
    FailureKeepsLastConfirmed(cr, reason, message, now);
    WriteAsFound(cr.status.conditions, Condition(Ready, StatusFalse, reason, message, cr.generation, now), now);
  }

  // A shut gate gives the reason of its reading, and an open one changes nothing
  // but the finalizer.
  lemma GateSays(p: Pass, singleton: string, r: GateRead, now: nat)
    requires p.AtGate?
    ensures var q := AfterGate(p, singleton, r, now); q.rv == p.rv && (q.AtStatus? ==> StampsReady(p.cr, q, now))
    ensures var q := AfterGate(p, singleton, r, now);
            match r
            case Missing => NotReadyFor(q, PlatformConfigMissing, GateMessage(singleton, ""), 90)
            case Unreadable(text) => NotReadyFor(q, PlatformConfigUnreadable, GateMessage(singleton, text), 90)
            case Seen(version, paused, provider) =>
              if paused then NotReadyFor(q, Paused, GateMessage(singleton, ""), 90)
              else if CREdges in p.cr.finalizers then q == AtUpsert(p.rv, p.cr, Opening(singleton, version, provider))
              else q == AtAdd(p.rv, p.cr.(finalizers := p.cr.finalizers + [CREdges]),
                              Opening(singleton, version, provider))
  {
    var gate := CheckPauseGate(singleton, r);
    if gate.Shut? {
      NotReadyPassSays(p.rv, p.cr, gate.reason, gate.message, 90, now);
    }
  }

  // What a failed call is reported as, by the error at its root.
  predicate FailureSays(q: Pass, kind: Kind, e: Error) {
    var m := CallFailed(e);
    match Root(e)
    case Unconfigured(_) => NotReadyFor(q, AwaitingConfiguration, m, 300)
    case Api(status, category, _, _) =>
      if status == 423 || category == "paused" then NotReadyFor(q, Paused, m, 90)
      else if kind == RuntimeSecurityPolicy && (status == 503 || category == "provider_unavailable")
      then NotReadyFor(q, ProviderUnavailable, m, 90)
      else if category == "write_not_verified" then NotReadyFor(q, WriteNotVerified, m, 0)
      else NotReadyFor(q, ReconcileFailed, m, 0)
    case _ => NotReadyFor(q, BackendUnreachable, m, 0)
  }

  // What a confirmed result is reported as: a zero match as a checked zero.
  predicate SuccessSays(q: Pass, p: Pass, r: ReconcileResult)
    requires p.AwaitUpsert?
  {
    && Says(q, StatusTrue, Reconciled,
            if r.matchedWorkloads == 0 then ConfirmedZero(r.edgesClosed)
            else ConfirmedCounts(r.matchedWorkloads, r.edgesUpserted, r.edgesClosed))
    && ValueIs(p.cr.spec, p.gate.provider, r, q.cr.status.confirmed)
    && q.cr.status.observedGeneration == p.cr.generation
    && q.purpose == Confirming(q.cr.status.confirmed) && q.ending == Outcome(600, None)
  }

  // Every answer to the call, and what becomes of it.
  lemma AnswerSays(p: Pass, r: Reply<ReconcileResult, Error>, now: nat)
    requires p.AwaitUpsert?
    ensures var q := AfterUpsert(p, r, now); q.AtStatus? && q.rv == p.rv && StampsReady(p.cr, q, now)
    ensures var q, kind := AfterUpsert(p, r, now), KindOf(p.cr.spec);
            match r
            case Err(e) => FailureSays(q, kind, e)
            case Ok(res) =>
              if Confirms(kind, res) then SuccessSays(q, p, res)
              else Inconsistent(kind, res).Some?
                   && NotReadyFor(q, WriteNotVerified, Unconfirmed(Inconsistent(kind, res).value), 0)
  {
    hide NotReadyPass, NotReadyFor, Inconsistent, ConfirmedValue, ValueIs, FailurePlan, SetCondition;
    var kind := KindOf(p.cr.spec);
    match r
    case Err(e) =>
      ReasonsAreExact(e, kind);
      NotReadyPassSays(p.rv, p.cr, FailurePlan(kind, e).0, CallFailed(e), FailurePlan(kind, e).1, now);
    case Ok(res) =>
      ConsistentIffConfirms(kind, res);
      if Confirms(kind, res) {
        SuccessStampsGeneration(p.cr, p.gate.provider, res, now);
        SuccessMessageIs(p.cr, p.gate.provider, res, now);
        var c := Condition(Ready, StatusTrue, Reconciled, ReadyMessage(res), p.cr.generation, now);
        WriteAsFound(p.cr.status.conditions, c, now);
        ConfirmedValueIs(p.cr.spec, p.gate.provider, res, ConfirmedValue(p.cr.spec, p.gate.provider, res));
      } else {
        NotReadyPassSays(p.rv, p.cr, WriteNotVerified, Unconfirmed(Inconsistent(kind, res).value), 0, now);
      }
  }

  lemma SuccessMessageIs(cr: Object, gateProvider: string, r: ReconcileResult, now: nat)
    ensures var s := SuccessStatus(cr, gateProvider, r, now);
            && Find(s.conditions, Ready).Some?
            && Find(s.conditions, Ready).value.message ==
               if r.matchedWorkloads == 0 then ConfirmedZero(r.edgesClosed)
               else ConfirmedCounts(r.matchedWorkloads, r.edgesUpserted, r.edgesClosed)
  {
    SetConditionAt(cr.status.conditions,
                   Condition(Ready, StatusTrue, Reconciled, ReadyMessage(r), cr.generation, now), now);
  }

  // Every answer to the close call: the finalizer goes exactly on a confirmation
  // or without a client, and a blocked deletion says whether the pause blocks it.
  lemma CloseSays(p: Pass, r: Reply<CloseResult, Error>, now: nat)
    requires p.AwaitClose?
    ensures var q := AfterClose(p, r, now); q.rv == p.rv && (q.AtStatus? ==> StampsReady(p.cr, q, now))
    ensures var q := AfterClose(p, r, now);
            match r
            case Ok(res) =>
              if res.status == "ok" && res.unverifiedEdgeKeys == []
              then q == AtRelease(p.rv, p.cr.(finalizers := Without(p.cr.finalizers, CREdges)))
              else NotReadyFor(q, CloseFailed, CloseUnconfirmed(res.status, |res.unverifiedEdgeKeys|), 0)
            case Err(e) =>
              match Root(e)
              case Unconfigured(_) => q == AtRelease(p.rv, p.cr.(finalizers := Without(p.cr.finalizers, CREdges)))
              case Api(status, category, _, _) =>
                if status == 423 || category == "paused" then NotReadyFor(q, Paused, CallFailed(e), 90)
                else NotReadyFor(q, CloseFailed, CallFailed(e), 0)
              case _ => NotReadyFor(q, CloseFailed, CallFailed(e), 0)
  {
    hide NotReadyPass, NotReadyFor;
    match r
    case Err(e) =>
      RootDecides(e);
      NotReadyPassSays(p.rv, p.cr, Paused, CallFailed(e), 90, now);
      NotReadyPassSays(p.rv, p.cr, CloseFailed, CallFailed(e), 0, now);
    case Ok(res) =>
      NotReadyPassSays(p.rv, p.cr, CloseFailed, CloseUnconfirmed(res.status, |res.unverifiedEdgeKeys|), 0, now);
  }

  // Which error a pass returns when the API server is in its way.
  lemma WriteErrorsAreExact(singleton: string, a: Answers, now: nat)
    ensures var o := PassOutcome(singleton, a, now);
            && (a.get.GetError? ==> o == Outcome(0, Some(GetFailed(a.get.text))))
            && (a.get.Found? && !a.get.cr.deleting && a.gate.Seen? && !a.gate.paused
                && CREdges !in a.get.cr.finalizers && a.update.Refused? ==>
                  o == Outcome(0, Some(AddingFinalizer(a.update.error))))
            && (a.get.Found? && a.get.cr.deleting && CREdges in a.get.cr.finalizers
                && ReleaseAllowed(a.close) && a.update.Refused? ==>
                  o == Outcome(0, Some(RemovingFinalizer(a.update.error))))
            && (AttemptsStatus(singleton, a, now) && a.status.Refused? ==>
                  o.requeueAfter == 0 && o.error.Some? && o.error.value.UpdatingStatus?
                  && o.error.value.error == a.status.error)
  {}

  // The three expected states are requeued with their own delays and no error,
  // a confirmed reconcile is requeued for resync, and nothing else is requeued.
  lemma RequeueIsExact(singleton: string, a: Answers, now: nat)
    ensures
      var o := PassOutcome(singleton, a, now);
      var gateShut := a.get.Found? && !a.get.cr.deleting && !(a.gate.Seen? && !a.gate.paused);
      var closing := a.get.Found? && a.get.cr.deleting && Held(a.get.cr.finalizers);
      var failed := CallMade(a) && a.upsert.Err?;
      var pausedCall := failed && !IsUnconfigured(a.upsert.error) && IsPaused(a.upsert.error);
      var noProvider := failed && !IsUnconfigured(a.upsert.error)
                        && CalledKind(a) == RuntimeSecurityPolicy && IsProviderUnavailable(a.upsert.error);
      var pausedClose := closing && a.close.Err? && !IsUnconfigured(a.close.error) && IsPaused(a.close.error);
      && (o.requeueAfter > 0 ==> o.error.None? && a.status.Accepted?)
      && (o.requeueAfter == 600 <==>
          a.status.Accepted? && CallMade(a) && a.upsert.Ok? && Confirms(CalledKind(a), a.upsert.value))
      && (o.requeueAfter == 300 <==> a.status.Accepted? && failed && IsUnconfigured(a.upsert.error))
      && (o.requeueAfter == 90 <==> (a.status.Accepted? && (gateShut || pausedCall || noProvider || pausedClose)))
      && o.requeueAfter in {0, 90, 300, 600}
  {
    if CallMade(a) && a.upsert.Ok? {
      ConsistentIffConfirms(CalledKind(a), a.upsert.value);
    }
  }

  // ---- when a pass leaves a condition behind ----------------------------

  predicate LiveAttempts(p: Pass, singleton: string, a: Answers, now: nat)
    requires p.AtGate?
  {
    var q := AfterGate(p, singleton, a.gate, now);
    if q.AtStatus? then true
    else
      var q' := if q.AtAdd? then AfterAdd(q, a.update) else q;
      q'.AtUpsert? && AfterUpsert(AwaitUpsert(q'.rv, q'.cr, q'.gate), a.upsert, now).AtStatus?
  }

  // The pass gets as far as a status write.
  predicate AttemptsStatus(singleton: string, a: Answers, now: nat) {
    var p := Start(a.get);
    if p.Done? then false
    else if p.AtClose? then AfterClose(AwaitClose(p.rv, p.cr), a.close, now).AtStatus?
    else LiveAttempts(p, singleton, a, now)
  }

  // A pass over an object that is there attempts a status write unless it lets go
  // of the finalizer, accepted or refused, has no finalizer to let go of, or is
  // refused when it attaches it.
  lemma StatusIsAttemptedIff(singleton: string, a: Answers, now: nat)
    ensures AttemptsStatus(singleton, a, now) <==>
            && a.get.Found?
            && if a.get.cr.deleting then Held(a.get.cr.finalizers) && !ReleaseAllowed(a.close)
               else !(a.gate.Seen? && !a.gate.paused && !Held(a.get.cr.finalizers) && a.update.Refused?)
  {}

  // The pass knows that its condition is on the object. A write that was applied
  // while its answer was lost counts as refused here, as it does for the pass.
  predicate Told(singleton: string, a: Answers, now: nat) {
    AttemptsStatus(singleton, a, now) && a.status.Accepted?
  }

  // The status comment promises a condition on every path, errors included. These
  // are the ways, and no others, in which a pass ends in an error without one: the
  // object could not be read, or one of its three writes was refused.
  lemma UntoldFailuresIff(singleton: string, a: Answers, now: nat)
    ensures PassOutcome(singleton, a, now).error.Some? && !Told(singleton, a, now) <==>
            || a.get.GetError?
            || (a.get.Found? && !a.get.cr.deleting && a.gate.Seen? && !a.gate.paused
                && !Held(a.get.cr.finalizers) && a.update.Refused?)
            || (a.get.Found? && a.get.cr.deleting && Held(a.get.cr.finalizers)
                && ReleaseAllowed(a.close) && a.update.Refused?)
            || (AttemptsStatus(singleton, a, now) && a.status.Refused?)
  {}

  const NEWCOMER := Object(1, 1, false, [], RuntimeSpec(None, "", None), Status([], 0, CorrelatedEvidenceCount(0)))

  // A conflict on the write that attaches the finalizer is one.
  lemma RefusedFinalizerIsUntold(upsert: Reply<ReconcileResult, Error>, close: Reply<CloseResult, Error>)
    ensures var a := Answers(Found(1, NEWCOMER), Seen(1, false, "Hubble"), Refused(Conflict), upsert, close,
                             Refused(Conflict));
            && !AttemptsStatus("default", a, 0)
            && PassOutcome("default", a, 0) == Outcome(0, Some(AddingFinalizer(Conflict)))
  {}

  // A conflict on the status write itself is another.
  lemma RefusedStatusIsUntold(update: WriteReply, upsert: Reply<ReconcileResult, Error>,
                              close: Reply<CloseResult, Error>)
    ensures var a := Answers(Found(1, NEWCOMER), Missing, update, upsert, close, Refused(Conflict));
            && !Told("default", a, 0)
            && PassOutcome("default", a, 0) == Outcome(0, Some(UpdatingStatus(PlatformConfigMissing, Conflict)))
  {}

  // An unconfirmed close: the finalizer stays on the object, and whatever
  // becomes of the status write the key is scheduled again.
  lemma UnconfirmedCloseIsRetried(p: Pass, r: Reply<CloseResult, Error>, now: nat, w: WriteReply)
    requires p.AwaitClose? && !ReleaseAllowed(r)
    ensures var q := AfterClose(p, r, now);
            && q.AtStatus? && q.cr.finalizers == p.cr.finalizers && q.cr.spec == p.cr.spec
            && q.cr.status.observedGeneration == p.cr.status.observedGeneration
            && q.cr.status.confirmed == p.cr.status.confirmed
            && !Silent(AfterStatus(q, w).outcome)
  {}

  // Every way out of a live pass but the confirmed one leaves the last confirmed
  // values alone and turns Ready off, with the condition naming the generation
  // that was attempted.
  lemma FailureKeepsLastConfirmed(cr: Object, reason: Reason, message: Message, now: nat)
    ensures var s := FailureStatus(cr, reason, message, now);
            && s.observedGeneration == cr.status.observedGeneration
            && s.confirmed == cr.status.confirmed
            && Find(s.conditions, Ready).Some?
            && var c := Find(s.conditions, Ready).value;
               c.status == StatusFalse && c.reason == reason && c.message == message
               && c.observedGeneration == cr.generation
  {
    SetConditionAt(cr.status.conditions, Condition(Ready, StatusFalse, reason, message, cr.generation, now), now);
  }

  lemma SuccessStampsGeneration(cr: Object, gateProvider: string, r: ReconcileResult, now: nat)
    ensures var s := SuccessStatus(cr, gateProvider, r, now);
            && s.observedGeneration == cr.generation
            && Find(s.conditions, Ready).Some?
            && var c := Find(s.conditions, Ready).value;
               c.status == StatusTrue && c.reason == Reconciled && c.observedGeneration == s.observedGeneration
  {
    SetConditionAt(cr.status.conditions,
                   Condition(Ready, StatusTrue, Reconciled, ReadyMessage(r), cr.generation, now), now);
  }
}
