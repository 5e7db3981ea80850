/** The objects the operator reads and writes: the three custom resources, their
    conditions, and the results and errors of the control-plane calls. */
module Types {

  datatype Option<+T> = None | Some(value: T)

  datatype Reply<+T, +E> = Ok(value: T) | Err(error: E)

  // ---- keys and specs ---------------------------------------------------

  datatype Kind = SegmentationPolicy | RuntimeSecurityPolicy

  datatype Key = Key(kind: Kind, ns: string, name: string)

  newtype int32 = x: int | -0x8000_0000 <= x < 0x8000_0000

  type Labels = map<string, string>

  // None is the Go nil slice or map, which omitempty makes indistinguishable
  // from an absent field; Some([]) and Some(map[]) are the empty, non-nil ones.
  datatype Rule = Rule(ports: Option<seq<int32>>, peerSelector: Option<Labels>, peerNamespace: string)

  datatype PolicySpec =
    | SegmentationSpec(matchLabels: Option<Labels>, ingress: Option<seq<Rule>>,
                       egress: Option<seq<Rule>>, providerRef: string)
    | RuntimeSpec(matchLabels: Option<Labels>, tracingPolicyRef: string,
                  deniedBinaries: Option<seq<string>>)

  function KindOf(spec: PolicySpec): Kind {
    if spec.SegmentationSpec? then SegmentationPolicy else RuntimeSecurityPolicy
  }

  // ---- errors -----------------------------------------------------------

  // A Go error value. Wrapped is fmt.Errorf with %w; Opaque is any error that
  // is neither of the client's own two types and wraps nothing.
  datatype Error =
    | Unconfigured(missing: seq<string>)
    | Api(status: int, category: string, code: string, message: string)
    | Wrapped(context: string, inner: Error)
    | Opaque(text: string)

  // ---- results of the control-plane calls -------------------------------

  datatype ReconcileResult = ReconcileResult(
    status: string, edgesUpserted: int, edgesClosed: int, edgeKeys: seq<string>,
    matchedWorkloads: int, unverifiedEdgeKeys: seq<string>, providerInstalled: Option<bool>)

  datatype CloseResult = CloseResult(status: string, edgesClosed: int, unverifiedEdgeKeys: seq<string>)

  datatype ProviderReport = ProviderReport(
    name: string, checked: bool, healthy: Option<bool>, message: string,
    lastQueryError: Option<string>, blockers: seq<string>)

  // ---- conditions -------------------------------------------------------

  datatype ConditionType = Ready | ProviderHealthKnown | OtherType(name: string)

  datatype ConditionStatus = StatusTrue | StatusFalse | StatusUnknown

  datatype Reason =
    | Reconciled | Paused | PlatformConfigMissing | PlatformConfigUnreadable
    | BackendUnreachable | AwaitingConfiguration | ReconcileFailed | WriteNotVerified
    | ProviderUnavailable | CloseFailed | HealthUndetermined | HealthKnown | NotSingleton

  // Why a 200 does not evidence a converged write.
  datatype Inconsistency =
    | BadStatus(status: string)
    | ProviderUnconfirmed
    | ProviderAbsent
    | UnverifiedEdges(count: nat)
    | CountMismatch(upserted: int, matched: int)

  // A condition message, as the values interpolated into it.
  datatype Message =
    | ConfirmedZero(closed: int)
    | ConfirmedCounts(matched: int, upserted: int, closed: int)
    | GateMessage(singleton: string, detail: string)
    | CallFailed(error: Error)
    | Unconfirmed(why: Inconsistency)
    | CloseUnconfirmed(status: string, unverified: nat)
    | FlagMismatch(reported: bool, wanted: bool)
    | NotPushed(wanted: bool, error: Error)
    | HealthUnread(confirmed: bool, error: Error)
    | UndeterminedProviders(list: seq<string>)
    | DeterminedProviders(count: nat)
    | ConfigReady(paused: bool, providers: nat, undetermined: nat)
    | AnswersOnlyTo(name: string, singleton: string)

  datatype Condition = Condition(
    ctype: ConditionType, status: ConditionStatus, reason: Reason, message: Message,
    observedGeneration: nat, lastTransition: nat)

  // ---- policy objects ---------------------------------------------------

  datatype Finalizer = CREdges | Foreign(name: string)

  // The one status field each kind sets only from a confirmed 200:
  // resolvedFlowProvider and correlatedEvidenceCount.
  datatype Confirmed = ResolvedFlowProvider(provider: string) | CorrelatedEvidenceCount(count: int)

  datatype Status = Status(conditions: seq<Condition>, observedGeneration: nat, confirmed: Confirmed)

  datatype Object = Object(
    uid: nat, generation: nat, deleting: bool, finalizers: seq<Finalizer>,
    spec: PolicySpec, status: Status)

  function ZeroConfirmed(spec: PolicySpec): Confirmed {
    if spec.SegmentationSpec? then ResolvedFlowProvider("") else CorrelatedEvidenceCount(0)
  }

  // ---- PlatformConfig ---------------------------------------------------

  datatype Health = Unknown | Healthy | Unhealthy

  datatype HealthEntry = HealthEntry(
    name: string, health: Health, lastQueryError: string, reason: string, observedAt: nat)

  datatype ConfigStatus = ConfigStatus(
    conditions: seq<Condition>, observedGeneration: nat, providerHealth: seq<HealthEntry>)

  datatype Config = Config(
    uid: nat, generation: nat, paused: bool, flowProvider: string, status: ConfigStatus)

  datatype ConfigCause =
    | ConfigNeverExisted | ConfigCreated | ConfigEdited | ConfigDeleted
    | ConfigExplained | ConfigConfirmedBy(entries: seq<HealthEntry>)

  datatype ConfigVersion = ConfigVersion(obj: Option<Config>, cause: ConfigCause)

  // ---- what a reconcile pass returns ------------------------------------

  // Requeue delays, in seconds.
  const PAUSED_REQUEUE: nat := 90
  const RESYNC_INTERVAL: nat := 600
  const HEALTH_POLL_INTERVAL: nat := 120
  const UNCONFIGURED_REQUEUE: nat := 300

  datatype WriteError = Conflict | WriteFailed(text: string)

  datatype PassError =
    | GetFailed(text: string)
    | AddingFinalizer(error: WriteError)
    | RemovingFinalizer(error: WriteError)
    | UpdatingStatus(reason: Reason, error: WriteError)
    | NotReady(reason: Reason, message: Message)
    | BackendError(cause: Error)

  // ctrl.Result with its error; requeueAfter 0 asks for no timed requeue.
  datatype Outcome = Outcome(requeueAfter: nat, error: Option<PassError>)

  // The workqueue forgets the key: nothing will bring it back but a new event.
  predicate Silent(o: Outcome) { o.requeueAfter == 0 && o.error.None? }
}
