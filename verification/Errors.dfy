/** The client's error predicates, and the condition reason each reconciler
    gives a failed call. */
module Errors {
  import opened Types

  const STATUS_LOCKED := 423
  const STATUS_SERVICE_UNAVAILABLE := 503

  // errors.As for *UnconfiguredError and *APIError: follow the %w chain.
  predicate IsUnconfigured(e: Error) {
    match e
    case Unconfigured(_) => true
    case Wrapped(_, inner) => IsUnconfigured(inner)
    case _ => false
  }

  function AsApi(e: Error): Option<Error> {
    match e
    case Api(_, _, _, _) => Some(e)
    case Wrapped(_, inner) => AsApi(inner)
    case _ => None
  }

  predicate IsPaused(e: Error) {
    match AsApi(e)
    case Some(Api(status, category, _, _)) => status == STATUS_LOCKED || category == "paused"
    case _ => false
  }

  predicate IsProviderUnavailable(e: Error) {
    match AsApi(e)
    case Some(Api(status, category, _, _)) =>
      status == STATUS_SERVICE_UNAVAILABLE || category == "provider_unavailable"
    case _ => false
  }

  predicate IsWriteNotVerified(e: Error) {
    match AsApi(e)
    case Some(Api(_, category, _, _)) => category == "write_not_verified"
    case _ => false
  }

  // ---- reasons ----------------------------------------------------------

  // reconcileError of the two policy reconcilers: the reason, and the requeue
  // delay notReady is called with.
  function SegmentationFailure(e: Error): (Reason, nat) {
    if IsUnconfigured(e) then (AwaitingConfiguration, UNCONFIGURED_REQUEUE)
    else if IsPaused(e) then (Paused, PAUSED_REQUEUE)
    else if AsApi(e).Some? then (if IsWriteNotVerified(e) then WriteNotVerified else ReconcileFailed, 0)
    else (BackendUnreachable, 0)
  }

  function RuntimeFailure(e: Error): (Reason, nat) {
    if IsUnconfigured(e) then (AwaitingConfiguration, UNCONFIGURED_REQUEUE)
    else if IsPaused(e) then (Paused, PAUSED_REQUEUE)
    else if IsProviderUnavailable(e) then (ProviderUnavailable, PAUSED_REQUEUE)
    else if AsApi(e).Some? then (if IsWriteNotVerified(e) then WriteNotVerified else ReconcileFailed, 0)
    else (BackendUnreachable, 0)
  }

  function FailurePlan(kind: Kind, e: Error): (Reason, nat) {
    if kind == SegmentationPolicy then SegmentationFailure(e) else RuntimeFailure(e)
  }

  // pauseErrorReason and healthErrorReason of the PlatformConfig reconciler.
  function PauseErrorReason(e: Error): Reason {
    if IsUnconfigured(e) then AwaitingConfiguration
    else if AsApi(e).Some? then ReconcileFailed
    else BackendUnreachable
  }

  function HealthErrorReason(e: Error): Reason {
    if IsUnconfigured(e) then AwaitingConfiguration
    else if AsApi(e).Some? then HealthUndetermined
    else BackendUnreachable
  }

  // ---- what the classification means ------------------------------------

  // The error at the end of the %w chain.
  function Root(e: Error): (r: Error)
    ensures !r.Wrapped?
    ensures !e.Wrapped? ==> r == e
    ensures e.Wrapped? ==> r == Root(e.inner)
  {
    if e.Wrapped? then Root(e.inner) else e
  }

  lemma {:induction false} RootDecides(e: Error)
    ensures IsUnconfigured(e) <==> Root(e).Unconfigured?
    ensures AsApi(e) == if Root(e).Api? then Some(Root(e)) else None
  {
    if e.Wrapped? {
      RootDecides(e.inner);
    }
  }

  // One reason for every error, decided by the root alone: each reason is given
  // exactly on the errors it names, so wrapping never changes it.
  lemma ReasonsAreExact(e: Error, kind: Kind)
    ensures var (reason, delay) := FailurePlan(kind, e);
            var root := Root(e);
            && (reason == AwaitingConfiguration <==> root.Unconfigured?)
            && (reason == BackendUnreachable <==> root.Opaque?)
            && (reason == Paused <==> root.Api? && (root.status == 423 || root.category == "paused"))
            && (reason == ProviderUnavailable <==>
                kind == RuntimeSecurityPolicy && root.Api? && root.status != 423 && root.category != "paused"
                && (root.status == 503 || root.category == "provider_unavailable"))
            && (reason == WriteNotVerified ==> root.Api? && root.category == "write_not_verified")
            && (reason == ReconcileFailed ==> root.Api? && root.category != "write_not_verified")
            && reason in {AwaitingConfiguration, BackendUnreachable, Paused, ProviderUnavailable,
                          WriteNotVerified, ReconcileFailed}
            && delay == (match reason
                         case AwaitingConfiguration => 300
                         case Paused => 90
                         case ProviderUnavailable => 90
                         case _ => 0)
  {
    RootDecides(e);
  }

  // The two policy reconcilers part ways on provider-unavailable errors that
  // are not also paused, and nowhere else.
  lemma ReconcilersDifferExactlyOnProvider(e: Error)
    ensures FailurePlan(SegmentationPolicy, e) != FailurePlan(RuntimeSecurityPolicy, e)
       <==> IsProviderUnavailable(e) && !IsPaused(e)
  {
    RootDecides(e);
  }

  // The PlatformConfig reasons split the same three ways as the policies' own.
  lemma ConfigReasonsAgree(e: Error, kind: Kind)
    ensures PauseErrorReason(e) == AwaitingConfiguration <==> FailurePlan(kind, e).0 == AwaitingConfiguration
    ensures PauseErrorReason(e) == BackendUnreachable <==> FailurePlan(kind, e).0 == BackendUnreachable
    ensures HealthErrorReason(e) == AwaitingConfiguration <==> PauseErrorReason(e) == AwaitingConfiguration
    ensures HealthErrorReason(e) == BackendUnreachable <==> PauseErrorReason(e) == BackendUnreachable
    ensures HealthErrorReason(e) == HealthUndetermined <==> PauseErrorReason(e) == ReconcileFailed
  {
    RootDecides(e);
  }

  // Which reason a failed push gets, and which a failed health read.
  lemma ConfigReasonsAreExact(e: Error)
    ensures PauseErrorReason(e) == AwaitingConfiguration <==> Root(e).Unconfigured?
    ensures PauseErrorReason(e) == ReconcileFailed <==> Root(e).Api?
    ensures PauseErrorReason(e) == BackendUnreachable <==> Root(e).Opaque?
    ensures PauseErrorReason(e) in {AwaitingConfiguration, ReconcileFailed, BackendUnreachable}
    ensures HealthErrorReason(e) ==
            if Root(e).Api? then HealthUndetermined else PauseErrorReason(e)
  {
    RootDecides(e);
  }

  // The reason ProviderUnavailable claims the runtime provider was not confirmed
  // installed, which is what the category provider_unavailable says. Any other
  // 503 gets the claim too, so it can be relied on exactly when the response is
  // not an unpaused 503 of another category; the backend's own 503 for a missing
  // operator token is one that breaks it.
  predicate ClaimsProvider(e: Error) { RuntimeFailure(e).0 == ProviderUnavailable }

  lemma ProviderClaimIsFaithfulIff(e: Error)
    requires e.Api?
    ensures (ClaimsProvider(e) ==> e.category == "provider_unavailable")
       <==> !(e.status == 503 && e.category != "paused" && e.category != "provider_unavailable")
    ensures ClaimsProvider(Api(503, "auth", "operator_token_not_configured", "token"))
  {
    var token := Api(503, "auth", "operator_token_not_configured", "token");
    assert AsApi(token) == Some(token);
    assert |token.category| == 4 && |"paused"| == 6;
  }
}
