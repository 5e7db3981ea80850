/** The control plane as the operator's client is promised it: its pause flag,
    and what each of its answers says about what it did. */
module ControlPlane {
  import opened Types
  import opened Errors
  import opened Startup

  // ---- the pause flags --------------------------------------------------

  // A write of the flag: by an operator process pushing version at of a
  // PlatformConfig, or by something else.
  datatype FlagWrite =
    | Pushed(source: Process, name: string, at: nat, value: bool)
    | OutOfBand(value: bool)

  datatype Server = Server(initially: bool, writes: seq<FlagWrite>)

  // The control planes there are, by backend URL.
  type Servers = map<string, Server>

  // A server whose flag was never set defaults to paused.
  const UNTOUCHED := Server(true, [])

  function ServerAt(servers: Servers, backend: string): Server {
    if backend in servers then servers[backend] else UNTOUCHED
  }

  function FlagAt(servers: Servers, backend: string): bool {
    var s := ServerAt(servers, backend);
    if s.writes == [] then s.initially else s.writes[|s.writes| - 1].value
  }

  function WriteFlag(servers: Servers, backend: string, w: FlagWrite): Servers {
    var s := ServerAt(servers, backend);
    servers[backend := s.(writes := s.writes + [w])]
  }

  lemma WriteFlagAt(servers: Servers, backend: string, w: FlagWrite, other: string)
    ensures FlagAt(WriteFlag(servers, backend, w), other) ==
            if other == backend then w.value else FlagAt(servers, other)
  {}

  // ---- its answers ------------------------------------------------------

  // A paused server applies nothing, a provider-unavailable answer means nothing
  // was written, and an ok close with no unverified keys means the edges are
  // closed. Only the client itself ever answers Unconfigured.
  predicate UpsertAllowed(paused: bool, before: set<string>, r: Reply<ReconcileResult, Error>, after: set<string>) {
    && (paused ==> after == before && r.Err?)
    && (r.Err? ==> !IsUnconfigured(r.error))
    && (r.Err? && (IsPaused(r.error) || IsProviderUnavailable(r.error)) ==> after == before)
  }

  predicate CloseAllowed(paused: bool, before: set<string>, r: Reply<CloseResult, Error>, after: set<string>) {
    && after <= before
    && (paused ==> after == before && r.Err?)
    && (r.Err? ==> !IsUnconfigured(r.error))
    && (r.Err? && IsPaused(r.error) ==> after == before)
    && (r.Ok? && r.value.status == "ok" && r.value.unverifiedEdgeKeys == [] ==> after == {})
  }

  // SetPaused is never gated by the flag; its reply reports the flag as it is.
  predicate PushAllowed(paused: bool, wanted: bool, applied: bool, r: Reply<bool, Error>) {
    && (r.Err? ==> !IsUnconfigured(r.error))
    && (r.Ok? ==> r.value == if applied then wanted else paused)
  }

  predicate HealthAllowed(process: Process, r: Reply<seq<ProviderReport>, Error>) {
    match process
    case Configured(_, _) => r.Err? ==> !IsUnconfigured(r.error)
    case NotConfigured(missing, _) => r == Err(Unconfigured(missing))
  }

  // What the client reports when no answer arrives.
  const LOST := Wrapped("calling the control plane", Opaque("no answer"))
}
