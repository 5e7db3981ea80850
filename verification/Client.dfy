/** The client's one chokepoint: what every call returns for everything that can
    happen between the operator and the control plane, and the condition reason
    it ends up under. */
module Client {
  import opened Types
  import opened Errors
  import opened Envelope

  // How far one exchange got. A request that was sent and not answered may have
  // reached the API or not, which the client cannot tell. decoded is the 2xx body
  // as the caller's result type, when it is one.
  datatype Exchange<T> =
    | NotEncoded(text: string)
    | NotBuilt(text: string)
    | NotSent(text: string)
    | Unanswered(reached: bool, text: string)
    | NotRead(text: string)
    | Answered(status: int, body: Body, decoded: Option<T>)

  predicate Success(status: int) { 200 <= status <= 299 }

  function Readable(m: Text): string {
    match m
    case Decoded(s) => s
    case Shown(raw) => seq(|raw|, i requires 0 <= i < |raw| => raw[i] as char)
  }

  // Every *APIError the client builds.
  function FromBody(status: int, body: Body): Error {
    var e := Parsed(status, body);
    Api(e.status, e.category, e.code, Readable(e.message))
  }

  // missing lists the settings an unconfigured client lacks; whether a request
  // was sent at all is the second result.
  method Do<T(0)>(missing: seq<string>, path: string, exchange: Exchange<T>) returns (r: Reply<T, Error>, sent: bool)
    ensures r.Ok? <==> missing == [] && exchange.Answered? && Success(exchange.status) && exchange.decoded.Some?
    ensures r.Ok? ==> Some(r.value) == exchange.decoded
    ensures r.Err? ==> Root(r.error) == Cause(missing, exchange)
    ensures sent <==> missing == [] && (exchange.Unanswered? || exchange.NotRead? || exchange.Answered?)
  {
    sent := false;
    if |missing| > 0 {
      return Err(Unconfigured(missing)), sent;
    }
    match exchange
    case NotEncoded(text) => r := Err(Wrapped("encoding request body for " + path, Opaque(text)));
    case NotBuilt(text) => r := Err(Wrapped("building request " + path, Opaque(text)));
    case NotSent(text) => r := Err(Wrapped("calling " + path, Opaque(text)));
    case Unanswered(_, text) =>
      sent := true;
      r := Err(Wrapped("calling " + path, Opaque(text)));
    case NotRead(text) =>
      sent := true;
      r := Err(Wrapped("reading response from " + path, Opaque(text)));
    case Answered(status, body, decoded) =>
      sent := true;
      if status < 200 || status > 299 {
        var e := ParseApiError(status, body);
        r := Err(Api(e.status, e.category, e.code, Readable(e.message)));
      } else if decoded.None? {
        r := Err(Wrapped("decoding 200 response from " + path, Opaque(Readable(Shown(Truncate(body.raw))))));
      } else {
        r := Ok(decoded.value);
      }
  }

  // The error at the root of a failed call.
  function Cause<T>(missing: seq<string>, exchange: Exchange<T>): Error {
    if missing != [] then Unconfigured(missing)
    else match exchange
         case Answered(status, body, _) =>
           if Success(status) then Opaque(Readable(Shown(Truncate(body.raw)))) else FromBody(status, body)
         case NotEncoded(text) => Opaque(text)
         case NotBuilt(text) => Opaque(text)
         case NotSent(text) => Opaque(text)
         case Unanswered(_, text) => Opaque(text)
         case NotRead(text) => Opaque(text)
  }

  // From the exchange to the reason on the condition. BackendUnreachable is not
  // only for a backend that could not be reached: a 2xx answer that does not
  // decode ends there too, and a 503 of any category without a pause ends a
  // runtime reconcile under ProviderUnavailable.
  lemma ReasonsFollowTheExchange<T>(missing: seq<string>, exchange: Exchange<T>, e: Error, kind: Kind)
    requires !(missing == [] && exchange.Answered? && Success(exchange.status) && exchange.decoded.Some?)
    requires Root(e) == Cause(missing, exchange)
    ensures var reason := FailurePlan(kind, e).0;
            var refused := missing == [] && exchange.Answered? && !Success(exchange.status);
            && (reason == AwaitingConfiguration <==> missing != [])
            && (reason == BackendUnreachable <==> missing == [] && !refused)
            && (reason == Paused <==>
                refused && (exchange.status == 423 || Parsed(exchange.status, exchange.body).category == "paused"))
            && (reason == ProviderUnavailable <==>
                refused && kind == RuntimeSecurityPolicy && reason != Paused
                && (exchange.status == 503
                    || Parsed(exchange.status, exchange.body).category == "provider_unavailable"))
            && (IsUnconfigured(e) <==> missing != [])
  {
    ReasonsAreExact(e, kind);
    RootDecides(e);
    if exchange.Answered? {
      FallsBackIff(exchange.status, exchange.body);
    }
  }

  // What a refusal tells reaches the caller: the router's structured detail,
  lemma StructuredRefusal(status: int, raw: Bytes, category: string, code: string, message: string,
                          detail: map<string, Json>, fields: map<string, Json>)
    requires category != "" || code != ""
    requires Renders(detail, "category", category) && Renders(detail, "code", code)
    requires Renders(detail, "message", message)
    requires "detail" in fields && fields["detail"] == JObject(detail) && MayBeText(fields, "reason")
    ensures FromBody(status, Body(raw, Some(JObject(fields)))) == Api(status, category, code, message)
  {
    StructuredRoundTrip(status, raw, category, code, message, detail, fields);
  }

  // the cluster-layer handlers' string with a reason,
  lemma PlainRefusal(status: int, raw: Bytes, message: string, reason: string, fields: map<string, Json>)
    requires "detail" in fields && fields["detail"] == JString(message) && Renders(fields, "reason", reason)
    ensures FromBody(status, Body(raw, Some(JObject(fields)))) ==
            Api(status, if reason != "" then "cluster" else "", reason, message)
  {
    PlainRoundTrip(status, raw, message, reason, fields);
  }

  // and of any other body the bytes, under no category and no code.
  lemma RawRefusal(status: int, body: Body)
    requires Parsed(status, body).message.Shown?
    ensures var e, shown := FromBody(status, body), Truncate(body.raw);
            && e.Api? && e.status == status && e.category == "" && e.code == ""
            && |e.message| == |shown| && forall i :: 0 <= i < |shown| ==> e.message[i] == shown[i] as char
  {
    FallsBackIff(status, body);
  }

  // So a proxy's page in between is a failure that is retried at once, not a pause,
  // whatever it says: only the status can make it one.
  lemma RawRefusalFails(kind: Kind, status: int, body: Body, e: Error)
    requires Parsed(status, body).message.Shown? && Root(e) == FromBody(status, body)
    ensures FailurePlan(kind, e) ==
            if status == 423 then (Paused, 90)
            else if status == 503 && kind == RuntimeSecurityPolicy then (ProviderUnavailable, 90)
            else (ReconcileFailed, 0)
  {
    RawRefusal(status, body);
    ReasonsAreExact(e, kind);
    assert |"paused"| == 6 && |"provider_unavailable"| == 20 && |"write_not_verified"| == 18;
  }

  // The API got the request.
  predicate Reached<T>(exchange: Exchange<T>) {
    (exchange.Unanswered? && exchange.reached) || exchange.NotRead? || exchange.Answered?
  }

  // BackendUnreachable claims that the API was never reached. Of a failed call that
  // is so exactly if the client was unconfigured, the API really did not get the
  // request, or it answered with a refusal: not if the API served the request and
  // no answer came, nor if the body could not be read or, in a 2xx, decoded.
  lemma UnreachableClaimIsFaithfulIff<T>(missing: seq<string>, exchange: Exchange<T>, e: Error, kind: Kind)
    requires !(missing == [] && exchange.Answered? && Success(exchange.status) && exchange.decoded.Some?)
    requires Root(e) == Cause(missing, exchange)
    ensures (FailurePlan(kind, e).0 == BackendUnreachable ==> !Reached(exchange))
       <==> missing != [] || exchange.NotEncoded? || exchange.NotBuilt? || exchange.NotSent?
            || (exchange.Unanswered? && !exchange.reached)
            || (exchange.Answered? && !Success(exchange.status))
  {
    ReasonsFollowTheExchange(missing, exchange, e, kind);
  }

  // A 200 that is not the JSON the caller expects ends there.
  lemma UndecodableIsUnreachable(kind: Kind, context: string)
    ensures var exchange: Exchange<CloseResult> := Answered(200, Body([0x3C], None), None);
            && Reached(exchange)
            && FailurePlan(kind, Wrapped(context, Cause([], exchange))).0 == BackendUnreachable
  {
    var exchange: Exchange<CloseResult> := Answered(200, Body([0x3C], None), None);
    ReasonsFollowTheExchange([], exchange, Wrapped(context, Cause([], exchange)), kind);
  }

  // So does a call that timed out after the API had served it.
  lemma ServedIsUnreachable(kind: Kind, context: string)
    ensures var exchange: Exchange<ReconcileResult> := Unanswered(true, "deadline exceeded");
            && Reached(exchange)
            && FailurePlan(kind, Wrapped(context, Cause([], exchange))).0 == BackendUnreachable
  {
    var exchange: Exchange<ReconcileResult> := Unanswered(true, "deadline exceeded");
    ReasonsFollowTheExchange([], exchange, Wrapped(context, Cause([], exchange)), kind);
  }
}
