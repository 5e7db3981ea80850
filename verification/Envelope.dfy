/** parseAPIError and truncate: what the client makes of a non-2xx body. */
module Envelope {
  import opened Types

  newtype byte = x: int | 0 <= x < 0x100

  type Bytes = seq<byte>

  // ---- truncate ---------------------------------------------------------

  const MAX_BODY := 512
  const ELLIPSIS: Bytes := [0xE2, 0x80, 0xA6]
  const EMPTY_BODY: Bytes := [0x28, 0x65, 0x6D, 0x70, 0x74, 0x79, 0x20, 0x72, 0x65, 0x73, 0x70, 0x6F,
                              0x6E, 0x73, 0x65, 0x20, 0x62, 0x6F, 0x64, 0x79, 0x29]

  // The runes unicode.IsSpace accepts, as UTF-8: one, two and three bytes long.
  predicate Space1(a: byte) { a == 0x20 || 0x09 <= a <= 0x0D }

  predicate Space2(a: byte, b: byte) { a == 0xC2 && (b == 0x85 || b == 0xA0) }

  predicate Space3(a: byte, b: byte, c: byte) {
    || (a == 0xE1 && b == 0x9A && c == 0x80)
    || (a == 0xE2 && b == 0x80 && (0x80 <= c <= 0x8A || c == 0xA8 || c == 0xA9 || c == 0xAF))
    || (a == 0xE2 && b == 0x81 && c == 0x9F)
    || (a == 0xE3 && b == 0x80 && c == 0x80)
  }

  // The length of the space rune a string starts or ends with; 0 if none.
  function Leading(s: Bytes): (n: nat)
    ensures n <= |s|
  {
    if |s| >= 1 && Space1(s[0]) then 1
    else if |s| >= 2 && Space2(s[0], s[1]) then 2
    else if |s| >= 3 && Space3(s[0], s[1], s[2]) then 3
    else 0
  }

  function Trailing(s: Bytes): (n: nat)
    ensures n <= |s|
  {
    var l := |s|;
    if l >= 1 && Space1(s[l - 1]) then 1
    else if l >= 2 && Space2(s[l - 2], s[l - 1]) then 2
    else if l >= 3 && Space3(s[l - 3], s[l - 2], s[l - 1]) then 3
    else 0
  }

  lemma SuffixOfSuffix(s: Bytes, n: nat, k: nat)
    requires n + k <= |s|
    ensures s[n..][k..] == s[n + k..]
  {}

  function TrimLeft(s: Bytes): (r: Bytes)
    ensures Leading(r) == 0
    ensures |r| <= |s| && r == s[|s| - |r|..]
    decreases |s|
  {
    var n := Leading(s);
    if n == 0 then s
    else
      var r := TrimLeft(s[n..]);
      SuffixOfSuffix(s, n, |s| - n - |r|);
      r
  }

  function TrimRight(s: Bytes): (r: Bytes)
    ensures Trailing(r) == 0
    ensures r <= s
    decreases |s|
  {
    if Trailing(s) == 0 then s else TrimRight(s[..|s| - Trailing(s)])
  }

  // strings.TrimSpace
  function TrimSpace(s: Bytes): Bytes { TrimRight(TrimLeft(s)) }

  function Cut(t: Bytes): Bytes
    requires |t| > MAX_BODY
  {
    t[..MAX_BODY] + ELLIPSIS
  }

  function Truncate(s: Bytes): Bytes {
    var t := TrimSpace(s);
    if |t| > MAX_BODY then Cut(t)
    else if t == [] then EMPTY_BODY
    else t
  }

  lemma TrimSpaceIsTrimmed(s: Bytes)
    ensures Leading(TrimSpace(s)) == 0 && Trailing(TrimSpace(s)) == 0
  {
    var l := TrimLeft(s);
    var t := TrimRight(l);
    assert forall i :: 0 <= i < |t| ==> t[i] == l[i];
  }

  lemma TrimSpaceOfTrimmed(s: Bytes)
    requires Leading(s) == 0 && Trailing(s) == 0
    ensures TrimSpace(s) == s
  {
    assert TrimLeft(s) == s;
  }

  // Cutting a trimmed string and adding the ellipsis leaves it trimmed, and
  // still too long, so a second cut restores it.
  lemma CutIsStable(t: Bytes)
    requires |t| > MAX_BODY && Leading(t) == 0
    ensures |Cut(t)| == 515 && Leading(Cut(t)) == 0 && Trailing(Cut(t)) == 0
    ensures Cut(Cut(t)) == Cut(t)
  {
    var r := Cut(t);
    assert |r| == 515 && r[512] == 0xE2 && r[513] == 0x80 && r[514] == 0xA6;
    assert r[0] == t[0] && r[1] == t[1] && r[2] == t[2];
    assert r[..MAX_BODY] == t[..MAX_BODY];
  }

  lemma PlaceholderIsTrimmed()
    ensures Leading(EMPTY_BODY) == 0 && Trailing(EMPTY_BODY) == 0 && 0 < |EMPTY_BODY| <= MAX_BODY
  {
    var e := EMPTY_BODY;
    assert |e| == 21;
    assert e[0] == 0x28;
    assert e[18] == 0x64 && e[19] == 0x79 && e[20] == 0x29;
  }

  // The bytes at one end of a string that are space runes.
  predicate IsSpace(s: Bytes) {
    || (|s| == 1 && Space1(s[0]))
    || (|s| == 2 && Space2(s[0], s[1]))
    || (|s| == 3 && Space3(s[0], s[1], s[2]))
  }

  predicate AllSpace(s: Bytes)
    decreases |s|
  {
    s == [] || exists n :: 0 < n <= |s| && IsSpace(s[..n]) && AllSpace(s[n..])
  }

  lemma SliceOfConcat(s: Bytes, t: Bytes, n: nat)
    requires n <= |s|
    ensures (s + t)[..n] == s[..n] && (s + t)[n..] == s[n..] + t
  {}

  lemma SpaceIsAllSpace(t: Bytes)
    requires IsSpace(t)
    ensures AllSpace(t)
  {
    assert t[..|t|] == t && t[|t|..] == [] && AllSpace([]);
  }

  lemma {:induction false} AllSpaceSnoc(s: Bytes, t: Bytes)
    requires AllSpace(s) && IsSpace(t)
    ensures AllSpace(s + t)
    decreases |s|
  {
    hide IsSpace;
    if s == [] {
      assert s + t == t;
      SpaceIsAllSpace(t);
    } else {
      var n :| 0 < n <= |s| && IsSpace(s[..n]) && AllSpace(s[n..]);
      AllSpaceSnoc(s[n..], t);
      SliceOfConcat(s, t, n);
      assert 0 < n <= |s + t| && IsSpace((s + t)[..n]) && AllSpace((s + t)[n..]);
    }
  }

  lemma LeadingIsSpace(s: Bytes)
    ensures Leading(s) > 0 ==> IsSpace(s[..Leading(s)])
    ensures Leading(s) == 0 ==> forall n :: 0 < n <= |s| ==> !IsSpace(s[..n])
  {
    hide Space1, Space2, Space3;
  }

  lemma TrailingIsSpace(s: Bytes)
    ensures Trailing(s) > 0 ==> IsSpace(s[|s| - Trailing(s)..])
    ensures Trailing(s) == 0 ==> forall k :: 0 <= k < |s| ==> !IsSpace(s[k..])
  {
    hide Space1, Space2, Space3;
  }

  // A suffix of a suffix, as seen from the front.
  lemma DroppedTwice(s: Bytes, n: nat, kept: nat)
    requires n <= |s| && kept <= |s| - n
    ensures s[..|s| - kept][..n] == s[..n]
    ensures s[..|s| - kept][n..] == s[n..][..|s| - n - kept]
  {}

  lemma {:induction false} TrimLeftDrops(s: Bytes)
    ensures AllSpace(s[..|s| - |TrimLeft(s)|])
    decreases |s|
  {
    hide IsSpace, Leading, Space1, Space2, Space3;
    var n := Leading(s);
    LeadingIsSpace(s);
    if n == 0 {
      assert s[..0] == [];
    } else {
      TrimLeftDrops(s[n..]);
      var dropped := s[..|s| - |TrimLeft(s)|];
      DroppedTwice(s, n, |TrimLeft(s)|);
      assert IsSpace(dropped[..n]) && AllSpace(dropped[n..]);
    }
  }

  lemma {:induction false} TrimRightDrops(s: Bytes)
    ensures AllSpace(s[|TrimRight(s)|..])
    decreases |s|
  {
    hide IsSpace, Trailing, Space1, Space2, Space3;
    var n := Trailing(s);
    TrailingIsSpace(s);
    if n == 0 {
      assert s[|s|..] == [];
    } else {
      var rest, last := s[..|s| - n], s[|s| - n..];
      TrimRightDrops(rest);
      AllSpaceSnoc(rest[|TrimRight(rest)|..], last);
      assert s[|TrimRight(s)|..] == rest[|TrimRight(rest)|..] + last;
    }
  }

  lemma PrefixSplits(s: Bytes, t: Bytes)
    requires t <= s
    ensures s == t + s[|t|..]
  {}

  lemma SuffixSplits(s: Bytes, l: Bytes)
    requires |l| <= |s| && l == s[|s| - |l|..]
    ensures s == s[..|s| - |l|] + l
  {}

  // Trimming takes space off both ends and nothing else.
  lemma TrimSpaceDrops(s: Bytes) returns (before: Bytes, after: Bytes)
    ensures s == before + TrimSpace(s) + after && AllSpace(before) && AllSpace(after)
  {
    hide AllSpace, TrimLeft, TrimRight, Leading, Trailing, Space1, Space2, Space3;
    var l := TrimLeft(s);
    var t := TrimRight(l);
    TrimLeftDrops(s);
    TrimRightDrops(l);
    before, after := s[..|s| - |l|], l[|t|..];
    assert l == t + after by { PrefixSplits(l, t); }
    assert s == before + l by { SuffixSplits(s, l); }
    assert before + (t + after) == before + t + after;
  }

  // And it leaves none there.
  lemma TrimSpaceLeavesNone(s: Bytes)
    ensures var t := TrimSpace(s);
            && (forall n :: 0 < n <= |t| ==> !IsSpace(t[..n]))
            && (forall k :: 0 <= k < |t| ==> !IsSpace(t[k..]))
  {
    hide IsSpace, Leading, Trailing, TrimSpace;
    TrimSpaceIsTrimmed(s);
    LeadingIsSpace(TrimSpace(s));
    TrailingIsSpace(TrimSpace(s));
  }

  // The runes are those unicode.IsSpace lists, decoded from UTF-8.
  lemma SpacesAreUnicode(a: byte, b: byte, c: byte)
    ensures Space1(a) <==> a in {0x09, 0x0A, 0x0B, 0x0C, 0x0D, 0x20}
    ensures Space2(a, b) <==> [a, b] in {[0xC2, 0x85], [0xC2, 0xA0]}
    ensures Space3(a, b, c) <==>
            Rune3(a, b, c) in {0x1680, 0x2000, 0x2001, 0x2002, 0x2003, 0x2004, 0x2005, 0x2006, 0x2007,
                               0x2008, 0x2009, 0x200A, 0x2028, 0x2029, 0x202F, 0x205F, 0x3000}
  {}

  // The rune of a three-byte form; 0 if it is none.
  function Rune3(a: byte, b: byte, c: byte): int {
    if 0xE0 <= a <= 0xEF && 0x80 <= b <= 0xBF && 0x80 <= c <= 0xBF
    then (a - 0xE0) as int * 0x1000 + (b - 0x80) as int * 0x40 + (c - 0x80) as int
    else 0
  }

  // What a body is shown as: itself without the space around it; its first 512
  // bytes and an ellipsis if that is longer; and "(empty response body)" if nothing
  // is left.
  lemma TruncateIs(s: Bytes)
    ensures var t := TrimSpace(s);
            && (0 < |t| <= 512 ==> Truncate(s) == t)
            && (|t| > 512 ==> Truncate(s) == t[..512] + [0xE2, 0x80, 0xA6])
            && (t == [] ==>
                  Truncate(s) == [0x28, 0x65, 0x6D, 0x70, 0x74, 0x79, 0x20, 0x72, 0x65, 0x73, 0x70, 0x6F,
                                  0x6E, 0x73, 0x65, 0x20, 0x62, 0x6F, 0x64, 0x79, 0x29])
  {}

  // Never empty, at most 515 bytes, and a fixed point of itself.
  lemma TruncateIsStable(s: Bytes)
    ensures 0 < |Truncate(s)| <= 515
    ensures Truncate(Truncate(s)) == Truncate(s)
  {
    hide Leading, Trailing, TrimSpace, Cut, Space1, Space2, Space3;
    var t := TrimSpace(s);
    TrimSpaceIsTrimmed(s);
    PlaceholderIsTrimmed();
    if |t| > MAX_BODY {
      CutIsStable(t);
      TrimSpaceOfTrimmed(Cut(t));
    } else if t == [] {
      TrimSpaceOfTrimmed(EMPTY_BODY);
    } else {
      TrimSpaceOfTrimmed(t);
    }
  }

  // A body that is already short and trimmed is shown as it is.
  lemma TruncateKeepsShortBodies(s: Bytes)
    requires 0 < |s| <= 512 && Leading(s) == 0 && Trailing(s) == 0
    ensures Truncate(s) == s
  {
    TrimSpaceOfTrimmed(s);
  }

  // ---- parseAPIError ----------------------------------------------------

  datatype Json =
    | JNull | JBool(b: bool) | JNumber(n: real) | JString(s: string)
    | JArray(items: seq<Json>) | JObject(fields: map<string, Json>)

  // A response body: its bytes, and what they parse to when they are JSON.
  datatype Body = Body(raw: Bytes, json: Option<Json>)

  datatype Text = Decoded(s: string) | Shown(raw: Bytes)

  datatype ApiError = ApiError(status: int, category: string, code: string, message: Text)

  // json.Unmarshal of one string field: absent and null leave it empty, and a
  // value of another type fails the whole call.
  function StringField(fields: map<string, Json>, name: string): Option<string> {
    if name !in fields || fields[name].JNull? then Some("")
    else if fields[name].JString? then Some(fields[name].s)
    else None
  }

  datatype Envelope = Envelope(detail: Option<Json>, reason: string)

  // Into errorDetail: detail stays raw, so any value is accepted, null included.
  function DecodeEnvelope(body: Body): Option<Envelope> {
    match body.json
    case Some(JObject(fields)) =>
      (match StringField(fields, "reason")
       case None => None
       case Some(reason) => Some(Envelope(if "detail" in fields then Some(fields["detail"]) else None, reason)))
    case Some(JNull) => Some(Envelope(None, ""))
    case _ => None
  }

  datatype Structured = Structured(category: string, code: string, message: string)

  function DecodeStructured(detail: Json): Option<Structured> {
    match detail
    case JObject(fields) =>
      (match (StringField(fields, "category"), StringField(fields, "code"), StringField(fields, "message"))
       case (Some(category), Some(code), Some(message)) => Some(Structured(category, code, message))
       case _ => None)
    case JNull => Some(Structured("", "", ""))
    case _ => None
  }

  function DecodePlain(detail: Json): Option<string> {
    match detail
    case JString(s) => Some(s)
    case JNull => Some("")
    case _ => None
  }

  method ParseApiError(status: int, body: Body) returns (out: ApiError)
    ensures out == Parsed(status, body)
  {
    out := ApiError(status, "", "", Decoded(""));
    var env := DecodeEnvelope(body);
    if env.None? || env.value.detail.None? {
      out := out.(message := Shown(Truncate(body.raw)));
      return;
    }
    var detail := env.value.detail.value;
    var sd := DecodeStructured(detail);
    if sd.Some? && (sd.value.category != "" || sd.value.code != "") {
      out := out.(category := sd.value.category, code := sd.value.code, message := Decoded(sd.value.message));
      return;
    }
    var plain := DecodePlain(detail);
    if plain.Some? {
      out := out.(message := Decoded(plain.value));
      out := out.(code := env.value.reason);
      if env.value.reason != "" {
        out := out.(category := "cluster");
      }
      return;
    }
    out := out.(message := Shown(Truncate(body.raw)));
  }

  function Fallback(status: int, body: Body): ApiError {
    ApiError(status, "", "", Shown(Truncate(body.raw)))
  }

  // The four shapes, read off the body: a structured detail, a string (or null)
  // detail with an optional reason, and everything else.
  function Parsed(status: int, body: Body): ApiError {
    match DecodeEnvelope(body)
    case Some(Envelope(Some(detail), reason)) =>
      (match (DecodeStructured(detail), DecodePlain(detail))
       case (Some(Structured(category, code, message)), plain) =>
         if category != "" || code != "" then ApiError(status, category, code, Decoded(message))
         else if plain.Some? then ApiError(status, if reason != "" then "cluster" else "", reason, Decoded(plain.value))
         else Fallback(status, body)
       case (None, Some(plain)) =>
         ApiError(status, if reason != "" then "cluster" else "", reason, Decoded(plain))
       case _ => Fallback(status, body))
    case _ => Fallback(status, body)
  }

  // ---- rendering and parsing back ---------------------------------------

  // A field that is a string if it says anything, and one that says something.
  predicate MayBeText(fields: map<string, Json>, name: string) {
    name in fields ==> fields[name].JString? || fields[name].JNull?
  }

  predicate SaysText(fields: map<string, Json>, name: string) {
    name in fields && fields[name].JString? && fields[name].s != ""
  }

  // The router's structured detail. A field may be left out or null when it is
  // empty, and an object may carry fields the client does not read.
  predicate Renders(fields: map<string, Json>, name: string, value: string) {
    if name in fields then fields[name] == JString(value) || (fields[name].JNull? && value == "")
    else value == ""
  }

  lemma RenderedReadsBack(fields: map<string, Json>, name: string, value: string)
    requires Renders(fields, name, value)
    ensures StringField(fields, name) == Some(value)
  {}

  lemma StructuredRoundTrip(status: int, raw: Bytes, category: string, code: string, message: string,
                            detail: map<string, Json>, fields: map<string, Json>)
    requires category != "" || code != ""
    requires Renders(detail, "category", category) && Renders(detail, "code", code)
    requires Renders(detail, "message", message)
    requires "detail" in fields && fields["detail"] == JObject(detail)
    requires MayBeText(fields, "reason")
    ensures Parsed(status, Body(raw, Some(JObject(fields)))) == ApiError(status, category, code, Decoded(message))
  {
    RenderedReadsBack(detail, "category", category);
    RenderedReadsBack(detail, "code", code);
    RenderedReadsBack(detail, "message", message);
    var env := DecodeEnvelope(Body(raw, Some(JObject(fields))));
    assert env == Some(Envelope(Some(JObject(detail)), StringField(fields, "reason").value));
  }

  // The cluster-layer handlers' string detail with a reason beside it.
  lemma PlainRoundTrip(status: int, raw: Bytes, message: string, reason: string, fields: map<string, Json>)
    requires "detail" in fields && fields["detail"] == JString(message)
    requires Renders(fields, "reason", reason)
    ensures Parsed(status, Body(raw, Some(JObject(fields)))) ==
            ApiError(status, if reason != "" then "cluster" else "", reason, Decoded(message))
  {
    assert DecodePlain(JString(message)) == Some(message);
    assert DecodeStructured(JString(message)).None?;
    assert DecodeEnvelope(Body(raw, Some(JObject(fields)))) == Some(Envelope(Some(JString(message)), reason));
  }

  // A null detail is an empty message, with its reason.
  lemma NullRoundTrip(status: int, raw: Bytes, reason: string, fields: map<string, Json>)
    requires "detail" in fields && fields["detail"].JNull?
    requires Renders(fields, "reason", reason)
    ensures Parsed(status, Body(raw, Some(JObject(fields)))) ==
            ApiError(status, if reason != "" then "cluster" else "", reason, Decoded(""))
  {
    assert DecodeEnvelope(Body(raw, Some(JObject(fields)))) == Some(Envelope(Some(JNull), reason));
    assert DecodeStructured(JNull) == Some(Structured("", "", "")) && DecodePlain(JNull) == Some("");
  }

  // The detail tells the client something: it is a string or null, or an object
  // whose three fields are text and whose category or code is not empty.
  predicate Telling(detail: Json) {
    match detail
    case JString(_) => true
    case JNull => true
    case JObject(fields) =>
      && MayBeText(fields, "category") && MayBeText(fields, "code") && MayBeText(fields, "message")
      && (SaysText(fields, "category") || SaysText(fields, "code"))
    case _ => false
  }

  // The raw body is shown, under no category and no code, exactly unless it is an
  // object with a telling detail and a reason that is text; and then what is shown
  // is never empty.
  lemma FallsBackIff(status: int, body: Body)
    ensures Parsed(status, body).message.Shown? <==>
            !(body.json.Some? && body.json.value.JObject?
              && var fields := body.json.value.fields;
                 MayBeText(fields, "reason") && "detail" in fields && Telling(fields["detail"]))
    ensures Parsed(status, body).message.Shown? ==>
              && Parsed(status, body) == ApiError(status, "", "", Shown(Truncate(body.raw)))
              && 0 < |Parsed(status, body).message.raw| <= 515
    ensures Parsed(status, body).status == status
  {
    hide Truncate;
    TruncateIsStable(body.raw);
  }
}
