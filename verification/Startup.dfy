/** The configured-or-not decision the manager takes once, at startup. */
module Startup {
  import opened Types

  // Where an operator process sends its calls: the control plane at a backend
  // URL, without trailing slashes, and the registration id of the cluster there.
  datatype Target = Target(backend: string, cluster: nat)

  // A running operator process: its control-plane client, and the name of the
  // PlatformConfig it answers to.
  datatype Process =
    | Configured(target: Target, singleton: string)
    | NotConfigured(missing: seq<string>, singleton: string)

  function Home(p: Process): Option<Target> {
    if p.Configured? then Some(p.target) else None
  }

  // strings.TrimRight(baseURL, "/")
  function TrimSlashes(url: string): (r: string)
    ensures r <= url && (r != "" ==> r[|r| - 1] != '/')
    ensures forall i :: |r| <= i < |url| ==> url[i] == '/'
  {
    if url != "" && url[|url| - 1] == '/' then TrimSlashes(url[..|url| - 1]) else url
  }

  // ---- strconv.Atoi -----------------------------------------------------

  const MAX_INT := 0x7FFF_FFFF_FFFF_FFFF

  function Digits(s: string): Option<nat> {
    if s == "" then None
    else var d := s[|s| - 1] as int - '0' as int;
         if d < 0 || d > 9 then None
         else if |s| == 1 then Some(d)
         else match Digits(s[..|s| - 1])
              case None => None
              case Some(n) => Some(10 * n + d)
  }

  function Atoi(s: string): Option<int> {
    var negative := s != "" && s[0] == '-';
    var body := if s != "" && (s[0] == '-' || s[0] == '+') then s[1..] else s;
    match Digits(body)
    case None => None
    case Some(n) =>
      var v: int := if negative then 0 - n as int else n as int;
      if -MAX_INT - 1 <= v <= MAX_INT then Some(v) else None
  }

  function ParseClusterID(raw: string): Option<nat> {
    match Atoi(raw)
    case Some(id) => if id <= 0 then None else Some(id as nat)
    case None => None
  }

  // The way people write an id.
  function Decimal(n: nat): (s: string)
    ensures s != "" && '0' <= s[0] <= '9'
  {
    if n < 10 then ['0' + n as char] else Decimal(n / 10) + ['0' + (n % 10) as char]
  }

  lemma {:induction false} DigitsOfDecimal(n: nat)
    ensures Digits(Decimal(n)) == Some(n)
  {
    if n >= 10 {
      DigitsOfDecimal(n / 10);
      var s := Decimal(n);
      assert s[..|s| - 1] == Decimal(n / 10) && s[|s| - 1] == '0' + (n % 10) as char;
    }
  }

  function Zeros(n: nat): (s: string)
    ensures |s| == n && forall i :: 0 <= i < n ==> s[i] == '0'
  {
    seq(n, i => '0')
  }

  // raw is n as people write it, but for a plus sign and zeros in front of it.
  predicate Writes(raw: string, plus: bool, zeros: nat, n: nat) {
    raw == (if plus then "+" else "") + Zeros(zeros) + Decimal(n)
  }

  lemma DecimalSnoc(q: nat, d: nat)
    requires d < 10
    ensures q > 0 ==> Decimal(10 * q + d) == Decimal(q) + ['0' + d as char]
    ensures q == 0 ==> Decimal(d) == ['0' + d as char]
  {
    assert (10 * q + d) / 10 == q && (10 * q + d) % 10 == d;
  }

  // The digits of a positive number are zeros and its decimal form.
  lemma {:induction false} DigitsAreDecimal(s: string) returns (zeros: nat)
    requires Digits(s).Some?
    ensures var n := Digits(s).value; s == Zeros(zeros) + (if n == 0 then "" else Decimal(n))
    decreases |s|
  {
    hide Decimal;
    var p, d := s[..|s| - 1], s[|s| - 1] as int - '0' as int;
    assert s == p + ['0' + d as char];
    var q := 0;
    zeros := 0;
    if |s| > 1 {
      zeros := DigitsAreDecimal(p);
      q := Digits(p).value;
    }
    DecimalSnoc(q, d);
    if q == 0 && d == 0 {
      assert p == Zeros(zeros);
      zeros := zeros + 1;
      assert s == Zeros(zeros);
    } else if q == 0 {
      assert p == Zeros(zeros);
    } else {
      assert s == Zeros(zeros) + (Decimal(q) + ['0' + d as char]);
    }
  }

  lemma {:induction false} DigitsOfPadded(zeros: nat, n: nat)
    ensures Digits(Zeros(zeros) + Decimal(n)) == Some(n)
    decreases n, zeros
  {
    var s := Zeros(zeros) + Decimal(n);
    if n >= 10 {
      DigitsOfPadded(zeros, n / 10);
      assert s[..|s| - 1] == Zeros(zeros) + Decimal(n / 10);
      assert s[|s| - 1] == '0' + (n % 10) as char;
    } else if zeros > 0 {
      DigitsOfZeros(zeros);
      assert s[..|s| - 1] == Zeros(zeros) && s[|s| - 1] == '0' + n as char;
    } else {
      assert s == Decimal(n);
      DigitsOfDecimal(n);
    }
  }

  lemma {:induction false} DigitsOfZeros(zeros: nat)
    requires zeros > 0
    ensures Digits(Zeros(zeros)) == Some(0)
  {
    if zeros > 1 {
      DigitsOfZeros(zeros - 1);
      assert Zeros(zeros)[..zeros - 1] == Zeros(zeros - 1);
    }
  }

  lemma ParsedIsWritten(raw: string, n: nat) returns (plus: bool, zeros: nat)
    requires ParseClusterID(raw) == Some(n)
    ensures 0 < n <= 9223372036854775807 && Writes(raw, plus, zeros, n)
  {
    plus := raw[0] == '+';
    var body := if plus then raw[1..] else raw;
    assert Digits(body) == Some(n);
    zeros := DigitsAreDecimal(body);
    assert raw == (if plus then "+" else "") + body;
  }

  // What Atoi reads off a string of digits, and off one with a plus sign.
  lemma UnsignedParses(body: string, n: nat)
    requires body != "" && '0' <= body[0] <= '9' && Digits(body) == Some(n) && 0 < n <= MAX_INT
    ensures ParseClusterID(body) == Some(n) && ParseClusterID("+" + body) == Some(n)
  {
    assert ("+" + body)[1..] == body;
  }

  lemma WrittenParses(raw: string, plus: bool, zeros: nat, n: nat)
    requires 0 < n <= 9223372036854775807 && Writes(raw, plus, zeros, n)
    ensures ParseClusterID(raw) == Some(n)
  {
    hide Digits, Decimal, Zeros, ParseClusterID;
    var body := Zeros(zeros) + Decimal(n);
    DigitsOfPadded(zeros, n);
    if zeros > 0 {
      assert body[0] == Zeros(zeros)[0];
    } else {
      assert body[0] == Decimal(n)[0];
    }
    UnsignedParses(body, n);
    if plus {
      assert "+" + Zeros(zeros) + Decimal(n) == "+" + body;
    } else {
      assert "" + Zeros(zeros) + Decimal(n) == body;
    }
  }

  // Which ids can be configured: exactly the positive ones that fit an int, as
  // people write them, with a plus sign and zeros in front if they like. Any other
  // setting is as good as none.
  lemma ParsesIff(raw: string, n: nat)
    ensures ParseClusterID(raw) == Some(n) <==>
            0 < n <= 9223372036854775807 && exists plus, zeros :: Writes(raw, plus, zeros, n)
  {
    hide ParseClusterID, Writes;
    if ParseClusterID(raw) == Some(n) {
      var plus, zeros := ParsedIsWritten(raw, n);
    }
    if plus, zeros :| 0 < n <= 9223372036854775807 && Writes(raw, plus, zeros, n) {
      WrittenParses(raw, plus, zeros, n);
    }
  }

  lemma DecimalParses(n: nat)
    requires 0 < n <= MAX_INT
    ensures ParseClusterID(Decimal(n)) == Some(n)
  {
    assert Writes(Decimal(n), false, 0, n);
    ParsesIff(Decimal(n), n);
  }

  // A name, a zero and a negative number configure nothing.
  lemma NoIdIsConfigured(n: nat)
    ensures ParseClusterID("prod") != Some(n) && ParseClusterID("0") != Some(n) && ParseClusterID("-7") != Some(n)
  {}

  // ---- the decision -----------------------------------------------------

  const NO_URL := "K8BOSS_BACKEND_URL"
  const NO_CLUSTER := "K8BOSS_CLUSTER_ID"
  const NO_TOKEN := "K8BOSS_OPERATOR_TOKEN"

  function Missing(url: bool, cluster: bool, token: bool): seq<string> {
    (if url then [NO_URL] else []) + (if cluster then [NO_CLUSTER] else []) + (if token then [NO_TOKEN] else [])
  }

  // The list names what is missing, and nothing else, in the order it is read.
  lemma MissingNames(url: bool, cluster: bool, token: bool)
    ensures var m := Missing(url, cluster, token);
            && ("K8BOSS_BACKEND_URL" in m <==> url)
            && ("K8BOSS_CLUSTER_ID" in m <==> cluster)
            && ("K8BOSS_OPERATOR_TOKEN" in m <==> token)
            && |m| == (if url then 1 else 0) + (if cluster then 1 else 0) + (if token then 1 else 0)
            && (url ==> m[0] == "K8BOSS_BACKEND_URL") && (token ==> m[|m| - 1] == "K8BOSS_OPERATOR_TOKEN")
  {
    assert "K8BOSS_BACKEND_URL"[7] == 'B' && "K8BOSS_CLUSTER_ID"[7] == 'C' && "K8BOSS_OPERATOR_TOKEN"[7] == 'O';
  }

  predicate ValidProcess(p: Process) {
    match p
    case Configured(target, _) => TrimSlashes(target.backend) == target.backend && 0 < target.cluster <= MAX_INT
    case NotConfigured(missing, _) => missing != [] && exists u, c, t :: missing == Missing(u, c, t)
  }

  // The four settings as they are read: empty when unset.
  datatype Settings = Settings(backendURL: string, clusterID: string, token: string, singleton: string)

  // p is the process these settings start.
  predicate Starts(s: Settings, p: Process) {
    var cluster := ParseClusterID(s.clusterID);
    && p.singleton == s.singleton
    && (p.Configured? <==> s.backendURL != "" && s.token != "" && cluster.Some?)
    && (p.Configured? ==> p.target == Target(TrimSlashes(s.backendURL), cluster.value))
    && (p.NotConfigured? ==> p.missing == Missing(s.backendURL == "", cluster.None?, s.token == ""))
  }

  lemma TrimmedStays(url: string)
    ensures TrimSlashes(TrimSlashes(url)) == TrimSlashes(url)
  {}

  // A process is configured exactly by an address, a token and a well-written
  // positive id, and then goes there; an empty or ill-written id is missing.
  lemma StartsIff(s: Settings, p: Process)
    requires Starts(s, p)
    ensures p.Configured? <==>
            s.backendURL != "" && s.token != ""
            && exists n: nat, plus, zeros :: 0 < n <= 9223372036854775807 && Writes(s.clusterID, plus, zeros, n)
    ensures p.Configured? ==> exists plus, zeros :: Writes(s.clusterID, plus, zeros, p.target.cluster)
    ensures p.NotConfigured? ==>
              ("K8BOSS_CLUSTER_ID" in p.missing <==>
               !exists n: nat, plus, zeros :: 0 < n <= 9223372036854775807 && Writes(s.clusterID, plus, zeros, n))
  {
    var id := ParseClusterID(s.clusterID);
    if id.Some? {
      ParsesIff(s.clusterID, id.value);
    }
    if n: nat, plus, zeros :| 0 < n <= 9223372036854775807 && Writes(s.clusterID, plus, zeros, n) {
      ParsesIff(s.clusterID, n);
    }
    MissingNames(s.backendURL == "", id.None?, s.token == "");
  }

  method Configure(s: Settings) returns (p: Process)
    ensures Starts(s, p)
    ensures ValidProcess(p)
  {
    var missing: seq<string> := [];
    var cluster := ParseClusterID(s.clusterID);
    if s.backendURL == "" {
      missing := missing + [NO_URL];
    }
    if cluster.None? {
      missing := missing + [NO_CLUSTER];
    }
    if s.token == "" {
      missing := missing + [NO_TOKEN];
    }
    assert missing == Missing(s.backendURL == "", cluster.None?, s.token == "");
    if |missing| > 0 {
      p := NotConfigured(missing, s.singleton);
    } else {
      p := Configured(Target(TrimSlashes(s.backendURL), cluster.value), s.singleton);
      TrimmedStays(s.backendURL);
    }
  }

  // The valid processes are exactly those some settings start.
  lemma ValidProcessIff(p: Process)
    ensures ValidProcess(p) <==> exists s :: Starts(s, p)
  {
    if ValidProcess(p) {
      if p.Configured? {
        DecimalParses(p.target.cluster);
        var url := if p.target.backend == "" then "/" else p.target.backend;
        assert TrimSlashes(url) == p.target.backend;
        assert Starts(Settings(url, Decimal(p.target.cluster), "t", p.singleton), p);
      } else {
        var u, c, t :| p.missing == Missing(u, c, t);
        DecimalParses(1);
        assert ParseClusterID("").None?;
        assert Starts(Settings(if u then "" else "u", if c then "" else Decimal(1), if t then "" else "t",
                               p.singleton), p);
      }
    } else if s :| Starts(s, p) {
      TrimmedStays(s.backendURL);
      var cluster := ParseClusterID(s.clusterID);
      assert p.NotConfigured? ==> p.missing == Missing(s.backendURL == "", cluster.None?, s.token == "");
    }
  }
}
