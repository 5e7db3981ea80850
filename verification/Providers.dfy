/** splitProviderHealth: one status entry per provider the control plane reports. */
module Providers {
  import opened Types

  const NOT_CHECKED := "the control plane reported checked=false with no explanation"
  const NO_VERDICT := "the control plane reported checked=true but returned no healthy verdict"
  const NO_QUERY_ERROR := "reported unhealthy; the control plane returned no query error and no message"

  predicate Determinate(p: ProviderReport) { p.checked && p.healthy.Some? }

  function Join(parts: seq<string>, sep: string): string {
    if parts == [] then "" else if |parts| == 1 then parts[0] else parts[0] + sep + Join(parts[1..], sep)
  }

  function Why(p: ProviderReport): string {
    if p.message != "" then p.message else if !p.checked then NOT_CHECKED else NO_VERDICT
  }

  // The explanation of a determined provider, before its blockers.
  function QueryError(p: ProviderReport): string {
    if p.lastQueryError.Some? && p.lastQueryError.value != "" then p.lastQueryError.value
    else if p.healthy == Some(true) then ""
    else if p.message != "" then p.message
    else NO_QUERY_ERROR
  }

  function WithBlockers(text: string, blockers: seq<string>): string {
    if blockers == [] then text
    else if text == "" then "blockers: " + Join(blockers, ", ")
    else text + " (" + "blockers: " + Join(blockers, ", ") + ")"
  }

  function EntryOf(p: ProviderReport, now: nat): HealthEntry {
    if !Determinate(p) then HealthEntry(p.name, Unknown, "", Why(p), now)
    else HealthEntry(p.name, if p.healthy == Some(true) then Healthy else Unhealthy,
                     WithBlockers(QueryError(p), p.blockers), "", now)
  }

  function Entries(ps: seq<ProviderReport>, now: nat): (es: seq<HealthEntry>)
    ensures |es| == |ps|
    ensures forall i :: 0 <= i < |ps| ==> es[i] == EntryOf(ps[i], now)
  {
    seq(|ps|, i requires 0 <= i < |ps| => EntryOf(ps[i], now))
  }

  // The second result, read off the entries: the Unknown ones, in order.
  function UnknownLabels(es: seq<HealthEntry>): seq<string> {
    if es == [] then []
    else var e := es[|es| - 1];
         UnknownLabels(es[..|es| - 1]) + (if e.health == Unknown then [e.name + ": " + e.reason] else [])
  }

  // The loop body for a provider with a verdict.
  method DeterminedEntry(p: ProviderReport, now: nat) returns (entry: HealthEntry)
    requires Determinate(p)
    ensures entry == EntryOf(p, now)
  {
    entry := HealthEntry(p.name, Unhealthy, "", "", now);
    if p.healthy.value {
      entry := entry.(health := Healthy);
    }
    if p.lastQueryError.Some? && p.lastQueryError.value != "" {
      entry := entry.(lastQueryError := p.lastQueryError.value);
    } else if entry.health != Healthy && p.message != "" {
      entry := entry.(lastQueryError := p.message);
    } else if entry.health != Healthy {
      entry := entry.(lastQueryError := NO_QUERY_ERROR);
    }
    assert entry.lastQueryError == QueryError(p);
    if |p.blockers| > 0 {
      entry := entry.(lastQueryError := WithBlockers(entry.lastQueryError, p.blockers));
    }
  }

  // The loop body for a provider without one: there is always an explanation, the
  // control plane's own if it gave any; otherwise it says which of the two
  // questions went unanswered.
  method UndeterminedReason(p: ProviderReport) returns (why: string)
    ensures why != ""
    ensures p.message != "" ==> why == p.message
    ensures p.message == "" ==> why in {NOT_CHECKED, NO_VERDICT} && (why == NOT_CHECKED <==> !p.checked)
  {
    assert |NOT_CHECKED| == 60 && |NO_VERDICT| == 71;
    why := p.message;
    if why == "" {
      if !p.checked {
        why := NOT_CHECKED;
      } else {
        why := NO_VERDICT;
      }
    }
  }

  lemma WhyIs(p: ProviderReport, why: string)
    requires p.message != "" ==> why == p.message
    requires p.message == "" ==> why in {NOT_CHECKED, NO_VERDICT} && (why == NOT_CHECKED <==> !p.checked)
    ensures why == Why(p)
  {}

  method SplitProviderHealth(providers: seq<ProviderReport>, now: nat)
    returns (entries: seq<HealthEntry>, undetermined: seq<string>)
    ensures entries == Entries(providers, now)
    ensures undetermined == UnknownLabels(entries)
  {
    hide Entries, UnknownLabels, QueryError, WithBlockers, Why;
    entries, undetermined := [], [];
    SplitNothing(now);
    for i := 0 to |providers|
      invariant entries == Entries(providers[..i], now)
      invariant undetermined == UnknownLabels(entries)
    {
      var p := providers[i];
      SplitOneMore(providers, i, now);
      if !Determinate(p) {
        var why := UndeterminedReason(p);
        WhyIs(p, why);
        undetermined := undetermined + [p.name + ": " + why];
        entries := entries + [HealthEntry(p.name, Unknown, "", why, now)];
      } else {
        var entry := DeterminedEntry(p, now);
        entries := entries + [entry];
      }
    }
    assert providers[..|providers|] == providers;
  }

  lemma SplitNothing(now: nat)
    ensures Entries([], now) == [] && UnknownLabels([]) == []
  {}

  lemma SplitOneMore(ps: seq<ProviderReport>, i: nat, now: nat)
    requires i < |ps|
    ensures var before, e := Entries(ps[..i], now), EntryOf(ps[i], now);
            && Entries(ps[..i + 1], now) == before + [e]
            && UnknownLabels(before + [e]) ==
               UnknownLabels(before) + (if e.health == Unknown then [e.name + ": " + e.reason] else [])
  {
    assert Entries(ps[..i + 1], now) == Entries(ps[..i], now) + [EntryOf(ps[i], now)];
    UnknownLabelsSnoc(Entries(ps[..i], now), EntryOf(ps[i], now));
  }

  lemma UnknownLabelsSnoc(es: seq<HealthEntry>, e: HealthEntry)
    ensures UnknownLabels(es + [e]) ==
            UnknownLabels(es) + (if e.health == Unknown then [e.name + ": " + e.reason] else [])
  {
    assert (es + [e])[..|es|] == es;
  }

  // Complete, three-valued and always explained: no provider is dropped or
  // renamed, one that was not determined is never called unhealthy, and every
  // entry that is not healthy says why, in exactly one of its two fields.
  lemma EntriesAreFaithful(ps: seq<ProviderReport>, now: nat, i: nat)
    requires i < |ps|
    ensures var e, p := Entries(ps, now)[i], ps[i];
            && |Entries(ps, now)| == |ps| && e.name == p.name
            && (e.health == Unknown <==> !(p.checked && p.healthy.Some?))
            && (e.health == Healthy <==> p.checked && p.healthy == Some(true))
            && e.observedAt == now
            && (e.health == Unknown ==> e.reason != "" && e.lastQueryError == "")
            && (e.health == Unhealthy ==> e.lastQueryError != "" && e.reason == "")
            && (e.health == Healthy ==> e.reason == "")
            && (e.health == Healthy && e.lastQueryError == "" <==>
                p.checked && p.healthy == Some(true) && p.lastQueryError in {None, Some("")} && p.blockers == [])
  {
    var p := ps[i];
    assert |NOT_CHECKED| > 0 && |NO_VERDICT| > 0 && |NO_QUERY_ERROR| > 0;
    if Determinate(p) && p.blockers != [] {
      assert |WithBlockers(QueryError(p), p.blockers)| >= |"blockers: "|;
    }
  }

  lemma {:induction false} JoinConcat(a: seq<string>, b: seq<string>, sep: string)
    ensures Join([], sep) == "" && forall s :: Join([s], sep) == s
    ensures a != [] && b != [] ==> Join(a + b, sep) == Join(a, sep) + sep + Join(b, sep)
  {
    if |a| > 1 && b != [] {
      JoinConcat(a[1..], b, sep);
      assert (a + b)[1..] == a[1..] + b;
    } else if |a| == 1 {
      assert (a + b)[1..] == b;
    }
  }

  // Which explanation an entry carries. An undetermined one has the control plane's
  // message, or says which question it left unanswered. A determined one has the
  // query error if one was reported, else, if it is unhealthy, the message or a
  // placeholder; and then the blockers.
  lemma ExplanationIs(p: ProviderReport, now: nat)
    ensures var e := EntryOf(p, now);
            var reported := if p.lastQueryError.Some? then p.lastQueryError.value else "";
            var blockers := "blockers: " + Join(p.blockers, ", ");
            var error := if reported != "" then reported
                         else if p.healthy == Some(true) then ""
                         else if p.message != "" then p.message
                         else "reported unhealthy; the control plane returned no query error and no message";
            if p.checked && p.healthy.Some?
            then e.lastQueryError == if p.blockers == [] then error
                                     else if error == "" then blockers
                                     else error + " (" + blockers + ")"
            else e.reason == if p.message != "" then p.message
                             else if p.checked
                             then "the control plane reported checked=true but returned no healthy verdict"
                             else "the control plane reported checked=false with no explanation"
  {
    var blockers := "blockers: " + Join(p.blockers, ", ");
    assert forall s: string :: s + " (" + "blockers: " + Join(p.blockers, ", ") + ")" == s + " (" + blockers + ")";
  }

  lemma {:induction false} NoneUnknownIff(ps: seq<ProviderReport>, now: nat)
    ensures UnknownLabels(Entries(ps, now)) == [] <==> forall p :: p in ps ==> p.checked && p.healthy.Some?
    decreases |ps|
  {
    hide Entries, UnknownLabels, Why, QueryError, WithBlockers;
    SplitNothing(now);
    if ps == [] {
      assert Entries(ps, now) == Entries([], now);
    } else {
      var n := |ps| - 1;
      NoneUnknownIff(ps[..n], now);
      SplitOneMore(ps, n, now);
      assert ps[..n + 1] == ps && ps == ps[..n] + [ps[n]];
    }
  }

  // A query of the provider has succeeded: it was made and reported no error.
  predicate QuerySucceeded(p: ProviderReport) { p.checked && p.lastQueryError in {None, Some("")} }

  // The type's comment asks every entry with an empty lastQueryError to be healthy,
  // by a query that succeeded. The code meets that exactly for determined
  // providers: an Unknown entry carries its explanation in reason alone.
  lemma LastQueryErrorContractIff(p: ProviderReport, now: nat)
    ensures (EntryOf(p, now).lastQueryError == "" ==> EntryOf(p, now).health == Healthy && QuerySucceeded(p))
       <==> Determinate(p)
  {
    EntriesAreFaithful([p], now, 0);
    assert Entries([p], now)[0] == EntryOf(p, now);
  }

  // It also asks for a reason on every entry that is not healthy. The code meets
  // that exactly unless the provider is determined and unhealthy.
  lemma ReasonContractIff(p: ProviderReport, now: nat)
    ensures (EntryOf(p, now).health != Healthy ==> EntryOf(p, now).reason != "")
       <==> !(p.checked && p.healthy == Some(false))
  {
    if p.healthy.Some? {
      assert p.healthy == if p.healthy.value then Some(true) else Some(false);
    }
    EntriesAreFaithful([p], now, 0);
    assert Entries([p], now)[0] == EntryOf(p, now);
  }

  // Both comments fail at one plain report each.
  lemma CommentsFail(now: nat)
    ensures EntryOf(ProviderReport("tetragon", false, None, "", None, []), now).lastQueryError == ""
    ensures EntryOf(ProviderReport("tetragon", true, Some(false), "", None, []), now).reason == ""
  {}

  // Every undetermined provider is listed, and nothing else: the list has the
  // i-th Unknown entry in place i.
  function UnknownBefore(es: seq<HealthEntry>, i: nat): nat
    requires i <= |es|
  {
    if i == 0 then 0 else UnknownBefore(es, i - 1) + (if es[i - 1].health == Unknown then 1 else 0)
  }

  lemma {:induction false} UnknownBeforePrefix(es: seq<HealthEntry>, n: nat, i: nat)
    requires i <= n <= |es|
    ensures UnknownBefore(es[..n], i) == UnknownBefore(es, i)
  {
    if i > 0 {
      UnknownBeforePrefix(es, n, i - 1);
    }
  }

  lemma {:induction false} UndeterminedInOrder(es: seq<HealthEntry>, i: nat)
    requires i < |es|
    ensures |UnknownLabels(es)| == UnknownBefore(es, |es|)
    ensures es[i].health == Unknown ==>
              UnknownBefore(es, i) < |UnknownLabels(es)|
              && UnknownLabels(es)[UnknownBefore(es, i)] == es[i].name + ": " + es[i].reason
    decreases es
  {
    var n := |es| - 1;
    UnknownBeforePrefix(es, n, n);
    UnknownBeforePrefix(es, n, if i < n then i else n);
    if n > 0 {
      UndeterminedInOrder(es[..n], if i < n then i else n - 1);
    }
  }
}
