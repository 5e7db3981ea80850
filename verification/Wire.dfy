/** toWireSpec, toWireRule and toRuntimeWireSpec: the CRD spec as the API sees it. */
module Wire {
  import opened Types

  datatype WireRule = WireRule(ports: seq<int32>, peerSelector: Labels, peerNamespace: string)

  datatype WireSpec =
    | WireSegmentation(matchLabels: Labels, ingress: seq<WireRule>, egress: seq<WireRule>, providerRef: string)
    | WireRuntime(matchLabels: Labels, tracingPolicyRef: string, deniedBinaries: seq<string>)

  // A Go slice or map as its contents; nil has none.
  function Items<T>(s: Option<seq<T>>): seq<T> { if s.Some? then s.value else [] }

  function Entries(m: Option<Labels>): Labels { if m.Some? then m.value else map[] }

  function ToWireRule(r: Rule): WireRule {
    WireRule(Items(r.ports), Entries(r.peerSelector), r.peerNamespace)
  }

  function ToWireRules(rs: seq<Rule>): (ws: seq<WireRule>)
    ensures |ws| == |rs|
    ensures forall i :: 0 <= i < |rs| ==> ws[i] == ToWireRule(rs[i])
  {
    if rs == [] then [] else ToWireRules(rs[..|rs| - 1]) + [ToWireRule(rs[|rs| - 1])]
  }

  function ToWire(spec: PolicySpec): WireSpec {
    match spec
    case SegmentationSpec(labels, ingress, egress, providerRef) =>
      WireSegmentation(Entries(labels), ToWireRules(Items(ingress)), ToWireRules(Items(egress)), providerRef)
    case RuntimeSpec(labels, tracingPolicyRef, deniedBinaries) =>
      WireRuntime(Entries(labels), tracingPolicyRef, Items(deniedBinaries))
  }

  // toWireSpec, with its two append loops.
  method ToWireSpec(spec: PolicySpec) returns (w: WireSpec)
    requires spec.SegmentationSpec?
    ensures w == ToWire(spec)
  {
    var ingress: seq<WireRule> := [];
    var egress: seq<WireRule> := [];
    var rules := Items(spec.ingress);
    for i := 0 to |rules|
      invariant ingress == ToWireRules(rules[..i])
    {
      assert rules[..i + 1][..i] == rules[..i];
      ingress := ingress + [ToWireRule(rules[i])];
    }
    assert rules[..|rules|] == rules;
    rules := Items(spec.egress);
    for i := 0 to |rules|
      invariant egress == ToWireRules(rules[..i])
    {
      assert rules[..i + 1][..i] == rules[..i];
      egress := egress + [ToWireRule(rules[i])];
    }
    assert rules[..|rules|] == rules;
    w := WireSegmentation(Entries(spec.matchLabels), ingress, egress, spec.providerRef);
  }

  // ---- nothing but nil-ness is lost -------------------------------------

  function FromWireRule(w: WireRule): Rule { Rule(Some(w.ports), Some(w.peerSelector), w.peerNamespace) }

  // The spec a reader of the wire form reconstructs.
  function FromWire(w: WireSpec): PolicySpec {
    match w
    case WireSegmentation(labels, ingress, egress, providerRef) =>
      SegmentationSpec(Some(labels), Some(seq(|ingress|, i requires 0 <= i < |ingress| => FromWireRule(ingress[i]))),
                       Some(seq(|egress|, i requires 0 <= i < |egress| => FromWireRule(egress[i]))), providerRef)
    case WireRuntime(labels, tracingPolicyRef, deniedBinaries) =>
      RuntimeSpec(Some(labels), tracingPolicyRef, Some(deniedBinaries))
  }

  predicate SameRule(a: Rule, b: Rule) {
    && Items(a.ports) == Items(b.ports)
    && Entries(a.peerSelector) == Entries(b.peerSelector)
    && a.peerNamespace == b.peerNamespace
  }

  predicate SameRules(a: seq<Rule>, b: seq<Rule>) {
    |a| == |b| && forall i :: 0 <= i < |a| ==> SameRule(a[i], b[i])
  }

  // Equal up to nil versus empty, at every level.
  predicate SameSpec(a: PolicySpec, b: PolicySpec) {
    match (a, b)
    case (SegmentationSpec(l, i, e, p), SegmentationSpec(l', i', e', p')) =>
      Entries(l) == Entries(l') && SameRules(Items(i), Items(i')) && SameRules(Items(e), Items(e')) && p == p'
    case (RuntimeSpec(l, t, d), RuntimeSpec(l', t', d')) =>
      Entries(l) == Entries(l') && t == t' && Items(d) == Items(d')
    case _ => false
  }

  lemma RoundTrip(spec: PolicySpec)
    ensures SameSpec(FromWire(ToWire(spec)), spec)
  {
    if spec.SegmentationSpec? {
      var decoded := FromWire(ToWire(spec));
      assert SameRules(Items(decoded.ingress), Items(spec.ingress));
      assert SameRules(Items(decoded.egress), Items(spec.egress));
    }
  }

  // Two specs are sent alike exactly when they differ in nil-ness only.
  lemma SameWireIff(a: PolicySpec, b: PolicySpec)
    ensures ToWire(a) == ToWire(b) <==> SameSpec(a, b)
  {
    if SameSpec(a, b) && a.SegmentationSpec? {
      assert ToWireRules(Items(a.ingress)) == ToWireRules(Items(b.ingress));
      assert ToWireRules(Items(a.egress)) == ToWireRules(Items(b.egress));
    }
    if ToWire(a) == ToWire(b) && a.SegmentationSpec? {
      var ai, bi := Items(a.ingress), Items(b.ingress);
      forall i | 0 <= i < |ai| ensures SameRule(ai[i], bi[i]) {
        assert ToWireRules(ai)[i] == ToWireRules(bi)[i];
      }
      var ae, be := Items(a.egress), Items(b.egress);
      forall i | 0 <= i < |ae| ensures SameRule(ae[i], be[i]) {
        assert ToWireRules(ae)[i] == ToWireRules(be)[i];
      }
    }
  }

  // ---- every field under its own name -----------------------------------

  predicate RuleIs(w: WireRule, r: Rule) {
    && w.ports == (if r.ports.None? then [] else r.ports.value)
    && w.peerSelector == (if r.peerSelector.None? then map[] else r.peerSelector.value)
    && w.peerNamespace == r.peerNamespace
  }

  predicate RulesAre(ws: seq<WireRule>, rs: Option<seq<Rule>>) {
    && |ws| == (if rs.None? then 0 else |rs.value|)
    && (rs.Some? ==> forall i :: 0 <= i < |ws| ==> RuleIs(ws[i], rs.value[i]))
  }

  // Ingress goes out as ingress and egress as egress, rule by rule in order, nil as
  // empty, and everything else as it is.
  lemma WireIs(spec: PolicySpec)
    ensures match (spec, ToWire(spec))
            case (SegmentationSpec(l, i, e, p), WireSegmentation(l', i', e', p')) =>
              l' == (if l.None? then map[] else l.value) && RulesAre(i', i) && RulesAre(e', e) && p' == p
            case (RuntimeSpec(l, t, d), WireRuntime(l', t', d')) =>
              l' == (if l.None? then map[] else l.value) && t' == t && d' == (if d.None? then [] else d.value)
            case _ => false
  {}

  // ---- the documented meaning of a rule ---------------------------------

  // Empty ports means every port; an empty peer namespace means the policy's own.
  predicate Allows(r: Rule, own: string, port: int32, ns: string, labels: Labels) {
    && (Items(r.ports) == [] || port in Items(r.ports))
    && ns == (if r.peerNamespace == "" then own else r.peerNamespace)
    && forall l :: l in Entries(r.peerSelector) ==> l in labels && labels[l] == Entries(r.peerSelector)[l]
  }

  predicate WireAllows(w: WireRule, own: string, port: int32, ns: string, labels: Labels) {
    && (w.ports == [] || port in w.ports)
    && ns == (if w.peerNamespace == "" then own else w.peerNamespace)
    && forall l :: l in w.peerSelector ==> l in labels && labels[l] == w.peerSelector[l]
  }

  // A peer is let in by some rule of the policy exactly when it is by some rule
  // of what is sent.
  lemma MeaningPreserved(rules: seq<Rule>, own: string, port: int32, ns: string, labels: Labels)
    ensures (exists r :: r in rules && Allows(r, own, port, ns, labels))
       <==> (exists w :: w in ToWireRules(rules) && WireAllows(w, own, port, ns, labels))
  {
    var ws := ToWireRules(rules);
    if r :| r in rules && Allows(r, own, port, ns, labels) {
      var i :| 0 <= i < |rules| && rules[i] == r;
      assert ws[i] in ws && WireAllows(ws[i], own, port, ns, labels);
    }
    if w :| w in ws && WireAllows(w, own, port, ns, labels) {
      var i :| 0 <= i < |ws| && ws[i] == w;
      assert rules[i] in rules && Allows(rules[i], own, port, ns, labels);
    }
  }
}
