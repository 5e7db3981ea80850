/** setCondition and the condition list it keeps. meta.SetStatusCondition is
    apimachinery's: update the entry of the same type, or append one. */
module Conditions {
  import opened Types

  function Find(conds: seq<Condition>, t: ConditionType): (r: Option<Condition>)
    ensures r.None? <==> forall c :: c in conds ==> c.ctype != t
    ensures r.Some? ==> r.value in conds && r.value.ctype == t
  {
    if conds == [] then None
    else if conds[0].ctype == t then Some(conds[0])
    else Find(conds[1..], t)
  }

  predicate UniqueTypes(conds: seq<Condition>) {
    forall i, j :: 0 <= i < j < |conds| ==> conds[i].ctype != conds[j].ctype
  }

  // A condition after one more write of its type.
  function Restamped(prev: Condition, c: Condition, now: nat): Condition {
    c.(lastTransition := if prev.status == c.status then prev.lastTransition else now)
  }

  // The list after setCondition; c.lastTransition is not consulted.
  function SetCondition(conds: seq<Condition>, c: Condition, now: nat): seq<Condition> {
    if conds == [] then [c.(lastTransition := now)]
    else if conds[0].ctype == c.ctype then [Restamped(conds[0], c, now)] + conds[1..]
    else [conds[0]] + SetCondition(conds[1..], c, now)
  }

  // Where the write lands: at the first entry of its type, else at the end.
  lemma {:induction false} SetConditionPosition(conds: seq<Condition>, c: Condition, now: nat, i: nat)
    requires i <= |conds|
    requires forall k :: 0 <= k < i ==> conds[k].ctype != c.ctype
    requires i < |conds| ==> conds[i].ctype == c.ctype
    ensures SetCondition(conds, c, now) ==
            if i == |conds| then conds + [c.(lastTransition := now)]
            else conds[i := Restamped(conds[i], c, now)]
  {
    if i > 0 {
      SetConditionPosition(conds[1..], c, now, i - 1);
      assert conds == [conds[0]] + conds[1..];
    }
  }

  // The place of the first entry of a type; the end if there is none.
  function IndexOf(conds: seq<Condition>, t: ConditionType): (i: nat)
    ensures i <= |conds|
    ensures forall k :: 0 <= k < i ==> conds[k].ctype != t
    ensures i < |conds| ==> conds[i].ctype == t
  {
    if conds == [] || conds[0].ctype == t then 0 else 1 + IndexOf(conds[1..], t)
  }

  lemma {:induction false} FindAt(conds: seq<Condition>, t: ConditionType, i: nat)
    requires i <= |conds|
    requires forall k :: 0 <= k < i ==> conds[k].ctype != t
    requires i < |conds| ==> conds[i].ctype == t
    ensures Find(conds, t) == if i == |conds| then None else Some(conds[i])
  {
    if i > 0 {
      FindAt(conds[1..], t, i - 1);
    }
  }

  // What one call does to every type: the written type holds the new condition,
  // its transition time moves exactly when its status does, and the others keep
  // their entries and their positions.
  lemma SetConditionAt(conds: seq<Condition>, c: Condition, now: nat)
    ensures var r := SetCondition(conds, c, now);
            && |r| == |conds| + (if Find(conds, c.ctype).None? then 1 else 0)
            && (forall i :: 0 <= i < |conds| ==> r[i].ctype == conds[i].ctype)
            && (forall i :: 0 <= i < |conds| && conds[i].ctype != c.ctype ==> r[i] == conds[i])
            && Find(r, c.ctype) == Some(match Find(conds, c.ctype)
                                        case None => c.(lastTransition := now)
                                        case Some(prev) => Restamped(prev, c, now))
            && (Find(conds, c.ctype).None? ==> r == conds + [c.(lastTransition := now)])
  {
    var i := IndexOf(conds, c.ctype);
    SetConditionPosition(conds, c, now, i);
    FindAt(conds, c.ctype, i);
    FindAt(SetCondition(conds, c, now), c.ctype, i);
  }

  // A condition that was written, written again at the same time, is the same write.
  lemma {:induction false} WriteAsFound(conds: seq<Condition>, c: Condition, now: nat)
    ensures var r := SetCondition(conds, c, now);
            Find(r, c.ctype).Some? && SetCondition(conds, Find(r, c.ctype).value, now) == r
  {
    SetConditionAt(conds, c, now);
    SameWrite(conds, c, Find(SetCondition(conds, c, now), c.ctype).value, now);
  }

  lemma {:induction false} SameWrite(conds: seq<Condition>, c: Condition, d: Condition, now: nat)
    requires d == c.(lastTransition := d.lastTransition)
    ensures SetCondition(conds, d, now) == SetCondition(conds, c, now)
  {
    if conds != [] && conds[0].ctype != c.ctype {
      SameWrite(conds[1..], c, d, now);
    }
  }

  lemma {:induction false} FindOther(conds: seq<Condition>, c: Condition, now: nat, t: ConditionType)
    requires t != c.ctype
    ensures Find(SetCondition(conds, c, now), t) == Find(conds, t)
  {
    if conds != [] {
      var r := SetCondition(conds, c, now);
      if conds[0].ctype == c.ctype {
        assert r[1..] == conds[1..];
      } else {
        assert r[1..] == SetCondition(conds[1..], c, now);
        FindOther(conds[1..], c, now, t);
      }
    }
  }

  lemma {:induction false} SetConditionKeepsUnique(conds: seq<Condition>, c: Condition, now: nat)
    requires UniqueTypes(conds)
    ensures UniqueTypes(SetCondition(conds, c, now))
  {
    SetConditionAt(conds, c, now);
    var r := SetCondition(conds, c, now);
    forall i, j | 0 <= i < j < |r| ensures r[i].ctype != r[j].ctype {
      if j < |conds| {
      } else {
        assert conds[i] in conds;
      }
    }
  }

  // ---- a whole history of calls -----------------------------------------

  datatype Call = Call(condition: Condition, now: nat)

  function SetAll(conds: seq<Condition>, calls: seq<Call>): seq<Condition> {
    if calls == [] then conds
    else var n := |calls| - 1;
         SetCondition(SetAll(conds, calls[..n]), calls[n].condition, calls[n].now)
  }

  // The last write of a type, if any.
  function LastWrite(calls: seq<Call>, t: ConditionType): Option<Condition> {
    if calls == [] then None
    else var n := |calls| - 1;
         if calls[n].condition.ctype == t then Some(calls[n].condition)
         else LastWrite(calls[..n], t)
  }

  // The status a type has after the calls, read off the calls.
  function StatusAfter(conds: seq<Condition>, calls: seq<Call>, t: ConditionType): Option<ConditionStatus> {
    match LastWrite(calls, t)
    case Some(c) => Some(c.status)
    case None => if Find(conds, t).Some? then Some(Find(conds, t).value.status) else None
  }

  // The time of the last call that changed the type's status, or the time the
  // type started with if none did.
  function LastChange(conds: seq<Condition>, calls: seq<Call>, t: ConditionType): Option<nat> {
    if calls == [] then (if Find(conds, t).Some? then Some(Find(conds, t).value.lastTransition) else None)
    else
      var n := |calls| - 1;
      if calls[n].condition.ctype == t && StatusAfter(conds, calls[..n], t) != Some(calls[n].condition.status)
      then Some(calls[n].now)
      else LastChange(conds, calls[..n], t)
  }

  // Over any history: types stay unique, the types already present keep their
  // places, and each type shows its last write or, if it was never written, the
  // entry it started with; its transition time is that of its last change of status.
  lemma {:induction false} ConditionHistory(conds: seq<Condition>, calls: seq<Call>, t: ConditionType)
    requires UniqueTypes(conds)
    ensures UniqueTypes(SetAll(conds, calls))
    ensures |conds| <= |SetAll(conds, calls)|
    ensures forall i :: 0 <= i < |conds| ==> SetAll(conds, calls)[i].ctype == conds[i].ctype
    ensures LastWrite(calls, t).None? ==> Find(SetAll(conds, calls), t) == Find(conds, t)
    ensures LastWrite(calls, t).Some? ==>
              var f := Find(SetAll(conds, calls), t);
              f.Some? && f.value == LastWrite(calls, t).value.(lastTransition := f.value.lastTransition)
    ensures Find(SetAll(conds, calls), t).Some? ==>
              LastChange(conds, calls, t) == Some(Find(SetAll(conds, calls), t).value.lastTransition)
  {
    if calls != [] {
      var n := |calls| - 1;
      var before, call := SetAll(conds, calls[..n]), calls[n];
      ConditionHistory(conds, calls[..n], t);
      SetConditionAt(before, call.condition, call.now);
      SetConditionKeepsUnique(before, call.condition, call.now);
      if call.condition.ctype != t {
        FindOther(before, call.condition, call.now, t);
      }
    }
  }

  // The caller's condition slice, which setCondition reaches through a pointer.
  class ConditionList {
    var items: seq<Condition>

    constructor (initial: seq<Condition>)
      ensures items == initial
    {
      items := initial;
    }

    method Set(generation: nat, t: ConditionType, status: ConditionStatus,
               reason: Reason, message: Message, now: nat)
      modifies this
      ensures items == SetCondition(old(items),
                                    Condition(t, status, reason, message, generation, now), now)
    {
      var i := 0;
      while i < |items| && items[i].ctype != t
        invariant 0 <= i <= |items|
        invariant items == old(items)
        invariant forall k :: 0 <= k < i ==> items[k].ctype != t
      {
        i := i + 1;
      }
      ghost var c := Condition(t, status, reason, message, generation, now);
      SetConditionPosition(items, c, now, i);
      if i == |items| {
        items := items + [Condition(t, status, reason, message, generation, now)];
      } else {
        var existing := items[i];
        if existing.status != status {
          existing := existing.(status := status, lastTransition := now);
        }
        existing := existing.(reason := reason, message := message, observedGeneration := generation);
        items := items[i := existing];
      }
    }
  }
}
