/** Passes on different policies do not interfere: any interleaving of their
    steps is equal to a serial one. */
module Independence {
  import opened Types
  import opened System

  predicate OnPolicies(acts: seq<Action>) { forall i :: 0 <= i < |acts| ==> acts[i].OnPolicy? }

  // The actions of one key, and of the others, in their order.
  function Of(acts: seq<Action>, k: Key): (r: seq<Action>)
    requires OnPolicies(acts)
    ensures OnPolicies(r)
  {
    if acts == [] then []
    else (if acts[0].key == k then [acts[0]] else []) + Of(acts[1..], k)
  }

  function Others(acts: seq<Action>, k: Key): (r: seq<Action>)
    requires OnPolicies(acts)
    ensures OnPolicies(r)
  {
    if acts == [] then []
    else (if acts[0].key == k then [] else [acts[0]]) + Others(acts[1..], k)
  }

  lemma OfIsOf(acts: seq<Action>, k: Key)
    requires OnPolicies(acts)
    ensures forall a :: a in Of(acts, k) ==> a in acts && a.OnPolicy? && a.key == k
  {}

  lemma OthersAreOthers(acts: seq<Action>, k: Key)
    requires OnPolicies(acts)
    ensures forall a :: a in Others(acts, k) ==> a in acts && a.OnPolicy? && a.key != k
  {}

  // A step writes its own cell and reads nothing another key's step writes.
  lemma StepIsLocal(s: State, a: Action, j: Key)
    requires a.OnPolicy? && CanDo(s, a)
    ensures var t := Do(s, a);
            && t == s.(cells := s.cells[a.key := CellOf(t, a.key)])
            && WellFormed(t) && ContextOf(t) == ContextOf(s)
            && (j != a.key ==> CellOf(t, j) == CellOf(s, j))
  {}

  lemma StaysEnabled(s: State, t: State, a: Action)
    requires a.OnPolicy? && WellFormed(s) && WellFormed(t)
    requires ContextOf(s) == ContextOf(t) && CellOf(s, a.key) == CellOf(t, a.key)
    ensures CanDo(s, a) <==> CanDo(t, a)
    ensures CanDo(s, a) ==> CellOf(Do(s, a), a.key) == CellOf(Do(t, a), a.key)
  {}

  // Two neighbouring steps on different keys can be swapped.
  lemma StepsCommute(s: State, a: Action, b: Action)
    requires a.OnPolicy? && b.OnPolicy? && a.key != b.key
    requires CanDo(s, a) && CanDo(Do(s, a), b)
    ensures CanDo(s, b) && CanDo(Do(s, b), a)
    ensures Do(Do(s, b), a) == Do(Do(s, a), b)
  {
    var t := Do(s, a);
    StepIsLocal(s, a, b.key);
    StaysEnabled(s, t, b);
    var u := Do(s, b);
    StepIsLocal(s, b, a.key);
    StaysEnabled(s, u, a);
    StepIsLocal(t, b, a.key);
    StepIsLocal(u, a, b.key);
    assert Do(u, a).cells == Do(t, b).cells;
  }

  lemma Cons(s: State, a: Action, t: State, rest: seq<Action>)
    requires CanDo(s, a) && t == Do(s, a) && Valid(t, rest)
    ensures Valid(s, [a] + rest) && Exec(s, [a] + rest) == Exec(t, rest)
  {
    assert ([a] + rest)[1..] == rest;
  }

  lemma Uncons(s: State, a: Action, rest: seq<Action>) returns (t: State)
    requires Valid(s, [a] + rest)
    ensures CanDo(s, a) && t == Do(s, a) && Valid(t, rest) && Exec(s, [a] + rest) == Exec(t, rest)
  {
    assert ([a] + rest)[1..] == rest;
    t := Do(s, a);
  }

  // A step from s to t moves past a block of steps on another key.
  lemma {:induction false} MovePast(s: State, a: Action, t: State, block: seq<Action>, k: Key, rest: seq<Action>)
    requires a.OnPolicy? && a.key != k
    requires forall b :: b in block ==> b.OnPolicy? && b.key == k
    requires CanDo(s, a) && t == Do(s, a) && Valid(t, block + rest)
    ensures Valid(s, block + ([a] + rest))
    ensures Exec(s, block + ([a] + rest)) == Exec(t, block + rest)
    decreases |block|
  {
    hide Do, CanDo;
    if block == [] {
      assert block + rest == rest && block + ([a] + rest) == [a] + rest;
      Cons(s, a, t, rest);
    } else {
      var b, block' := block[0], block[1..];
      assert block + rest == [b] + (block' + rest);
      var u := Uncons(t, b, block' + rest);
      StepsCommute(s, a, b);
      var v := Do(s, b);
      MovePast(v, a, u, block', k, rest);
      Cons(s, b, v, block' + ([a] + rest));
      assert block + ([a] + rest) == [b] + (block' + ([a] + rest));
    }
  }

  // Any interleaving ends where running all of one key's steps first, and the
  // others after, ends.
  lemma {:induction false} OneKeyFirst(s: State, acts: seq<Action>, k: Key)
    requires OnPolicies(acts) && Valid(s, acts)
    ensures Valid(s, Of(acts, k) + Others(acts, k))
    ensures Exec(s, Of(acts, k) + Others(acts, k)) == Exec(s, acts)
    decreases |acts|
  {
    hide Do, CanDo;
    if acts == [] {
      assert Of(acts, k) + Others(acts, k) == acts;
    } else {
      var a, rest := acts[0], acts[1..];
      var mine, others := Of(rest, k), Others(rest, k);
      assert acts == [a] + rest;
      var t := Uncons(s, a, rest);
      OneKeyFirst(t, rest, k);
      if a.key == k {
        Cons(s, a, t, mine + others);
        assert Of(acts, k) + Others(acts, k) == [a] + (mine + others);
      } else {
        OfIsOf(rest, k);
        MovePast(s, a, t, mine, k, others);
        assert Of(acts, k) == mine && Others(acts, k) == [a] + others;
      }
    }
  }

  // ---- the serial order -------------------------------------------------

  // Key by key: all steps of the first, then all of the next, and so on.
  function Serial(acts: seq<Action>, ks: seq<Key>): (r: seq<Action>)
    requires OnPolicies(acts)
    ensures OnPolicies(r)
    decreases |ks|
  {
    if ks == [] then [] else Of(acts, ks[0]) + Serial(Others(acts, ks[0]), ks[1..])
  }

  lemma {:induction false} SerialHasNoOthers(acts: seq<Action>, ks: seq<Key>)
    requires OnPolicies(acts)
    ensures forall a :: a in Serial(acts, ks) ==> a in acts
    decreases |ks|
  {
    if ks != [] {
      OfIsOf(acts, ks[0]);
      OthersAreOthers(acts, ks[0]);
      SerialHasNoOthers(Others(acts, ks[0]), ks[1..]);
    }
  }

  predicate KeysAmong(acts: seq<Action>, ks: seq<Key>)
    requires OnPolicies(acts)
  {
    forall i :: 0 <= i < |acts| ==> acts[i].key in ks
  }

  // No key comes back once another had its turn.
  predicate IsSerial(acts: seq<Action>)
    requires OnPolicies(acts)
  {
    forall i, j, l :: 0 <= i < j < l < |acts| && acts[i].key == acts[l].key ==> acts[j].key == acts[i].key
  }

  lemma {:induction false} SerialIsSerial(acts: seq<Action>, ks: seq<Key>)
    requires OnPolicies(acts)
    ensures IsSerial(Serial(acts, ks))
    decreases |ks|
  {
    if ks != [] {
      var rest := Serial(Others(acts, ks[0]), ks[1..]);
      SerialIsSerial(Others(acts, ks[0]), ks[1..]);
      SerialHasNoOthers(Others(acts, ks[0]), ks[1..]);
      OfIsOf(acts, ks[0]);
      OthersAreOthers(acts, ks[0]);
      forall i | 0 <= i < |rest| ensures rest[i].key != ks[0] {
        assert rest[i] in Others(acts, ks[0]);
      }
      forall i | 0 <= i < |Of(acts, ks[0])| ensures Of(acts, ks[0])[i].key == ks[0] {
        assert Of(acts, ks[0])[i] in Of(acts, ks[0]);
      }
      var n, r := |Of(acts, ks[0])|, Serial(acts, ks);
      assert forall i :: n <= i < |r| ==> r[i] == rest[i - n];
    }
  }

  lemma {:induction false} OfConcat(a: seq<Action>, b: seq<Action>, k: Key)
    requires OnPolicies(a) && OnPolicies(b) && OnPolicies(a + b)
    ensures Of(a + b, k) == Of(a, k) + Of(b, k)
  {
    if a == [] {
      assert a + b == b;
    } else {
      assert (a + b)[1..] == a[1..] + b;
      OfConcat(a[1..], b, k);
    }
  }

  lemma {:induction false} OfUniform(acts: seq<Action>, j: Key, k: Key)
    requires OnPolicies(acts) && forall a :: a in acts ==> a.OnPolicy? && a.key == j
    ensures Of(acts, k) == if j == k then acts else []
  {
    if acts != [] {
      OfUniform(acts[1..], j, k);
    }
  }

  lemma {:induction false} OfOthers(acts: seq<Action>, j: Key, k: Key)
    requires OnPolicies(acts)
    ensures Of(Others(acts, j), k) == if j == k then [] else Of(acts, k)
  {
    if acts != [] {
      OfOthers(acts[1..], j, k);
      var first := if acts[0].key == j then [] else [acts[0]];
      OfConcat(first, Others(acts[1..], j), k);
    }
  }

  // Each key's own steps are the same, in the same order.
  lemma {:induction false} SerialKeepsEachKey(acts: seq<Action>, ks: seq<Key>, k: Key)
    requires OnPolicies(acts) && KeysAmong(acts, ks)
    ensures Of(Serial(acts, ks), k) == Of(acts, k)
    decreases |ks|
  {
    if ks != [] {
      var mine, others := Of(acts, ks[0]), Others(acts, ks[0]);
      OthersAreOthers(acts, ks[0]);
      forall i | 0 <= i < |others| ensures others[i].key in ks[1..] {
        assert others[i] in others && others[i] in acts;
      }
      SerialKeepsEachKey(others, ks[1..], k);
      OfConcat(mine, Serial(others, ks[1..]), k);
      OfIsOf(acts, ks[0]);
      OfUniform(mine, ks[0], k);
      OfOthers(acts, ks[0], k);
    }
  }

  // While the pause state does not change, any interleaving of steps on any
  // number of keys ends where the serial order ends: key by key, each key's steps
  // as they were.
  lemma {:induction false} InterleavingIsSerial(s: State, acts: seq<Action>, ks: seq<Key>)
    requires OnPolicies(acts) && Valid(s, acts) && KeysAmong(acts, ks)
    ensures Valid(s, Serial(acts, ks)) && Exec(s, Serial(acts, ks)) == Exec(s, acts)
    ensures IsSerial(Serial(acts, ks)) && forall k :: Of(Serial(acts, ks), k) == Of(acts, k)
    decreases |ks|
  {
    hide Do, CanDo, IsSerial;
    SerialIsSerial(acts, ks);
    forall k ensures Of(Serial(acts, ks), k) == Of(acts, k) {
      SerialKeepsEachKey(acts, ks, k);
    }
    if ks == [] {
      assert acts == [];
    } else {
      var mine, others := Of(acts, ks[0]), Others(acts, ks[0]);
      OneKeyFirst(s, acts, ks[0]);
      Split(s, mine, others);
      OthersAreOthers(acts, ks[0]);
      forall i | 0 <= i < |others| ensures others[i].key in ks[1..] {
        assert others[i] in others && others[i] in acts;
      }
      InterleavingIsSerial(Exec(s, mine), others, ks[1..]);
      Concat(s, mine, Serial(others, ks[1..]));
    }
  }
}
