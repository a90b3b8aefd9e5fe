/** The group-by idiom the application writes by hand in several places: a record is filled by
    `acc[key(x)] ??= init; acc[key(x)] = step(acc[key(x)], x)` over an array, then read back with
    `Object.keys`/`Object.values`/`Object.entries`, whose order for non-numeric keys is the order
    in which each key was first inserted.

    A group list is specified by `Grouped`: one group per distinct key, in first-occurrence order,
    whose value is `step` folded over the members of that key in input order. */
module Grouping {
  import opened Folds

  datatype Group<K, V> = Group(key: K, value: V)

  /** The distinct keys of `xs`, in order of first occurrence. */
  function Keys<T, K(==)>(xs: seq<T>, key: T -> K): (ks: seq<K>)
    ensures forall i, j :: 0 <= i < j < |ks| ==> ks[i] != ks[j]
  {
    if xs == [] then []
    else
      var ks := Keys(xs[..|xs| - 1], key);
      var k := key(xs[|xs| - 1]);
      if k in ks then ks else ks + [k]
  }

  /** A key is listed exactly when some element has it. */
  lemma {:induction false} KeysAreKeysOfElements<T, K>(xs: seq<T>, key: T -> K, k: K)
    ensures k in Keys(xs, key) <==> exists i :: 0 <= i < |xs| && key(xs[i]) == k
    decreases |xs|
  {
    if xs != [] {
      var ys := xs[..|xs| - 1];
      KeysAreKeysOfElements(ys, key, k);
      if k in Keys(ys, key) {
        var i :| 0 <= i < |ys| && key(ys[i]) == k;
        assert key(xs[i]) == k;
      }
      if exists i :: 0 <= i < |xs| && key(xs[i]) == k {
        var i :| 0 <= i < |xs| && key(xs[i]) == k;
        if i < |ys| {
          assert key(ys[i]) == k;
        }
      }
    }
  }

  /** The items filed under key `k`, in input order. */
  function Members<T, K(==)>(xs: seq<T>, key: T -> K, k: K): seq<T> {
    if xs == [] then []
    else Members(xs[..|xs| - 1], key, k) + (if key(xs[|xs| - 1]) == k then [xs[|xs| - 1]] else [])
  }

  lemma KeysSnoc<T, K>(xs: seq<T>, x: T, key: T -> K)
    ensures Keys(xs + [x], key) == if key(x) in Keys(xs, key) then Keys(xs, key) else Keys(xs, key) + [key(x)]
  {
    assert (xs + [x])[..|xs|] == xs;
  }

  /** `step` applied to `init` and then to each element of `xs` in turn. */
  function Fold<T, V>(xs: seq<T>, init: V, step: (V, T) -> V): V {
    if xs == [] then init else step(Fold(xs[..|xs| - 1], init, step), xs[|xs| - 1])
  }

  /** The group list the hand-written reduce builds. */
  function Grouped<T, K(==), V>(xs: seq<T>, key: T -> K, init: V, step: (V, T) -> V): (gs: seq<Group<K, V>>)
    ensures |gs| == |Keys(xs, key)|
  {
    var ks := Keys(xs, key);
    seq(|ks|, i requires 0 <= i < |ks| => Group(ks[i], Fold(Members(xs, key, ks[i]), init, step)))
  }

  /** The groups' keys are the distinct keys, in order of first occurrence. */
  lemma GroupedKeys<T, K, V>(xs: seq<T>, key: T -> K, init: V, step: (V, T) -> V)
    ensures var gs := Grouped(xs, key, init, step);
      && (forall i :: 0 <= i < |gs| ==> gs[i].key == Keys(xs, key)[i])
      && (forall i, j :: 0 <= i < j < |gs| ==> gs[i].key != gs[j].key)
  {}

  /** Whether some group has key `k`. */
  predicate HasGroup<K(==), V>(gs: seq<Group<K, V>>, k: K) {
    exists i :: 0 <= i < |gs| && gs[i].key == k
  }

  /** Every listed key is some element's key, and every element's key is listed. */
  lemma KeysCoverElements<T, K>(xs: seq<T>, key: T -> K)
    ensures forall i :: 0 <= i < |Keys(xs, key)| ==> exists j :: 0 <= j < |xs| && key(xs[j]) == Keys(xs, key)[i]
    ensures forall j :: 0 <= j < |xs| ==> key(xs[j]) in Keys(xs, key)
  {
    var ks := Keys(xs, key);
    forall i | 0 <= i < |ks| ensures exists j :: 0 <= j < |xs| && key(xs[j]) == ks[i] {
      KeysAreKeysOfElements(xs, key, ks[i]);
    }
    forall j | 0 <= j < |xs| ensures key(xs[j]) in ks {
      KeysAreKeysOfElements(xs, key, key(xs[j]));
    }
  }

  /** There is a group for the key of every element, and for no other key. */
  lemma GroupedCoversKeys<T, K, V>(xs: seq<T>, key: T -> K, init: V, step: (V, T) -> V)
    ensures var gs := Grouped(xs, key, init, step);
      && (forall i :: 0 <= i < |gs| ==> exists j :: 0 <= j < |xs| && key(xs[j]) == gs[i].key)
      && (forall j :: 0 <= j < |xs| ==> HasGroup(gs, key(xs[j])))
  {
    var gs := Grouped(xs, key, init, step);
    var ks := Keys(xs, key);
    GroupedKeys(xs, key, init, step);
    KeysCoverElements(xs, key);
    forall j | 0 <= j < |xs| ensures HasGroup(gs, key(xs[j])) {
      var i :| 0 <= i < |ks| && ks[i] == key(xs[j]);
      assert gs[i].key == ks[i];
    }
  }

  /** A key no element has collects no members. */
  lemma {:induction false} MembersOfAbsentKey<T, K>(xs: seq<T>, key: T -> K, k: K)
    requires k !in Keys(xs, key)
    ensures Members(xs, key, k) == []
    decreases |xs|
  {
    if xs != [] {
      var ys, x := xs[..|xs| - 1], xs[|xs| - 1];
      assert xs == ys + [x];
      KeysSnoc(ys, x, key);
      MembersOfAbsentKey(ys, key, k);
    }
  }

  lemma MembersSnoc<T, K>(xs: seq<T>, x: T, key: T -> K, k: K)
    ensures Members(xs + [x], key, k) == Members(xs, key, k) + (if key(x) == k then [x] else [])
  {
    assert (xs + [x])[..|xs|] == xs;
  }

  lemma FoldSnoc<T, V>(xs: seq<T>, x: T, init: V, step: (V, T) -> V)
    ensures Fold(xs + [x], init, step) == step(Fold(xs, init, step), x)
  {
    assert (xs + [x])[..|xs|] == xs;
  }

  /** The group at position `i` folds the members of the `i`-th distinct key. */
  lemma GroupAt<T, K, V>(xs: seq<T>, key: T -> K, init: V, step: (V, T) -> V, i: int)
    requires 0 <= i < |Keys(xs, key)|
    ensures Grouped(xs, key, init, step)[i] == Group(Keys(xs, key)[i], Fold(Members(xs, key, Keys(xs, key)[i]), init, step))
  {}

  /** One more input element whose key already has a group: that group takes one more step
      and every other group is unchanged. */
  lemma GroupedSnocExisting<T, K, V>(xs: seq<T>, x: T, key: T -> K, init: V, step: (V, T) -> V, j: int)
    requires 0 <= j < |Keys(xs, key)| && Keys(xs, key)[j] == key(x)
    ensures var gs := Grouped(xs, key, init, step);
      Grouped(xs + [x], key, init, step) == gs[j := Group(key(x), step(gs[j].value, x))]
  {
    var ks := Keys(xs, key);
    var gs := Grouped(xs, key, init, step);
    var gs' := Grouped(xs + [x], key, init, step);
    var expected := gs[j := Group(key(x), step(gs[j].value, x))];
    KeysSnoc(xs, x, key);
    assert Keys(xs + [x], key) == ks;
    assert |gs'| == |expected|;
    forall i | 0 <= i < |ks|
      ensures gs'[i] == expected[i]
    {
      var k := ks[i];
      var before := Members(xs, key, k);
      GroupAt(xs, key, init, step, i);
      GroupAt(xs + [x], key, init, step, i);
      assert gs'[i] == Group(k, Fold(Members(xs + [x], key, k), init, step));
      MembersSnoc(xs, x, key, k);
      if i == j {
        assert Members(xs + [x], key, k) == before + [x];
        FoldSnoc(before, x, init, step);
      } else {
        assert k != key(x);
        assert Members(xs + [x], key, k) == before;
      }
    }
  }

  /** One more input element with a new key: a group for it is appended after the others. */
  lemma GroupedSnocNew<T, K, V>(xs: seq<T>, x: T, key: T -> K, init: V, step: (V, T) -> V)
    requires key(x) !in Keys(xs, key)
    ensures Grouped(xs + [x], key, init, step) == Grouped(xs, key, init, step) + [Group(key(x), step(init, x))]
  {
    var ks := Keys(xs, key);
    var gs := Grouped(xs, key, init, step);
    var gs' := Grouped(xs + [x], key, init, step);
    KeysSnoc(xs, x, key);
    assert Keys(xs + [x], key) == ks + [key(x)];
    MembersOfAbsentKey(xs, key, key(x));
    MembersSnoc(xs, x, key, key(x));
    assert Members(xs + [x], key, key(x)) == [x];
    FoldSnoc([], x, init, step);
    assert [] + [x] == [x];
    forall i | 0 <= i < |ks| ensures gs'[i] == gs[i] {
      assert Keys(xs + [x], key)[i] == ks[i] != key(x);
      MembersSnoc(xs, x, key, ks[i]);
      assert Members(xs + [x], key, ks[i]) == Members(xs, key, ks[i]);
    }
  }

  /** One step of the reduce, `acc[key(x)] ??= init; acc[key(x)] = step(acc[key(x)], x)`: find
      the group of `x`'s key (or open a new one at the end) and apply `step` to it. */
  method AddToGroups<T, K(==), V>(ghost xs: seq<T>, groups: seq<Group<K, V>>, x: T, key: T -> K, init: V, step: (V, T) -> V)
    returns (groups': seq<Group<K, V>>)
    requires groups == Grouped(xs, key, init, step)
    ensures groups' == Grouped(xs + [x], key, init, step)
  {
    var k := key(x);
    var j := 0;
    while j < |groups| && groups[j].key != k
      invariant 0 <= j <= |groups|
      invariant forall t :: 0 <= t < j ==> groups[t].key != k
    {
      j := j + 1;
    }
    if j < |groups| {
      GroupedSnocExisting(xs, x, key, init, step, j);
      groups' := groups[j := Group(k, step(groups[j].value, x))];
    } else {
      assert forall t :: 0 <= t < |groups| ==> groups[t].key == Keys(xs, key)[t];
      GroupedSnocNew(xs, x, key, init, step);
      groups' := groups + [Group(k, step(init, x))];
    }
  }

  /** A `forEach` over a further batch `ys` of the input, one `AddToGroups` step per element. */
  method AddAllToGroups<T, K(==), V>(ghost xs: seq<T>, groups: seq<Group<K, V>>, ys: seq<T>, key: T -> K, init: V,
                                     step: (V, T) -> V)
    returns (groups': seq<Group<K, V>>)
    requires groups == Grouped(xs, key, init, step)
    ensures groups' == Grouped(xs + ys, key, init, step)
  {
    groups' := groups;
    var j := 0;
    assert xs + ys[..0] == xs;
    while j < |ys|
      invariant 0 <= j <= |ys|
      invariant groups' == Grouped(xs + ys[..j], key, init, step)
    {
      groups' := AddToGroups(xs + ys[..j], groups', ys[j], key, init, step);
      assert xs + ys[..j + 1] == (xs + ys[..j]) + [ys[j]];
      j := j + 1;
    }
    assert ys[..j] == ys;
  }

  /** The reduce loop: scan the input once, taking one `AddToGroups` step per element. */
  method GroupBy<T, K(==), V>(xs: seq<T>, key: T -> K, init: V, step: (V, T) -> V)
    returns (groups: seq<Group<K, V>>)
    ensures groups == Grouped(xs, key, init, step)
  {
    groups := [];
    var i := 0;
    while i < |xs|
      invariant 0 <= i <= |xs|
      invariant groups == Grouped(xs[..i], key, init, step)
    {
      groups := AddToGroups(xs[..i], groups, xs[i], key, init, step);
      assert xs[..i + 1] == xs[..i] + [xs[i]];
      i := i + 1;
    }
    assert xs[..i] == xs;
  }

  /** Sum of `w` over the members of each key in `ks`, key after key. */
  function SumOverKeys<T, K(==)>(ks: seq<K>, xs: seq<T>, key: T -> K, w: T -> real): real {
    if ks == [] then 0.0 else SumOverKeys(ks[..|ks| - 1], xs, key, w) + Sum(Members(xs, key, ks[|ks| - 1]), w)
  }

  function SumIntOverKeys<T, K(==)>(ks: seq<K>, xs: seq<T>, key: T -> K, w: T -> int): int {
    if ks == [] then 0 else SumIntOverKeys(ks[..|ks| - 1], xs, key, w) + SumInt(Members(xs, key, ks[|ks| - 1]), w)
  }

  lemma {:induction false} SumOverKeysSnoc<T, K>(ks: seq<K>, xs: seq<T>, x: T, key: T -> K, w: T -> real)
    requires forall i, j :: 0 <= i < j < |ks| ==> ks[i] != ks[j]
    ensures SumOverKeys(ks, xs + [x], key, w) == SumOverKeys(ks, xs, key, w) + (if key(x) in ks then w(x) else 0.0)
    decreases |ks|
  {
    if ks != [] {
      var front, k := ks[..|ks| - 1], ks[|ks| - 1];
      assert ks == front + [k];
      var extra := if key(x) == k then [x] else [];
      SumOverKeysSnoc(front, xs, x, key, w);
      MembersSnoc(xs, x, key, k);
      SumConcat(Members(xs, key, k), extra, w);
      assert Sum(extra, w) == if key(x) == k then w(x) else 0.0;
      assert key(x) == k ==> key(x) !in front;
      var before, after := SumOverKeys(ks, xs, key, w), SumOverKeys(ks, xs + [x], key, w);
      assert before == SumOverKeys(front, xs, key, w) + Sum(Members(xs, key, k), w);
      assert after == SumOverKeys(front, xs + [x], key, w) + Sum(Members(xs + [x], key, k), w);
    }
  }

  lemma {:induction false} SumIntOverKeysSnoc<T, K>(ks: seq<K>, xs: seq<T>, x: T, key: T -> K, w: T -> int)
    requires forall i, j :: 0 <= i < j < |ks| ==> ks[i] != ks[j]
    ensures SumIntOverKeys(ks, xs + [x], key, w) == SumIntOverKeys(ks, xs, key, w) + (if key(x) in ks then w(x) else 0)
    decreases |ks|
  {
    if ks != [] {
      var front, k := ks[..|ks| - 1], ks[|ks| - 1];
      assert ks == front + [k];
      var extra := if key(x) == k then [x] else [];
      SumIntOverKeysSnoc(front, xs, x, key, w);
      MembersSnoc(xs, x, key, k);
      SumIntConcat(Members(xs, key, k), extra, w);
      assert SumInt(extra, w) == if key(x) == k then w(x) else 0;
      assert key(x) == k ==> key(x) !in front;
      var before, after := SumIntOverKeys(ks, xs, key, w), SumIntOverKeys(ks, xs + [x], key, w);
      assert before == SumIntOverKeys(front, xs, key, w) + SumInt(Members(xs, key, k), w);
      assert after == SumIntOverKeys(front, xs + [x], key, w) + SumInt(Members(xs + [x], key, k), w);
    }
  }

  /** Every input element is counted in exactly one group: summing per group and adding the
      group sums gives the sum over the whole input. */
  lemma {:induction false} Partition<T, K>(xs: seq<T>, key: T -> K, w: T -> real)
    ensures SumOverKeys(Keys(xs, key), xs, key, w) == Sum(xs, w)
    decreases |xs|
  {
    if xs != [] {
      var ys, x := xs[..|xs| - 1], xs[|xs| - 1];
      assert xs == ys + [x];
      var ks, k := Keys(ys, key), key(x);
      Partition(ys, key, w);
      SumOverKeysSnoc(ks, ys, x, key, w);
      KeysSnoc(ys, x, key);
      assert Sum(xs, w) == Sum(ys, w) + w(x);
      if k in ks {
        assert Keys(xs, key) == ks;
        assert SumOverKeys(ks, xs, key, w) == SumOverKeys(ks, ys, key, w) + w(x);
      } else {
        MembersOfAbsentKey(ys, key, k);
        MembersSnoc(ys, x, key, k);
        assert [x][..0] == [];
        assert (ks + [k])[..|ks|] == ks;
        assert SumOverKeys(ks, xs, key, w) == SumOverKeys(ks, ys, key, w);
        assert Members(xs, key, k) == [x];
        calc {
          SumOverKeys(Keys(xs, key), xs, key, w);
          SumOverKeys(ks, xs, key, w) + Sum(Members(xs, key, k), w);
          SumOverKeys(ks, ys, key, w) + Sum([x], w);
          Sum(ys, w) + w(x);
        }
      }
    }
  }


  lemma {:induction false} PartitionInt<T, K>(xs: seq<T>, key: T -> K, w: T -> int)
    ensures SumIntOverKeys(Keys(xs, key), xs, key, w) == SumInt(xs, w)
    decreases |xs|
  {
    if xs != [] {
      var ys, x := xs[..|xs| - 1], xs[|xs| - 1];
      assert xs == ys + [x];
      var ks, k := Keys(ys, key), key(x);
      PartitionInt(ys, key, w);
      SumIntOverKeysSnoc(ks, ys, x, key, w);
      KeysSnoc(ys, x, key);
      assert SumInt(xs, w) == SumInt(ys, w) + w(x);
      if k in ks {
        assert Keys(xs, key) == ks;
        assert SumIntOverKeys(ks, xs, key, w) == SumIntOverKeys(ks, ys, key, w) + w(x);
      } else {
        MembersOfAbsentKey(ys, key, k);
        MembersSnoc(ys, x, key, k);
        assert [x][..0] == [];
        assert (ks + [k])[..|ks|] == ks;
        assert SumIntOverKeys(ks, xs, key, w) == SumIntOverKeys(ks, ys, key, w);
        assert Members(xs, key, k) == [x];
        calc {
          SumIntOverKeys(Keys(xs, key), xs, key, w);
          SumIntOverKeys(ks, xs, key, w) + SumInt(Members(xs, key, k), w);
          SumIntOverKeys(ks, ys, key, w) + SumInt([x], w);
          SumInt(ys, w) + w(x);
        }
      }
    }
  }


  lemma {:induction false} SumMatchesKeys<G, T, K>(gs: seq<G>, f: G -> real, ks: seq<K>, xs: seq<T>, key: T -> K, w: T -> real)
    requires |gs| == |ks|
    requires forall i :: 0 <= i < |gs| ==> f(gs[i]) == Sum(Members(xs, key, ks[i]), w)
    ensures Sum(gs, f) == SumOverKeys(ks, xs, key, w)
    decreases |gs|
  {
    if gs != [] {
      SumMatchesKeys(gs[..|gs| - 1], f, ks[..|ks| - 1], xs, key, w);
    }
  }

  lemma {:induction false} SumIntMatchesKeys<G, T, K>(gs: seq<G>, f: G -> int, ks: seq<K>, xs: seq<T>, key: T -> K, w: T -> int)
    requires |gs| == |ks|
    requires forall i :: 0 <= i < |gs| ==> f(gs[i]) == SumInt(Members(xs, key, ks[i]), w)
    ensures SumInt(gs, f) == SumIntOverKeys(ks, xs, key, w)
    decreases |gs|
  {
    if gs != [] {
      SumIntMatchesKeys(gs[..|gs| - 1], f, ks[..|ks| - 1], xs, key, w);
    }
  }

  /** When each group carries the `w`-sum of its members, the groups' figures add up to the
      figure over the whole input. */
  lemma GroupTotals<G, T, K>(gs: seq<G>, f: G -> real, xs: seq<T>, key: T -> K, w: T -> real)
    requires |gs| == |Keys(xs, key)|
    requires forall i :: 0 <= i < |gs| ==> f(gs[i]) == Sum(Members(xs, key, Keys(xs, key)[i]), w)
    ensures Sum(gs, f) == Sum(xs, w)
  {
    SumMatchesKeys(gs, f, Keys(xs, key), xs, key, w);
    Partition(xs, key, w);
  }

  lemma GroupIntTotals<G, T, K>(gs: seq<G>, f: G -> int, xs: seq<T>, key: T -> K, w: T -> int)
    requires |gs| == |Keys(xs, key)|
    requires forall i :: 0 <= i < |gs| ==> f(gs[i]) == SumInt(Members(xs, key, Keys(xs, key)[i]), w)
    ensures SumInt(gs, f) == SumInt(xs, w)
  {
    SumIntMatchesKeys(gs, f, Keys(xs, key), xs, key, w);
    PartitionInt(xs, key, w);
  }

  /** Each input element lies in the group of its own key and in no other. */
  lemma {:induction false} MembersHaveKey<T, K>(xs: seq<T>, key: T -> K, k: K)
    ensures forall y :: y in Members(xs, key, k) <==> y in xs && key(y) == k
    decreases |xs|
  {
    if xs != [] {
      MembersHaveKey(xs[..|xs| - 1], key, k);
      assert xs == xs[..|xs| - 1] + [xs[|xs| - 1]];
    }
  }

  /** Each input element lies in the group of its own key and in no other. */
  lemma InExactlyOneGroup<T, K>(xs: seq<T>, key: T -> K, i: int)
    requires 0 <= i < |xs|
    ensures key(xs[i]) in Keys(xs, key)
    ensures forall j :: 0 <= j < |Keys(xs, key)| ==>
      (xs[i] in Members(xs, key, Keys(xs, key)[j]) <==> Keys(xs, key)[j] == key(xs[i]))
  {
    forall j | 0 <= j < |Keys(xs, key)| {
      MembersHaveKey(xs, key, Keys(xs, key)[j]);
    }
  }

  /** `acc[k].push(x)`: the step of a reduce that collects each key's elements. */
  function Append<T>(acc: seq<T>, x: T): seq<T> {
    acc + [x]
  }

  lemma {:induction false} FoldAppend<T>(xs: seq<T>)
    ensures Fold(xs, [], Append) == xs
    decreases |xs|
  {
    if xs != [] {
      FoldAppend(xs[..|xs| - 1]);
      assert xs == xs[..|xs| - 1] + [xs[|xs| - 1]];
    }
  }

  /** Collecting with `push`: the group of each key holds exactly that key's members. */
  lemma CollectedGroups<T, K>(xs: seq<T>, key: T -> K)
    ensures var gs := Grouped(xs, key, [], Append);
      forall i :: 0 <= i < |gs| ==> gs[i] == Group(Keys(xs, key)[i], Members(xs, key, Keys(xs, key)[i]))
  {
    forall i | 0 <= i < |Keys(xs, key)| {
      FoldAppend(Members(xs, key, Keys(xs, key)[i]));
    }
  }

  /** `sub` is `xs` with some elements deleted: `idx` gives, in increasing order, the position
      in `xs` of each element of `sub`. */
  ghost predicate Embeds<T>(idx: seq<int>, sub: seq<T>, xs: seq<T>) {
    && |idx| == |sub|
    && (forall j :: 0 <= j < |idx| ==> 0 <= idx[j] < |xs| && sub[j] == xs[idx[j]])
    && (forall a, b :: 0 <= a < b < |idx| ==> idx[a] < idx[b])
  }

  /** Where in `xs` the members of `k` sit. */
  function MemberPositions<T, K(==)>(xs: seq<T>, key: T -> K, k: K): (idx: seq<int>)
    ensures forall j :: 0 <= j < |idx| ==> 0 <= idx[j] < |xs|
  {
    if xs == [] then []
    else MemberPositions(xs[..|xs| - 1], key, k) + (if key(xs[|xs| - 1]) == k then [|xs| - 1] else [])
  }

  /** The members of a key are the input's elements with that key, each taken once, in input
      order. */
  lemma MembersKeepInputOrder<T, K>(xs: seq<T>, key: T -> K, k: K)
    ensures Embeds(MemberPositions(xs, key, k), Members(xs, key, k), xs)
    ensures forall i :: 0 <= i < |xs| ==> (i in MemberPositions(xs, key, k) <==> key(xs[i]) == k)
  {
    MemberPositionsEmbed(xs, key, k);
    MemberPositionsExact(xs, key, k);
  }

  lemma {:induction false} MemberPositionsEmbed<T, K>(xs: seq<T>, key: T -> K, k: K)
    ensures Embeds(MemberPositions(xs, key, k), Members(xs, key, k), xs)
    decreases |xs|
  {
    if xs != [] {
      var n := |xs|;
      var front := xs[..n - 1];
      MemberPositionsEmbed(front, key, k);
      var idx, m := MemberPositions(front, key, k), Members(front, key, k);
      var idx', m' := MemberPositions(xs, key, k), Members(xs, key, k);
      assert |idx| == |m|;
      forall j | 0 <= j < |idx| ensures idx'[j] == idx[j] && m'[j] == m[j] && xs[idx[j]] == front[idx[j]] {
      }
      if key(xs[n - 1]) == k {
        assert idx' == idx + [n - 1] && m' == m + [xs[n - 1]];
      } else {
        assert idx' == idx && m' == m;
      }
    }
  }

  lemma {:induction false} MemberPositionsExact<T, K>(xs: seq<T>, key: T -> K, k: K)
    ensures forall i :: 0 <= i < |xs| ==> (i in MemberPositions(xs, key, k) <==> key(xs[i]) == k)
    decreases |xs|
  {
    if xs != [] {
      var n := |xs|;
      var front := xs[..n - 1];
      MemberPositionsExact(front, key, k);
      forall i | 0 <= i < n - 1 ensures i in MemberPositions(xs, key, k) <==> key(xs[i]) == k {
        assert front[i] == xs[i];
      }
    }
  }

  /** A listed key has at least one member. */
  lemma {:induction false} ListedKeyHasMembers<T, K>(xs: seq<T>, key: T -> K, k: K)
    requires k in Keys(xs, key)
    ensures |Members(xs, key, k)| > 0
    decreases |xs|
  {
    var n := |xs|;
    KeysSnoc(xs[..n - 1], xs[n - 1], key);
    assert xs == xs[..n - 1] + [xs[n - 1]];
    if k != key(xs[n - 1]) {
      ListedKeyHasMembers(xs[..n - 1], key, k);
    }
  }
}
