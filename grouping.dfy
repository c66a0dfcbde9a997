/**
 * Grouping a sequence by a key, as the pipeline does with a Python dict of
 * lists (`if key not in d: d[key] = []; d[key].append(x)`): the groups come in
 * the order their keys first appear, and each group keeps input order.
 */
module Grouping {

  /** The elements of `s` whose key is `k`, in input order. */
  function Members<T, K(==)>(s: seq<T>, key: T -> K, k: K): seq<T>
    decreases |s|
  {
    if |s| == 0 then []
    else Members(s[..|s| - 1], key, k) + (if key(s[|s| - 1]) == k then [s[|s| - 1]] else [])
  }

  /** The distinct keys of `s` in order of first appearance (a dict's key order). */
  function DistinctKeys<T, K(==)>(s: seq<T>, key: T -> K): seq<K>
    decreases |s|
  {
    if |s| == 0 then []
    else
      var d := DistinctKeys(s[..|s| - 1], key);
      if key(s[|s| - 1]) in d then d else d + [key(s[|s| - 1])]
  }

  predicate Distinct<K(==)>(ks: seq<K>) {
    forall i, j :: 0 <= i < j < |ks| ==> ks[i] != ks[j]
  }

  /** An insertion-ordered dictionary: its key order and its contents. */
  datatype Grouped<K(==,!new), T> = Grouped(order: seq<K>, groups: map<K, seq<T>>) {
    ghost predicate Valid() {
      Distinct(order) && (forall k :: k in groups <==> k in order)
    }
  }

  /** The concatenation of the groups in key order. */
  function Flatten<K(==), T>(order: seq<K>, groups: map<K, seq<T>>): seq<T>
    requires forall k :: k in order ==> k in groups
    decreases |order|
  {
    if |order| == 0 then []
    else Flatten(order[..|order| - 1], groups) + groups[order[|order| - 1]]
  }

  /** The dict the grouping loop builds. */
  function GroupOf<T, K(==,!new)>(s: seq<T>, key: T -> K): Grouped<K, T> {
    var ks := DistinctKeys(s, key);
    Grouped(ks, map k | k in ks :: Members(s, key, k))
  }

  lemma {:induction false} MembersAppend<T, K>(a: seq<T>, b: seq<T>, key: T -> K, k: K)
    ensures Members(a + b, key, k) == Members(a, key, k) + Members(b, key, k)
    decreases |b|
  {
    if |b| == 0 {
      assert a + b == a;
    } else {
      assert (a + b)[..|a + b| - 1] == a + b[..|b| - 1];
      MembersAppend(a, b[..|b| - 1], key, k);
    }
  }

  lemma MembersSingle<T, K>(x: T, key: T -> K, k: K)
    ensures Members([x], key, k) == if key(x) == k then [x] else []
  {
    assert [x][..0] == [];
  }

  /** Every member has the key asked for, and comes from the input. */
  lemma {:induction false} MembersSub<T, K>(s: seq<T>, key: T -> K, k: K)
    ensures multiset(Members(s, key, k)) <= multiset(s)
    ensures forall x :: x in Members(s, key, k) ==> key(x) == k && x in s
    decreases |s|
  {
    if |s| > 0 {
      var p := s[..|s| - 1];
      MembersSub(p, key, k);
      assert s == p + [s[|s| - 1]];
    }
  }

  /** Grouping a sequence whose elements all have key `kk`. */
  lemma {:induction false} MembersUniform<T, K>(s: seq<T>, key: T -> K, kk: K, k: K)
    requires forall x :: x in s ==> key(x) == kk
    ensures Members(s, key, k) == if k == kk then s else []
    decreases |s|
  {
    if |s| > 0 {
      var p := s[..|s| - 1];
      assert forall x :: x in p ==> x in s;
      MembersUniform(p, key, kk, k);
      assert s == p + [s[|s| - 1]];
    }
  }

  /** No element has key `k`: no members. */
  lemma {:induction false} MembersNone<T, K>(s: seq<T>, key: T -> K, k: K)
    requires forall x :: x in s ==> key(x) != k
    ensures Members(s, key, k) == []
    decreases |s|
  {
    if |s| > 0 {
      assert forall x :: x in s[..|s| - 1] ==> x in s;
      MembersNone(s[..|s| - 1], key, k);
    }
  }

  /** The key order is duplicate-free and lists exactly the keys that occur. */
  lemma {:induction false} DistinctKeysSpec<T, K>(s: seq<T>, key: T -> K)
    ensures Distinct(DistinctKeys(s, key))
    ensures forall k :: k in DistinctKeys(s, key) <==> Members(s, key, k) != []
    decreases |s|
  {
    if |s| > 0 {
      var p := s[..|s| - 1];
      DistinctKeysSpec(p, key);
    }
  }

  lemma GroupOfValid<T, K(!new)>(s: seq<T>, key: T -> K)
    ensures GroupOf(s, key).Valid()
  {
    DistinctKeysSpec(s, key);
  }

  /** The members of each key of `ks` in turn, without building a dict. */
  function Concat<T, K(==)>(s: seq<T>, key: T -> K, ks: seq<K>): seq<T>
    decreases |ks|
  {
    if |ks| == 0 then []
    else Concat(s, key, ks[..|ks| - 1]) + Members(s, key, ks[|ks| - 1])
  }

  lemma {:induction false} ConcatSnoc<T, K>(p: seq<T>, x: T, key: T -> K, ks: seq<K>)
    requires Distinct(ks)
    ensures multiset(Concat(p + [x], key, ks))
         == multiset(Concat(p, key, ks)) + (if key(x) in ks then multiset{x} else multiset{})
    decreases |ks|
  {
    if |ks| > 0 {
      var q := ks[..|ks| - 1];
      var last := ks[|ks| - 1];
      ConcatSnoc(p, x, key, q);
      MembersAppend(p, [x], key, last);
      MembersSingle(x, key, last);
      assert (key(x) in ks) == (key(x) in q || key(x) == last);
    }
  }

  /** Taking the members of every distinct key in turn uses each element exactly once. */
  lemma {:induction false} ConcatPartition<T, K>(s: seq<T>, key: T -> K)
    ensures multiset(Concat(s, key, DistinctKeys(s, key))) == multiset(s)
    decreases |s|
  {
    if |s| > 0 {
      var p := s[..|s| - 1];
      var x := s[|s| - 1];
      assert s == p + [x];
      ConcatPartition(p, key);
      var d := DistinctKeys(p, key);
      DistinctKeysSpec(p, key);
      ConcatSnoc(p, x, key, d);
      if key(x) in d {
        assert DistinctKeys(s, key) == d;
      } else {
        var e := d + [key(x)];
        assert DistinctKeys(s, key) == e;
        assert e[..|e| - 1] == d;
        assert Concat(s, key, e) == Concat(s, key, d) + Members(s, key, key(x));
        MembersAppend(p, [x], key, key(x));
        MembersSingle(x, key, key(x));
        assert Members(p, key, key(x)) == [];
        assert Members(s, key, key(x)) == [x];
      }
    }
  }

  lemma {:induction false} FlattenMembers<T, K>(s: seq<T>, key: T -> K, ks: seq<K>, g: map<K, seq<T>>)
    requires forall k :: k in ks ==> k in g && g[k] == Members(s, key, k)
    ensures Flatten(ks, g) == Concat(s, key, ks)
    decreases |ks|
  {
    if |ks| > 0 {
      FlattenMembers(s, key, ks[..|ks| - 1], g);
    }
  }

  /** The groups of a dict built by grouping partition the input. */
  lemma GroupOfPartition<T, K(!new)>(s: seq<T>, key: T -> K)
    ensures multiset(Flatten(GroupOf(s, key).order, GroupOf(s, key).groups)) == multiset(s)
  {
    var g := GroupOf(s, key);
    FlattenMembers(s, key, g.order, g.groups);
    ConcatPartition(s, key);
  }

  /** The step of the grouping loop: add `x` to its group, opening the group if new. */
  function AddToGroup<K(==,!new), T>(g: Grouped<K, T>, k: K, x: T): Grouped<K, T> {
    if k in g.groups then Grouped(g.order, g.groups[k := g.groups[k] + [x]])
    else Grouped(g.order + [k], g.groups[k := [x]])
  }

  lemma GroupOfSnoc<T, K(!new)>(s: seq<T>, key: T -> K, i: nat)
    requires i < |s|
    requires forall k :: k in GroupOf(s[..i], key).groups <==> k in DistinctKeys(s[..i], key)
    ensures GroupOf(s[..i + 1], key) == AddToGroup(GroupOf(s[..i], key), key(s[i]), s[i])
  {
    var p := s[..i];
    var q := s[..i + 1];
    assert q[..|q| - 1] == p;
    var a := GroupOf(q, key);
    var b := AddToGroup(GroupOf(p, key), key(s[i]), s[i]);
    assert a.order == b.order;
    forall k | k in a.groups
      ensures k in b.groups && a.groups[k] == b.groups[k]
    {
      assert q == p + [s[i]];
      MembersAppend(p, [s[i]], key, k);
      MembersSingle(s[i], key, k);
      assert a.groups[k] == Members(p, key, k) + (if key(s[i]) == k then [s[i]] else []);
      if k == key(s[i]) {
        if k in DistinctKeys(p, key) {
          assert b.groups[k] == Members(p, key, k) + [s[i]];
        } else {
          DistinctKeysSpec(p, key);
          assert b.groups[k] == [s[i]];
        }
      } else {
        assert k in DistinctKeys(p, key);
        assert b.groups[k] == Members(p, key, k);
      }
    }
    assert a.groups == b.groups;
  }

  /** Python's group-building loop over `s`. */
  method GroupBy<T, K(==,!new)>(s: seq<T>, key: T -> K) returns (g: Grouped<K, T>)
    ensures g == GroupOf(s, key)
    ensures g.Valid()
  {
    g := Grouped([], map[]);
    var i := 0;
    while i < |s|
      invariant 0 <= i <= |s|
      invariant g == GroupOf(s[..i], key)
    {
      var k := key(s[i]);
      assert forall k :: k in GroupOf(s[..i], key).groups <==> k in DistinctKeys(s[..i], key);
      GroupOfSnoc(s, key, i);
      if k in g.groups {
        g := Grouped(g.order, g.groups[k := g.groups[k] + [s[i]]]);
      } else {
        g := Grouped(g.order + [k], g.groups[k := [s[i]]]);
      }
      i := i + 1;
    }
    assert s[..i] == s;
    GroupOfValid(s, key);
  }

  /** A list comprehension `[x for x in s if f(x)]`. */
  function Filter<T>(s: seq<T>, f: T -> bool): seq<T>
    decreases |s|
  {
    if |s| == 0 then []
    else Filter(s[..|s| - 1], f) + (if f(s[|s| - 1]) then [s[|s| - 1]] else [])
  }

  /** The filter keeps exactly the elements that pass, and nothing else. */
  lemma {:induction false} FilterSpec<T>(s: seq<T>, f: T -> bool)
    ensures multiset(Filter(s, f)) <= multiset(s)
    ensures |Filter(s, f)| <= |s|
    ensures forall x :: x in Filter(s, f) ==> f(x) && x in s
    ensures forall x :: x in s && f(x) ==> x in Filter(s, f)
    decreases |s|
  {
    if |s| > 0 {
      var p := s[..|s| - 1];
      FilterSpec(p, f);
      assert s == p + [s[|s| - 1]];
    }
  }

  /** Filtering by a stronger test is filtering the result of a weaker one. */
  lemma {:induction false} FilterStronger<T>(s: seq<T>, f: T -> bool, g: T -> bool)
    requires forall x :: f(x) ==> g(x)
    ensures Filter(Filter(s, g), f) == Filter(s, f)
    decreases |s|
  {
    if |s| > 0 {
      var p := s[..|s| - 1];
      var x := s[|s| - 1];
      FilterStronger(p, f, g);
      FilterAppendOne(Filter(p, g), x, f);
      if g(x) {
        assert Filter(s, g) == Filter(p, g) + [x];
        calc {
          Filter(Filter(s, g), f);
          Filter(Filter(p, g) + [x], f);
          Filter(Filter(p, g), f) + (if f(x) then [x] else []);
          Filter(p, f) + (if f(x) then [x] else []);
          Filter(s, f);
        }
      } else {
        assert !f(x);
        assert Filter(s, g) == Filter(p, g);
        assert Filter(s, f) == Filter(p, f);
      }
    }
  }

  /** `[f(x) for x in s]`. */
  function MapSeq<A, B>(s: seq<A>, f: A -> B): (r: seq<B>)
    ensures |r| == |s|
    ensures forall i :: 0 <= i < |s| ==> r[i] == f(s[i])
  {
    seq(|s|, i requires 0 <= i < |s| => f(s[i]))
  }

  lemma MapSnoc<A, B>(s: seq<A>, i: nat, f: A -> B)
    requires i < |s|
    ensures MapSeq(s[..i + 1], f) == MapSeq(s[..i], f) + [f(s[i])]
  {
  }

  /** Three filters of which every element passes exactly one split the sequence into a permutation of it. */
  lemma {:induction false} FilterPartition3<T>(s: seq<T>, f: T -> bool, g: T -> bool, h: T -> bool)
    requires forall x :: x in s ==> (f(x) && !g(x) && !h(x)) || (!f(x) && g(x) && !h(x)) || (!f(x) && !g(x) && h(x))
    ensures multiset(Filter(s, f) + Filter(s, g) + Filter(s, h)) == multiset(s)
    decreases |s|
  {
    if |s| > 0 {
      var p := s[..|s| - 1];
      var x := s[|s| - 1];
      assert s == p + [x];
      FilterPartition3(p, f, g, h);
    }
  }

  lemma FilterAppendOne<T>(s: seq<T>, x: T, f: T -> bool)
    ensures Filter(s + [x], f) == Filter(s, f) + (if f(x) then [x] else [])
  {
    assert (s + [x])[..|s|] == s;
  }

  /** Filtering distributes over concatenation. */
  lemma {:induction false} FilterConcat<T>(a: seq<T>, b: seq<T>, f: T -> bool)
    ensures Filter(a + b, f) == Filter(a, f) + Filter(b, f)
    decreases |b|
  {
    if |b| > 0 {
      var q := b[..|b| - 1];
      var x := b[|b| - 1];
      assert b == q + [x];
      assert a + b == (a + q) + [x];
      FilterConcat(a, q, f);
      FilterAppendOne(a + q, x, f);
      FilterAppendOne(q, x, f);
    } else {
      assert a + b == a;
    }
  }

  /** Permuting every group permutes the concatenation. */
  lemma {:induction false} FlattenPerm<K, T>(order: seq<K>, g1: map<K, seq<T>>, g2: map<K, seq<T>>)
    requires forall k :: k in order ==> k in g1 && k in g2 && multiset(g1[k]) == multiset(g2[k])
    ensures multiset(Flatten(order, g1)) == multiset(Flatten(order, g2))
    decreases |order|
  {
    if |order| > 0 {
      FlattenPerm(order[..|order| - 1], g1, g2);
    }
  }

  /** Grouping one more element is one more step of the loop. */
  lemma GroupOfAppend<T, K(!new)>(a: seq<T>, x: T, key: T -> K)
    ensures GroupOf(a + [x], key) == AddToGroup(GroupOf(a, key), key(x), x)
  {
    var s := a + [x];
    assert s[..|a|] == a && s[..|a| + 1] == s;
    GroupOfSnoc(s, key, |a|);
  }

  /** Appending the next element of `more` to what is already grouped. */
  lemma GroupOfExtendAt<T, K(!new)>(a: seq<T>, more: seq<T>, i: nat, key: T -> K)
    requires i < |more|
    ensures GroupOf(a + more[..i + 1], key) == AddToGroup(GroupOf(a + more[..i], key), key(more[i]), more[i])
  {
    assert a + more[..i + 1] == (a + more[..i]) + [more[i]];
    GroupOfAppend(a + more[..i], more[i], key);
  }

  /** An element is among the members of its own key. */
  lemma {:induction false} MembersIncludes<T, K>(s: seq<T>, key: T -> K, x: T)
    requires x in s
    ensures x in Members(s, key, key(x))
    decreases |s|
  {
    var p := s[..|s| - 1];
    assert s == p + [s[|s| - 1]];
    if x != s[|s| - 1] {
      MembersIncludes(p, key, x);
    }
  }
}
