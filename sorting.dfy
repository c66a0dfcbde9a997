/**
 * Python's stable `sorted(s, key=...)` for the tuple keys the pipeline uses:
 * a key is a tuple of integers and strings compared lexicographically, and
 * strings compare by code point.
 */
module Sorting {
  import opened Grouping

  datatype KeyPart = KInt(i: int) | KStr(s: string)

  /** A sort key: a Python tuple of ints and strs. */
  type Key = seq<KeyPart>

  /** Python's `a < b` on str. */
  predicate StrLt(a: string, b: string)
    decreases |a|
  {
    |b| > 0 && (|a| == 0 || a[0] < b[0] || (a[0] == b[0] && StrLt(a[1..], b[1..])))
  }

  /**
   * Order on tuple components. Keys at one position always hold the same
   * kind of value in this program; ints are put first only to make the order total.
   */
  predicate PartLt(x: KeyPart, y: KeyPart) {
    match (x, y)
    case (KInt(a), KInt(b)) => a < b
    case (KStr(a), KStr(b)) => StrLt(a, b)
    case (KInt(_), KStr(_)) => true
    case (KStr(_), KInt(_)) => false
  }

  /** Python's `a < b` on tuples. */
  predicate KeyLt(a: Key, b: Key)
    decreases |a|
  {
    |b| > 0 && (|a| == 0 || PartLt(a[0], b[0]) || (a[0] == b[0] && KeyLt(a[1..], b[1..])))
  }

  predicate KeyLe(a: Key, b: Key) {
    a == b || KeyLt(a, b)
  }

  lemma {:induction false} StrLtIrreflexive(a: string)
    ensures !StrLt(a, a)
    decreases |a|
  {
    if |a| > 0 {
      StrLtIrreflexive(a[1..]);
    }
  }

  lemma {:induction false} StrLtTransitive(a: string, b: string, c: string)
    requires StrLt(a, b) && StrLt(b, c)
    ensures StrLt(a, c)
    decreases |a|
  {
    if |a| > 0 && a[0] == b[0] && b[0] == c[0] {
      StrLtTransitive(a[1..], b[1..], c[1..]);
    }
  }

  lemma {:induction false} StrLtTotal(a: string, b: string)
    requires a != b
    ensures StrLt(a, b) || StrLt(b, a)
    decreases |a|
  {
    if |a| > 0 && |b| > 0 && a[0] == b[0] {
      assert a == [a[0]] + a[1..] && b == [b[0]] + b[1..];
      StrLtTotal(a[1..], b[1..]);
    }
  }

  lemma PartLtIrreflexive(x: KeyPart)
    ensures !PartLt(x, x)
  {
    if x.KStr? {
      StrLtIrreflexive(x.s);
    }
  }

  lemma PartLtTransitive(x: KeyPart, y: KeyPart, z: KeyPart)
    requires PartLt(x, y) && PartLt(y, z)
    ensures PartLt(x, z)
  {
    if x.KStr? && y.KStr? && z.KStr? {
      StrLtTransitive(x.s, y.s, z.s);
    }
  }

  lemma PartLtTotal(x: KeyPart, y: KeyPart)
    requires x != y
    ensures PartLt(x, y) || PartLt(y, x)
  {
    if x.KStr? && y.KStr? {
      StrLtTotal(x.s, y.s);
    }
  }

  lemma {:induction false} KeyLtIrreflexive(a: Key)
    ensures !KeyLt(a, a)
    decreases |a|
  {
    if |a| > 0 {
      PartLtIrreflexive(a[0]);
      KeyLtIrreflexive(a[1..]);
    }
  }

  lemma {:induction false} KeyLtTransitive(a: Key, b: Key, c: Key)
    requires KeyLt(a, b) && KeyLt(b, c)
    ensures KeyLt(a, c)
    decreases |a|
  {
    if |a| > 0 {
      PartLtIrreflexive(a[0]);
      PartLtIrreflexive(b[0]);
      if a[0] == b[0] && b[0] == c[0] {
        KeyLtTransitive(a[1..], b[1..], c[1..]);
      } else if PartLt(a[0], b[0]) && PartLt(b[0], c[0]) {
        PartLtTransitive(a[0], b[0], c[0]);
      }
    }
  }

  lemma {:induction false} KeyLtTotal(a: Key, b: Key)
    requires a != b
    ensures KeyLt(a, b) || KeyLt(b, a)
    decreases |a|
  {
    if |a| > 0 && |b| > 0 {
      if a[0] == b[0] {
        assert a == [a[0]] + a[1..] && b == [b[0]] + b[1..];
        KeyLtTotal(a[1..], b[1..]);
      } else {
        PartLtTotal(a[0], b[0]);
      }
    }
  }

  /** `KeyLe` is a total preorder, so sorting by it is well defined. */
  lemma KeyLeTransitive(a: Key, b: Key, c: Key)
    requires KeyLe(a, b) && KeyLe(b, c)
    ensures KeyLe(a, c)
  {
    if a != b && b != c {
      KeyLtTransitive(a, b, c);
    }
  }

  lemma KeyLeTotal(a: Key, b: Key)
    ensures KeyLe(a, b) || KeyLe(b, a)
  {
    if a != b {
      KeyLtTotal(a, b);
    }
  }

  /** Strict order and its complement: `a < b` exactly when not `b <= a`. */
  lemma KeyLtNotLe(a: Key, b: Key)
    ensures KeyLt(a, b) <==> !KeyLe(b, a)
  {
    KeyLtIrreflexive(a);
    if KeyLt(a, b) && KeyLt(b, a) {
      KeyLtTransitive(a, b, a);
    }
    if a != b {
      KeyLtTotal(a, b);
    }
  }

  predicate SortedBy<T>(s: seq<T>, key: T -> Key) {
    forall i, j :: 0 <= i < j < |s| ==> KeyLe(key(s[i]), key(s[j]))
  }

  /** Insert `x` before the first element whose key is strictly greater. */
  function Insert<T>(x: T, s: seq<T>, key: T -> Key): seq<T>
    decreases |s|
  {
    if |s| == 0 then [x]
    else if KeyLt(key(x), key(s[0])) then [x] + s
    else [s[0]] + Insert(x, s[1..], key)
  }

  /** Stable insertion sort: elements are inserted one by one, each after its equals. */
  function SortBy<T>(s: seq<T>, key: T -> Key): seq<T>
    decreases |s|
  {
    if |s| == 0 then [] else Insert(s[|s| - 1], SortBy(s[..|s| - 1], key), key)
  }

  lemma {:induction false} InsertMultiset<T>(x: T, s: seq<T>, key: T -> Key)
    ensures multiset(Insert(x, s, key)) == multiset(s) + multiset{x}
    decreases |s|
  {
    if |s| > 0 && !KeyLt(key(x), key(s[0])) {
      InsertMultiset(x, s[1..], key);
      assert s == [s[0]] + s[1..];
    }
  }

  lemma {:induction false} InsertSorted<T>(x: T, s: seq<T>, key: T -> Key)
    requires SortedBy(s, key)
    ensures SortedBy(Insert(x, s, key), key)
    decreases |s|
  {
    if |s| > 0 {
      if KeyLt(key(x), key(s[0])) {
        var r := [x] + s;
        forall i, j | 0 <= i < j < |r|
          ensures KeyLe(key(r[i]), key(r[j]))
        {
          if i == 0 && j > 1 {
            KeyLeTransitive(key(x), key(s[0]), key(s[j - 1]));
          }
        }
      } else {
        KeyLtNotLe(key(x), key(s[0]));
        InsertSorted(x, s[1..], key);
        InsertMultiset(x, s[1..], key);
        var t := Insert(x, s[1..], key);
        var r := [s[0]] + t;
        forall j | 0 <= j < |t|
          ensures KeyLe(key(s[0]), key(t[j]))
        {
          assert t[j] in multiset(t);
          assert t[j] == x || t[j] in s[1..];
        }
      }
    }
  }

  /** In a sorted sequence whose head is above `x`'s key, nothing has `x`'s key. */
  lemma InsertFrontFree<T>(x: T, s: seq<T>, key: T -> Key)
    requires SortedBy(s, key) && |s| > 0 && KeyLt(key(x), key(s[0]))
    ensures Members(s, key, key(x)) == []
  {
    forall y | y in s
      ensures key(y) != key(x)
    {
      var j :| 0 <= j < |s| && s[j] == y;
      assert KeyLe(key(s[0]), key(y));
      KeyLtNotLe(key(x), key(s[0]));
    }
    MembersNone(s, key, key(x));
  }

  /**
   * Inserting `x` into a sorted sequence appends it to the elements with its
   * key: among equal keys it goes last. This is what makes the sort stable.
   */
  lemma {:induction false} InsertMembers<T>(x: T, s: seq<T>, key: T -> Key, k: Key)
    requires SortedBy(s, key)
    ensures Members(Insert(x, s, key), key, k) == Members(s + [x], key, k)
    decreases |s|
  {
    if |s| == 0 {
      assert s + [x] == [x];
    } else if KeyLt(key(x), key(s[0])) {
      InsertMembersFront(x, s, key, k);
    } else {
      var t := s[1..];
      assert s == [s[0]] + t;
      InsertMembers(x, t, key, k);
      MembersAppend([s[0]], Insert(x, t, key), key, k);
      MembersAppend([s[0]], t + [x], key, k);
      assert [s[0]] + (t + [x]) == s + [x];
    }
  }

  /** Placing `x` in front of a sorted sequence whose keys all exceed its key moves it past no element of its key. */
  lemma InsertMembersFront<T>(x: T, s: seq<T>, key: T -> Key, k: Key)
    requires SortedBy(s, key) && |s| > 0 && KeyLt(key(x), key(s[0]))
    ensures Members([x] + s, key, k) == Members(s + [x], key, k)
  {
    MembersAppend(s, [x], key, k);
    MembersSingle(x, key, k);
    MembersAppend([x], s, key, k);
    if key(x) == k {
      InsertFrontFree(x, s, key);
    }
  }

  /** SortBy returns a sorted permutation of its input that keeps equal keys in input order. */
  lemma {:induction false} SortBySpec<T>(s: seq<T>, key: T -> Key)
    ensures multiset(SortBy(s, key)) == multiset(s)
    ensures |SortBy(s, key)| == |s|
    ensures SortedBy(SortBy(s, key), key)
    ensures forall k :: Members(SortBy(s, key), key, k) == Members(s, key, k)
    decreases |s|
  {
    if |s| > 0 {
      var p := s[..|s| - 1];
      var x := s[|s| - 1];
      assert s == p + [x];
      SortBySpec(p, key);
      var t := SortBy(p, key);
      InsertMultiset(x, t, key);
      InsertSorted(x, t, key);
      forall k
        ensures Members(SortBy(s, key), key, k) == Members(s, key, k)
      {
        InsertMembers(x, t, key, k);
        MembersAppend(t, [x], key, k);
        MembersAppend(p, [x], key, k);
      }
    }
  }

  /** A sorted group holds only elements of the sequence that have its key. */
  lemma SortedMembers<T, K>(s: seq<T>, key: T -> K, k: K, sk: T -> Key)
    ensures forall x :: x in SortBy(Members(s, key, k), sk) ==> key(x) == k && x in s
  {
    var m := Members(s, key, k);
    SortBySpec(m, sk);
    MembersSub(s, key, k);
    forall x | x in SortBy(m, sk)
      ensures x in m
    {
      assert x in multiset(SortBy(m, sk));
    }
  }
}
