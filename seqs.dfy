/** Generic facts about sequences: order-preserving filters, index maps and counting over a range. */
module Seqs {

  /** The elements of `s` that satisfy `p`, in their original order (a list comprehension with an `if`). */
  function Filter<T>(s: seq<T>, p: T -> bool): (r: seq<T>)
    ensures |r| <= |s|
    ensures forall i :: 0 <= i < |r| ==> p(r[i])
  {
    if s == [] then [] else (if p(s[0]) then [s[0]] else []) + Filter(s[1..], p)
  }

  lemma {:induction false} FilterMembership<T>(s: seq<T>, p: T -> bool, x: T)
    ensures x in Filter(s, p) <==> x in s && p(x)
  {
    if s != [] {
      FilterMembership(s[1..], p, x);
      assert s == [s[0]] + s[1..];
    }
  }

  /** Filtering keeps the relative order: it distributes over concatenation. */
  lemma {:induction false} FilterConcat<T>(a: seq<T>, b: seq<T>, p: T -> bool)
    ensures Filter(a + b, p) == Filter(a, p) + Filter(b, p)
  {
    if a == [] {
      assert a + b == b;
    } else {
      assert (a + b)[1..] == a[1..] + b;
      FilterConcat(a[1..], b, p);
    }
  }

  /** No element occurs twice. */
  predicate Distinct<T(==)>(s: seq<T>) {
    forall i, j :: 0 <= i < j < |s| ==> s[i] != s[j]
  }

  /** The number of indices `i < hi` that occur in `s`. */
  function CountIn(s: seq<nat>, hi: nat): (c: nat)
    ensures c <= hi
  {
    if hi == 0 then 0 else CountIn(s, hi - 1) + (if hi - 1 in s then 1 else 0)
  }

  /** A duplicate-free sequence of indices below `hi` has exactly `CountIn` elements. */
  lemma {:induction false} DistinctIndicesCount(s: seq<nat>, hi: nat)
    requires Distinct(s)
    requires forall j :: 0 <= j < |s| ==> s[j] < hi
    ensures CountIn(s, hi) == |s|
    decreases hi
  {
    if hi > 0 {
      var m: nat := hi - 1;
      var rest := RemoveValue<nat>(s, m);
      forall j | 0 <= j < |rest| ensures rest[j] < m {
        RemoveValueMembership<nat>(s, m, rest[j]);
        var k :| 0 <= k < |s| && s[k] == rest[j];
      }
      if m in s {
        RemoveValueLength<nat>(s, m);
      } else {
        RemoveValueAbsent<nat>(s, m);
      }
      DistinctIndicesCount(rest, m);
      forall i: nat | i < m ensures i in s <==> i in rest {
        RemoveValueMembership<nat>(s, m, i);
      }
      CountInAgree(s, rest, m);
    }
  }

  /** Two index sequences that agree on membership below `hi` have the same count there. */
  lemma {:induction false} CountInAgree(s: seq<nat>, t: seq<nat>, hi: nat)
    requires forall i: nat :: i < hi ==> (i in s <==> i in t)
    ensures CountIn(s, hi) == CountIn(t, hi)
  {
    if hi > 0 {
      CountInAgree(s, t, hi - 1);
    }
  }

  /** `s` without any occurrence of `x`. */
  function RemoveValue<T(==)>(s: seq<T>, x: T): (r: seq<T>)
    ensures |r| <= |s|
  {
    if s == [] then [] else (if s[0] == x then [] else [s[0]]) + RemoveValue(s[1..], x)
  }

  lemma {:induction false} RemoveValueMembership<T>(s: seq<T>, x: T, y: T)
    ensures y in RemoveValue(s, x) <==> y in s && y != x
  {
    if s != [] {
      RemoveValueMembership(s[1..], x, y);
      assert s == [s[0]] + s[1..];
    }
  }

  lemma {:induction false} RemoveValueAbsent<T>(s: seq<T>, x: T)
    requires x !in s
    ensures RemoveValue(s, x) == s
  {
    if s != [] {
      assert s == [s[0]] + s[1..];
      RemoveValueAbsent(s[1..], x);
    }
  }

  lemma {:induction false} RemoveValueLength<T>(s: seq<T>, x: T)
    requires Distinct(s) && x in s
    ensures |RemoveValue(s, x)| == |s| - 1
    ensures Distinct(RemoveValue(s, x))
  {
    assert s == [s[0]] + s[1..];
    assert Distinct(s[1..]) by {
      forall i, j | 0 <= i < j < |s| - 1 ensures s[1..][i] != s[1..][j] {
        assert s[1..][i] == s[i + 1] && s[1..][j] == s[j + 1];
      }
    }
    if s[0] == x {
      assert x !in s[1..];
      RemoveValueAbsent(s[1..], x);
    } else {
      RemoveValueLength(s[1..], x);
      var r := RemoveValue(s[1..], x);
      forall y | y in r ensures y != s[0] {
        RemoveValueMembership(s[1..], x, y);
        var k :| 0 <= k < |s| - 1 && s[1..][k] == y;
        assert s[k + 1] == y;
      }
      var whole := RemoveValue(s, x);
      assert whole == [s[0]] + r;
      forall i, j | 0 <= i < j < |whole| ensures whole[i] != whole[j] {
        if i == 0 {
          assert whole[j] == r[j - 1];
          assert r[j - 1] in r;
        } else {
          assert whole[i] == r[i - 1] && whole[j] == r[j - 1];
        }
      }
    }
  }

  /** Counting below `hi` adds up over two disjoint index sequences that together make up a third. */
  lemma {:induction false} CountInPartition(s: seq<nat>, a: seq<nat>, b: seq<nat>, hi: nat)
    requires forall i: nat :: i < hi ==> (i in s <==> i in a || i in b) && !(i in a && i in b)
    ensures CountIn(s, hi) == CountIn(a, hi) + CountIn(b, hi)
  {
    if hi > 0 {
      CountInPartition(s, a, b, hi - 1);
    }
  }
}
