/**
 * Sequence operations that stand for Python builtins used by the core:
 * `list.index`, `list.remove`, `max(d, key=d.get)`, `sorted(..., reverse=True)`
 * and an ascending sort used for quantiles.
 */
module Seqs {

  /** Python's `xs.index(x)`: the first position holding `x`. */
  function IndexOf<T(==)>(s: seq<T>, x: T): (i: nat)
    requires x in s
    ensures i < |s| && s[i] == x && x !in s[..i]
  {
    if s[0] == x then 0 else 1 + IndexOf(s[1..], x)
  }

  /** In a sequence without repeats, the first position of `s[k]` is `k`. */
  lemma IndexOfDistinct<T>(s: seq<T>, k: nat)
    requires k < |s| && forall i, j :: 0 <= i < j < |s| ==> s[i] != s[j]
    ensures IndexOf(s, s[k]) == k
  {
  }

  /** Python's `xs.remove(x)`: deletes the first occurrence of `x` and keeps the rest in order. */
  function RemoveFirst<T(==)>(s: seq<T>, x: T): (r: seq<T>)
    requires x in s
    ensures |r| == |s| - 1
    ensures multiset(r) == multiset(s) - multiset{x}
    ensures r[..IndexOf(s, x)] == s[..IndexOf(s, x)] && x !in r[..IndexOf(s, x)]
    ensures r[IndexOf(s, x)..] == s[IndexOf(s, x) + 1..]
  {
    var i := IndexOf(s, x);
    assert s == s[..i] + [s[i]] + s[i + 1..];
    s[..i] + s[i + 1..]
  }

  /** No key occurs twice (true of the items of a Python dict). */
  ghost predicate DistinctKeys<K>(s: seq<(K, real)>) {
    forall i, j :: 0 <= i < j < |s| ==> s[i].0 != s[j].0
  }

  /**
   * Python's `max(d, key=d.get)` over the items of a dict in insertion order:
   * the scan replaces its candidate only on a strictly greater score, so the
   * result is the first position holding the maximum.
   */
  function FirstMaxIndex<K>(s: seq<(K, real)>): (k: nat)
    requires |s| > 0
    ensures k < |s|
    ensures forall j :: 0 <= j < |s| ==> s[j].1 <= s[k].1
    ensures forall j :: 0 <= j < k ==> s[j].1 < s[k].1
  {
    if |s| == 1 then 0
    else
      var k := FirstMaxIndex(s[..|s| - 1]);
      if s[|s| - 1].1 > s[k].1 then |s| - 1 else k
  }

  /** Scores never increase along the sequence. */
  ghost predicate Descending<K>(s: seq<(K, real)>) {
    forall i, j :: 0 <= i < j < |s| ==> s[i].1 >= s[j].1
  }

  /** Inserts `x` after every entry scoring at least as much as `x`. */
  function InsertDesc<K>(t: seq<(K, real)>, x: (K, real)): (r: seq<(K, real)>)
    ensures multiset(r) == multiset(t) + multiset{x}
    ensures |r| == |t| + 1
  {
    if t == [] then [x]
    else if t[0].1 >= x.1 then
      assert t == [t[0]] + t[1..];
      [t[0]] + InsertDesc(t[1..], x)
    else [x] + t
  }

  /**
   * Python's `sorted(items, key=score, reverse=True)`: a stable sort by
   * descending score (entries with equal scores keep their input order).
   */
  function SortDesc<K>(s: seq<(K, real)>): (r: seq<(K, real)>)
    ensures multiset(r) == multiset(s)
    ensures |r| == |s|
  {
    if s == [] then []
    else
      var r := InsertDesc(SortDesc(s[..|s| - 1]), s[|s| - 1]);
      assert s == s[..|s| - 1] + [s[|s| - 1]];
      r
  }

  /** The entries whose score is exactly `v`, in their order of appearance. */
  function Tied<K>(s: seq<(K, real)>, v: real): seq<(K, real)> {
    if s == [] then [] else (if s[0].1 == v then [s[0]] else []) + Tied(s[1..], v)
  }

  lemma {:induction false} TiedAppend<K>(a: seq<(K, real)>, b: seq<(K, real)>, v: real)
    ensures Tied(a + b, v) == Tied(a, v) + Tied(b, v)
  {
    if a != [] {
      assert (a + b)[1..] == a[1..] + b;
      TiedAppend(a[1..], b, v);
    } else {
      assert a + b == b;
    }
  }

  lemma {:induction false} TiedBelow<K>(t: seq<(K, real)>, v: real)
    requires forall i :: 0 <= i < |t| ==> t[i].1 < v
    ensures Tied(t, v) == []
  {
    if t != [] {
      TiedBelow(t[1..], v);
    }
  }

  /** In a descending sequence the head scores at least as much as every later entry. */
  lemma HeadIsMax<K>(t: seq<(K, real)>, y: (K, real))
    requires Descending(t) && t != [] && y in t[1..]
    ensures y.1 <= t[0].1
  {
    var m :| 0 <= m < |t[1..]| && t[1..][m] == y;
    assert t[m + 1] == y;
  }

  /** An entry scoring at least every entry of a descending sequence may go in front of it. */
  lemma DescendingCons<K>(h: (K, real), u: seq<(K, real)>)
    requires Descending(u) && forall j :: 0 <= j < |u| ==> u[j].1 <= h.1
    ensures Descending([h] + u)
  {
    var r := [h] + u;
    forall i, j | 0 <= i < j < |r| ensures r[i].1 >= r[j].1 {
      assert r[j] == u[j - 1];
      if i > 0 {
        assert r[i] == u[i - 1];
      }
    }
  }

  /** Inserting keeps every score below a common bound. */
  lemma InsertDescBounded<K>(t: seq<(K, real)>, x: (K, real), b: real)
    requires x.1 <= b && forall j :: 0 <= j < |t| ==> t[j].1 <= b
    ensures forall j :: 0 <= j < |InsertDesc(t, x)| ==> InsertDesc(t, x)[j].1 <= b
  {
    var r := InsertDesc(t, x);
    forall j | 0 <= j < |r| ensures r[j].1 <= b {
      assert r[j] in multiset(r);
      if r[j] != x {
        assert r[j] in multiset(t);
        var m :| 0 <= m < |t| && t[m] == r[j];
      }
    }
  }

  lemma {:induction false} InsertDescDescending<K>(t: seq<(K, real)>, x: (K, real))
    requires Descending(t)
    ensures Descending(InsertDesc(t, x))
  {
    if t != [] && t[0].1 >= x.1 {
      DescendingTail(t);
      InsertDescDescending(t[1..], x);
      assert forall j :: 0 <= j < |t[1..]| ==> t[1..][j].1 <= t[0].1 by {
        forall j | 0 <= j < |t[1..]| ensures t[1..][j].1 <= t[0].1 {
          assert t[1..][j] == t[j + 1];
        }
      }
      InsertDescBounded(t[1..], x, t[0].1);
      DescendingCons(t[0], InsertDesc(t[1..], x));
    } else if t != [] {
      assert forall j :: 0 <= j < |t| ==> t[j].1 <= x.1 by {
        forall j | 0 <= j < |t| ensures t[j].1 <= x.1 {
          assert j == 0 || t[0].1 >= t[j].1;
        }
      }
      DescendingCons(x, t);
    }
  }

  lemma DescendingTail<K>(t: seq<(K, real)>)
    requires Descending(t) && t != []
    ensures Descending(t[1..])
  {
    var s := t[1..];
    forall i, j | 0 <= i < j < |s| ensures s[i].1 >= s[j].1 {
      assert s[i] == t[i + 1] && s[j] == t[j + 1];
    }
  }

  /** Concatenation is associative (stated once, so proofs can apply it to large terms). */
  lemma ConcatAssoc<T>(a: seq<T>, b: seq<T>, c: seq<T>)
    ensures a + (b + c) == (a + b) + c
  {
  }

  /** A one-entry list keeps its entry exactly when the entry has score `v`. */
  lemma TiedSingle<K>(x: (K, real), v: real)
    ensures Tied([x], v) == if x.1 == v then [x] else []
  {
    assert [x][1..] == [];
  }

  lemma {:induction false} InsertDescTied<K>(t: seq<(K, real)>, x: (K, real), v: real)
    requires Descending(t)
    ensures Tied(InsertDesc(t, x), v) == Tied(t, v) + (if x.1 == v then [x] else [])
    decreases |t|, 1
  {
    TiedSingle(x, v);
    if t == [] {
      assert InsertDesc(t, x) == [x];
    } else if t[0].1 >= x.1 {
      InsertDescTiedKeep(t, x, v);
    } else {
      InsertDescTiedFront(t, x, v);
    }
  }

  lemma {:induction false} InsertDescTiedKeep<K>(t: seq<(K, real)>, x: (K, real), v: real)
    requires Descending(t) && t != [] && t[0].1 >= x.1
    ensures Tied(InsertDesc(t, x), v) == Tied(t, v) + (if x.1 == v then [x] else [])
    decreases |t|, 0
  {
    var tail := if x.1 == v then [x] else [];
    var u := InsertDesc(t[1..], x);
    var w := Tied([t[0]], v);
    DescendingTail(t);
    InsertDescTied(t[1..], x, v);
    assert Tied(u, v) == Tied(t[1..], v) + tail;
    assert InsertDesc(t, x) == [t[0]] + u;
    TiedAppend([t[0]], u, v);
    assert Tied([t[0]] + u, v) == w + Tied(u, v);
    TiedSingle(t[0], v);
    assert Tied(t, v) == w + Tied(t[1..], v);
    ConcatAssoc(w, Tied(t[1..], v), tail);
  }

  lemma InsertDescTiedFront<K>(t: seq<(K, real)>, x: (K, real), v: real)
    requires Descending(t) && t != [] && t[0].1 < x.1
    ensures Tied(InsertDesc(t, x), v) == Tied(t, v) + (if x.1 == v then [x] else [])
  {
    assert InsertDesc(t, x) == [x] + t;
    forall i | 0 <= i < |t| ensures t[i].1 < x.1 {
      assert t[0].1 >= t[i].1 || i == 0;
    }
    TiedBelow(t, x.1);
    TiedAppend([x], t, v);
    TiedSingle(x, v);
  }

  /** The sort's output has non-increasing scores and is stable: each score's entries keep their order. */
  lemma {:induction false} SortDescSpec<K>(s: seq<(K, real)>)
    ensures Descending(SortDesc(s))
    ensures forall v :: Tied(SortDesc(s), v) == Tied(s, v)
  {
    if s != [] {
      var init, last := s[..|s| - 1], s[|s| - 1];
      SortDescSpec(init);
      assert SortDesc(s) == InsertDesc(SortDesc(init), last);
      InsertDescDescending(SortDesc(init), last);
      forall v ensures Tied(SortDesc(s), v) == Tied(s, v) {
        SortDescTiedStep(s, v);
      }
    }
  }

  /** One insertion step of the sort keeps the entries of score `v` in input order. */
  lemma SortDescTiedStep<K>(s: seq<(K, real)>, v: real)
    requires s != []
    requires Descending(SortDesc(s[..|s| - 1])) && Tied(SortDesc(s[..|s| - 1]), v) == Tied(s[..|s| - 1], v)
    ensures Tied(SortDesc(s), v) == Tied(s, v)
  {
    var init, last := s[..|s| - 1], s[|s| - 1];
    assert SortDesc(s) == InsertDesc(SortDesc(init), last);
    InsertDescTied(SortDesc(init), last, v);
    assert s == init + [last];
    TiedAppend(init, [last], v);
    TiedSingle(last, v);
  }

  /** Two positions holding the same value make it occur at least twice in the multiset. */
  lemma MultisetTwoIndices<T>(s: seq<T>, i: nat, j: nat)
    requires i < j < |s| && s[i] == s[j]
    ensures multiset(s)[s[i]] >= 2
  {
    assert s == s[..i] + [s[i]] + s[i + 1..j] + [s[j]] + s[j + 1..];
  }

  /** A value occurring at least twice in the multiset sits at two positions. */
  lemma TwoIndicesOfMultiset<T>(s: seq<T>, x: T) returns (i: nat, j: nat)
    requires multiset(s)[x] >= 2
    ensures i < j < |s| && s[i] == x && s[j] == x
  {
    assert x in multiset(s);
    i := IndexOf(s, x);
    var pre, post := s[..i], s[i + 1..];
    assert s == pre + [x] + post;
    assert multiset(pre)[x] == 0;
    assert multiset(post)[x] >= 1;
    assert x in post;
    var b :| 0 <= b < |post| && post[b] == x;
    j := i + 1 + b;
  }

  /** If a permutation of `a` repeats a key, then `a` repeats it too. */
  lemma RepeatedKeyInPermutation<K>(a: seq<(K, real)>, b: seq<(K, real)>, i: nat, j: nat)
    requires multiset(a) == multiset(b) && i < j < |b|
    ensures b[i].0 == b[j].0 ==> exists p, q :: 0 <= p < q < |a| && a[p].0 == a[q].0
  {
    if b[i].0 == b[j].0 {
      if b[i] == b[j] {
        MultisetTwoIndices(b, i, j);
        var p, q := TwoIndicesOfMultiset(a, b[i]);
        assert a[p].0 == a[q].0;
      } else {
        assert b[i] in multiset(a) && b[j] in multiset(a);
        var p :| 0 <= p < |a| && a[p] == b[i];
        var q :| 0 <= q < |a| && a[q] == b[j];
        if p < q {
          assert a[p].0 == a[q].0;
        } else {
          assert a[q].0 == a[p].0;
        }
      }
    }
  }

  /** Reordering keeps keys distinct. */
  lemma PermutationDistinctKeys<K>(a: seq<(K, real)>, b: seq<(K, real)>)
    requires multiset(a) == multiset(b) && DistinctKeys(a)
    ensures DistinctKeys(b)
  {
    forall i, j | 0 <= i < j < |b| ensures b[i].0 != b[j].0 {
      RepeatedKeyInPermutation(a, b, i, j);
    }
  }

  /** Ascending order of reals. */
  ghost predicate Sorted(s: seq<real>) {
    forall i, j :: 0 <= i < j < |s| ==> s[i] <= s[j]
  }

  function InsertAsc(t: seq<real>, x: real): (r: seq<real>)
    requires Sorted(t)
    ensures Sorted(r) && multiset(r) == multiset(t) + multiset{x}
  {
    if t == [] then [x]
    else if t[0] <= x then
      var u := InsertAsc(t[1..], x);
      assert t == [t[0]] + t[1..];
      InsertAscHead(t, x, u);
      [t[0]] + u
    else [x] + t
  }

  lemma InsertAscHead(t: seq<real>, x: real, u: seq<real>)
    requires Sorted(t) && t != [] && t[0] <= x
    requires Sorted(u) && multiset(u) == multiset(t[1..]) + multiset{x}
    ensures Sorted([t[0]] + u)
  {
    var r := [t[0]] + u;
    forall j | 0 <= j < |u| ensures t[0] <= u[j] {
      var y := u[j];
      assert y in multiset(u);
      if y != x {
        assert y in multiset(t[1..]);
        var m :| 0 <= m < |t[1..]| && t[1..][m] == y;
        assert t[m + 1] == y;
      }
    }
    forall i, j | 0 <= i < j < |r| ensures r[i] <= r[j] {
      assert r[j] == u[j - 1];
      if i > 0 {
        assert r[i] == u[i - 1];
      }
    }
  }

  /** An ascending sort of reals (the order in which pandas reads off quantiles). */
  function SortAscending(s: seq<real>): (r: seq<real>)
    ensures Sorted(r) && multiset(r) == multiset(s) && |r| == |s|
  {
    if s == [] then []
    else
      var init := s[..|s| - 1];
      assert s == init + [s[|s| - 1]];
      var r := InsertAsc(SortAscending(init), s[|s| - 1]);
      assert |r| == |s| by {
        assert |multiset(r)| == |multiset(s)|;
      }
      r
  }
}
