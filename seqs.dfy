/**
 * The array methods the player chains together, as functions on sequences: `filter`, `slice(0, n)`,
 * `slice(n)`, `find`/`findIndex`, and `sort` with a comparator. JavaScript's `Array.prototype.sort` is
 * stable, so every sort in the player is modelled as a stable insertion sort by a key.
 */
module Seqs {
  import opened Optional

  /** `s.filter(p)`. */
  function Filter<T(!new)>(s: seq<T>, p: T -> bool): (r: seq<T>)
    ensures |r| <= |s|
    ensures forall x :: x in r <==> x in s && p(x)
    ensures forall x {:trigger multiset(r)[x]} :: multiset(r)[x] == if p(x) then multiset(s)[x] else 0
  {
    if s == [] then []
    else
      assert s == [s[0]] + s[1..];
      (if p(s[0]) then [s[0]] else []) + Filter(s[1..], p)
  }

  lemma FilterAppend<T(!new)>(a: seq<T>, b: seq<T>, p: T -> bool)
    ensures Filter(a + b, p) == Filter(a, p) + Filter(b, p)
  {
    if a == [] {
      assert a + b == b;
    } else {
      assert (a + b)[1..] == a[1..] + b;
      FilterAppend(a[1..], b, p);
    }
  }

  /** Filtering three joined sequences filters each. */
  lemma FilterOfThree<T(!new)>(a: seq<T>, b: seq<T>, c: seq<T>, p: T -> bool)
    ensures Filter(a + b + c, p) == Filter(a, p) + Filter(b, p) + Filter(c, p)
  {
    FilterAppend(a + b, c, p);
    FilterAppend(a, b, p);
  }

  /** `a` occurs in `b` in order, possibly with gaps. */
  predicate IsSubseq<T(==)>(a: seq<T>, b: seq<T>)
    decreases |b|
  {
    if a == [] then true
    else if b == [] then false
    else if a[0] == b[0] then IsSubseq(a[1..], b[1..])
    else IsSubseq(a, b[1..])
  }

  /** A filter keeps the order of what it keeps. */
  lemma {:induction false} FilterIsSubseq<T(!new)>(s: seq<T>, p: T -> bool)
    ensures IsSubseq(Filter(s, p), s)
  {
    if s != [] {
      FilterIsSubseq(s[1..], p);
      var r := Filter(s, p);
      // what the filter keeps satisfies p, so when s[0] does not, r[0] is not s[0]
      assert !p(s[0]) ==> r == Filter(s[1..], p) && (r == [] || r[0] != s[0]);
    }
  }

  /** A prefix occurs in order in the whole. */
  lemma {:induction false} PrefixIsSubseq<T>(s: seq<T>, n: nat)
    requires n <= |s|
    ensures IsSubseq(s[..n], s)
  {
    if n > 0 {
      assert s[..n][1..] == s[1..][..n - 1];
      PrefixIsSubseq(s[1..], n - 1);
    }
  }

  /** One more element in front of the whole does not break an in-order occurrence. */
  lemma {:induction false} SubseqCons<T>(a: seq<T>, x: T, b: seq<T>)
    requires IsSubseq(a, b)
    ensures IsSubseq(a, [x] + b)
    decreases |a| + |b| + 1
  {
    assert ([x] + b)[1..] == b;
    if a != [] && a[0] == x {
      SubseqTail(a, b);
    }
  }

  /** Dropping the first element of the part keeps it in order in the whole. */
  lemma {:induction false} SubseqTail<T>(a: seq<T>, b: seq<T>)
    requires a != [] && IsSubseq(a, b)
    ensures IsSubseq(a[1..], b)
    decreases |a| + |b|
  {
    if a[0] == b[0] {
      SubseqCons(a[1..], b[0], b[1..]);
      assert [b[0]] + b[1..] == b;
    } else {
      SubseqTail(a, b[1..]);
      SubseqCons(a[1..], b[0], b[1..]);
      assert [b[0]] + b[1..] == b;
    }
  }

  /** Occurring in order is transitive. */
  lemma {:induction false} SubseqTrans<T>(a: seq<T>, b: seq<T>, c: seq<T>)
    requires IsSubseq(a, b) && IsSubseq(b, c)
    ensures IsSubseq(a, c)
    decreases |c|
  {
    if a != [] {
      if b[0] == c[0] {
        if a[0] == b[0] {
          SubseqTrans(a[1..], b[1..], c[1..]);
        } else {
          SubseqTrans(a, b[1..], c[1..]);
          SubseqCons(a, c[0], c[1..]);
          assert [c[0]] + c[1..] == c;
        }
      } else {
        SubseqTrans(a, b, c[1..]);
        SubseqCons(a, c[0], c[1..]);
        assert [c[0]] + c[1..] == c;
      }
    }
  }

  /** What occurs in order in `b` occurs in `b`. */
  lemma {:induction false} SubseqMembers<T>(a: seq<T>, b: seq<T>, x: T)
    requires IsSubseq(a, b) && x in a
    ensures x in b
    decreases |b|
  {
    if a[0] == b[0] {
      if x != a[0] {
        SubseqMembers(a[1..], b[1..], x);
      }
    } else {
      SubseqMembers(a, b[1..], x);
    }
  }

  /** No two elements of `s` share a key under `f`. */
  predicate UniqueBy<T, K(==)>(s: seq<T>, f: T -> K) {
    forall i, j :: 0 <= i < j < |s| ==> f(s[i]) != f(s[j])
  }

  /** Keys stay unique in whatever occurs in order in a sequence with unique keys. */
  lemma {:induction false} SubseqUniqueBy<T, K>(a: seq<T>, b: seq<T>, f: T -> K)
    requires IsSubseq(a, b) && UniqueBy(b, f)
    ensures UniqueBy(a, f)
    decreases |b|
  {
    if a != [] {
      if a[0] == b[0] {
        SubseqUniqueBy(a[1..], b[1..], f);
        forall j | 0 < j < |a| ensures f(a[0]) != f(a[j]) {
          assert a[j] in a[1..];
          SubseqMembers(a[1..], b[1..], a[j]);
          var k :| 0 <= k < |b[1..]| && b[1..][k] == a[j];
          assert b[k + 1] == a[j];
        }
      } else {
        SubseqUniqueBy(a, b[1..], f);
      }
    }
  }

  /** The negation of a predicate, for `filter(x => !p(x))`. */
  function Not<T>(p: T -> bool): T -> bool {
    x => !p(x)
  }

  /** Splitting by a predicate and concatenating the two halves is a permutation. */
  lemma PartitionPermutes<T(!new)>(s: seq<T>, p: T -> bool)
    ensures multiset(Filter(s, p) + Filter(s, Not(p))) == multiset(s)
  {
    var a, b := Filter(s, p), Filter(s, Not(p));
    assert forall x :: multiset(a + b)[x] == multiset(s)[x] by {
      forall x ensures multiset(a + b)[x] == multiset(s)[x] {
        assert multiset(a + b)[x] == multiset(a)[x] + multiset(b)[x];
      }
    }
  }

  /**
   * `[...s.filter(p), ...s.filter(x => !p(x))]` is a stable partition: a permutation of `s` with
   * every element satisfying `p` ahead of every other, each group in the order of `s`.
   */
  lemma PartitionIsStable<T(!new)>(s: seq<T>, p: T -> bool)
    ensures var r := Filter(s, p) + Filter(s, Not(p));
      && |r| == |s| && multiset(r) == multiset(s)
      && (forall i, j :: 0 <= i < j < |r| && p(r[j]) ==> p(r[i]))
      && Filter(r, p) == Filter(s, p)
      && Filter(r, Not(p)) == Filter(s, Not(p))
  {
    var a, b := Filter(s, p), Filter(s, Not(p));
    PartitionPermutes(s, p);
    assert |a + b| == |s| by {
      assert |multiset(a + b)| == |multiset(s)|;
    }
    FilterAllSatisfy(s, p);
    FilterAllSatisfy(s, Not(p));
    assert forall i :: 0 <= i < |b| ==> !p(b[i]);
    PartitionOrder(a, b, p);
    FilterAppend(a, b, p);
    FilterAppend(a, b, Not(p));
    FilterKeepsAll(a, p);
    FilterKeepsNone(b, p);
    FilterKeepsNone(a, Not(p));
    FilterKeepsAll(b, Not(p));
  }

  /** Everything a filter keeps satisfies its predicate. */
  lemma FilterAllSatisfy<T(!new)>(s: seq<T>, p: T -> bool)
    ensures forall i :: 0 <= i < |Filter(s, p)| ==> p(Filter(s, p)[i])
  {
    forall i | 0 <= i < |Filter(s, p)|
      ensures p(Filter(s, p)[i])
    {
      assert Filter(s, p)[i] in Filter(s, p);
    }
  }

  /** In `a + b` with `p` on all of `a` and on none of `b`, no element satisfying `p` follows one that does not. */
  lemma PartitionOrder<T>(a: seq<T>, b: seq<T>, p: T -> bool)
    requires forall i :: 0 <= i < |a| ==> p(a[i])
    requires forall i :: 0 <= i < |b| ==> !p(b[i])
    ensures forall i, j :: 0 <= i < j < |a + b| && p((a + b)[j]) ==> p((a + b)[i])
  {
    forall k | |a| <= k < |a + b|
      ensures !p((a + b)[k])
    {
      assert (a + b)[k] == b[k - |a|];
    }
    forall k | 0 <= k < |a|
      ensures p((a + b)[k])
    {
      assert (a + b)[k] == a[k];
    }
  }

  /** Filtering again by a predicate that everything kept satisfies changes nothing. */
  lemma {:induction false} FilterKeepsAll<T(!new)>(s: seq<T>, p: T -> bool)
    requires forall i :: 0 <= i < |s| ==> p(s[i])
    ensures Filter(s, p) == s
  {
    if s != [] {
      FilterKeepsAll(s[1..], p);
      assert s == [s[0]] + s[1..];
    }
  }

  /** Filtering by a predicate that nothing satisfies leaves nothing. */
  lemma {:induction false} FilterKeepsNone<T(!new)>(s: seq<T>, p: T -> bool)
    requires forall i :: 0 <= i < |s| ==> !p(s[i])
    ensures Filter(s, p) == []
  {
    if s != [] {
      FilterKeepsNone(s[1..], p);
    }
  }

  /** Two tests that agree on every element filter a sequence alike. */
  lemma {:induction false} FilterSame<T(!new)>(s: seq<T>, p: T -> bool, q: T -> bool)
    requires forall i :: 0 <= i < |s| ==> p(s[i]) == q(s[i])
    ensures Filter(s, p) == Filter(s, q)
  {
    if s != [] {
      FilterSame(s[1..], p, q);
    }
  }

  /** Filtering and then mapping is mapping and then filtering by the same test on the image. */
  lemma {:induction false} MapFilter<T(!new), U(!new)>(s: seq<T>, f: T -> U, p: T -> bool, q: U -> bool)
    requires forall x :: p(x) == q(f(x))
    ensures Map(Filter(s, p), f) == Filter(Map(s, f), q)
  {
    if s != [] {
      MapFilter(s[1..], f, p, q);
      var m := Map(s, f);
      var rest := Filter(s[1..], p);
      assert m[1..] == Map(s[1..], f);
      assert Filter(m, q) == (if q(m[0]) then [m[0]] else []) + Filter(m[1..], q);
      if p(s[0]) {
        assert Filter(s, p) == [s[0]] + rest;
        MapCons(s[0], rest, f);
      } else {
        assert Filter(s, p) == rest;
      }
    }
  }

  /** Mapping over an element put in front of a sequence. */
  lemma MapCons<T, U>(x: T, s: seq<T>, f: T -> U)
    ensures Map([x] + s, f) == [f(x)] + Map(s, f)
  {
  }

  /** Filtering a sequence extended by one element. */
  lemma FilterSnoc<T(!new)>(xs: seq<T>, x: T, p: T -> bool)
    ensures Filter(xs + [x], p) == Filter(xs, p) + (if p(x) then [x] else [])
  {
    FilterAppend(xs, [x], p);
    assert [x][1..] == [];
  }

  /** Sequences with the same multiset have the same elements. */
  lemma SameElements<T>(a: seq<T>, b: seq<T>)
    requires multiset(a) == multiset(b)
    ensures forall x :: x in a <==> x in b
  {
    forall x ensures x in a <==> x in b {
      assert x in a <==> x in multiset(a);
      assert x in b <==> x in multiset(b);
    }
  }

  /** `s.slice(0, n)`. */
  function Take<T>(s: seq<T>, n: nat): (r: seq<T>)
    ensures |r| <= n && |r| <= |s|
    ensures |r| == if n < |s| then n else |s|
    ensures r == s[..|r|]
  {
    if n < |s| then s[..n] else s
  }

  /** `s.slice(n)`. */
  function Drop<T>(s: seq<T>, n: nat): (r: seq<T>)
    ensures s == Take(s, n) + r
  {
    if n < |s| then s[n..] else []
  }

  /** `s.findIndex(p)`: the first index satisfying `p`, or -1. */
  function FindIndex<T>(s: seq<T>, p: T -> bool): (r: int)
    ensures -1 <= r < |s|
    ensures r >= 0 ==> p(s[r]) && forall j :: 0 <= j < r ==> !p(s[j])
    ensures r == -1 ==> forall j :: 0 <= j < |s| ==> !p(s[j])
  {
    if s == [] then -1
    else if p(s[0]) then 0
    else
      var k := FindIndex(s[1..], p);
      if k == -1 then -1 else k + 1
  }

  /** `s.find(p)`: the first element satisfying `p`, if any. */
  function Find<T>(s: seq<T>, p: T -> bool): (r: Option<T>)
    ensures r.None? <==> forall j :: 0 <= j < |s| ==> !p(s[j])
    ensures r.Some? ==> exists j :: 0 <= j < |s| && s[j] == r.value && p(s[j]) && forall k :: 0 <= k < j ==> !p(s[k])
  {
    var i := FindIndex(s, p);
    if i == -1 then None else Some(s[i])
  }

  /** `s.map(f)`. */
  function Map<T, U>(s: seq<T>, f: T -> U): (r: seq<U>)
    ensures |r| == |s| && forall i :: 0 <= i < |s| ==> r[i] == f(s[i])
  {
    seq(|s|, i requires 0 <= i < |s| => f(s[i]))
  }

  /** The elements of `s` without repeats, each at its first occurrence (the keys of a `Map` filled from `s`). */
  function Distinct<T(!new,==)>(s: seq<T>): (r: seq<T>)
    ensures forall x :: x in r <==> x in s
    ensures forall i, j :: 0 <= i < j < |r| ==> r[i] != r[j]
    ensures |r| <= |s|
  {
    if s == [] then []
    else
      var prev := Distinct(s[..|s| - 1]);
      assert s == s[..|s| - 1] + [s[|s| - 1]];
      if s[|s| - 1] in prev then prev else prev + [s[|s| - 1]]
  }

  /** The distinct images of a prefix grown by one element. */
  lemma DistinctMapStep<T, U(!new)>(s: seq<T>, f: T -> U, i: nat)
    requires i < |s|
    ensures Distinct(Map(s[..i + 1], f))
         == (var d := Distinct(Map(s[..i], f)); if f(s[i]) in d then d else d + [f(s[i])])
  {
    var m := Map(s[..i + 1], f);
    assert m[..|m| - 1] == Map(s[..i], f);
  }

  /** `x` is an image of `s` exactly when some element maps to it. */
  lemma InMap<T, U>(s: seq<T>, f: T -> U, x: U)
    ensures x in Map(s, f) <==> exists i :: 0 <= i < |s| && f(s[i]) == x
  {
    if x in Map(s, f) {
      var i :| 0 <= i < |s| && Map(s, f)[i] == x;
    }
  }

  /** A sort key compared lexicographically; a comparator `(a, b) => ka - kb` becomes one key. */
  datatype Key = Key(major: int, minor: int)

  predicate KeyLt(a: Key, b: Key) {
    a.major < b.major || (a.major == b.major && a.minor < b.minor)
  }

  predicate SortedByKey<T>(s: seq<T>, key: T -> Key) {
    forall i, j :: 0 <= i < j < |s| ==> !KeyLt(key(s[j]), key(s[i]))
  }

  /** Insert `x` before the first element whose key is not smaller than its own. */
  function Insert<T>(x: T, t: seq<T>, key: T -> Key): (r: seq<T>)
    ensures |r| == |t| + 1 && multiset(r) == multiset(t) + multiset{x}
  {
    if t == [] || !KeyLt(key(t[0]), key(x)) then [x] + t
    else
      assert t == [t[0]] + t[1..];
      [t[0]] + Insert(x, t[1..], key)
  }

  lemma {:induction false} InsertSorted<T>(x: T, t: seq<T>, key: T -> Key)
    requires SortedByKey(t, key)
    ensures SortedByKey(Insert(x, t, key), key)
  {
    if t == [] || !KeyLt(key(t[0]), key(x)) {
      forall y | y in t ensures !KeyLt(key(y), key(x)) {
        var j :| 0 <= j < |t| && t[j] == y;
        assert j > 0 ==> !KeyLt(key(t[j]), key(t[0]));
      }
      ConsSorted(x, t, key);
    } else {
      InsertSorted(x, t[1..], key);
      var rest := Insert(x, t[1..], key);
      assert t == [t[0]] + t[1..];
      forall y | y in rest ensures !KeyLt(key(y), key(t[0])) {
        assert y in multiset(rest);
        assert y == x || y in t[1..];
      }
      ConsSorted(t[0], rest, key);
    }
  }

  /** A sorted sequence stays sorted with an element in front whose key is no larger than any of its own. */
  lemma ConsSorted<T>(h: T, t: seq<T>, key: T -> Key)
    requires SortedByKey(t, key)
    requires forall y :: y in t ==> !KeyLt(key(y), key(h))
    ensures SortedByKey([h] + t, key)
  {
    var r := [h] + t;
    forall i, j | 0 <= i < j < |r| ensures !KeyLt(key(r[j]), key(r[i])) {
      assert r[j] == t[j - 1] && r[j] in t;
      if i > 0 {
        assert r[i] == t[i - 1];
      }
    }
  }

  /** Cutting a sorted sequence leaves no element after the cut with a smaller key than one before it. */
  lemma SortedCut<T>(s: seq<T>, key: T -> Key, n: nat)
    requires SortedByKey(s, key)
    ensures forall x, y :: x in Take(s, n) && y in Drop(s, n) ==> !KeyLt(key(y), key(x))
  {
    var a, b := Take(s, n), Drop(s, n);
    forall x, y | x in a && y in b ensures !KeyLt(key(y), key(x)) {
      var i :| 0 <= i < |a| && a[i] == x;
      var j :| 0 <= j < |b| && b[j] == y;
      assert s[i] == x && s[|a| + j] == y;
    }
  }

  /** `s.sort(cmp)` for a comparator that compares keys: stable, ascending by key. */
  function SortByKey<T>(s: seq<T>, key: T -> Key): (r: seq<T>)
    ensures |r| == |s| && multiset(r) == multiset(s)
    ensures SortedByKey(r, key)
  {
    if s == [] then []
    else
      assert s == [s[0]] + s[1..];
      InsertSorted(s[0], SortByKey(s[1..], key), key);
      Insert(s[0], SortByKey(s[1..], key), key)
  }

  /** Sorting what is already sorted changes nothing: a stable sort leaves ties where they are. */
  lemma {:induction false} SortOfSorted<T>(s: seq<T>, key: T -> Key)
    requires SortedByKey(s, key)
    ensures SortByKey(s, key) == s
  {
    if s != [] {
      assert SortedByKey(s[1..], key);
      SortOfSorted(s[1..], key);
      assert s == [s[0]] + s[1..];
      assert s[1..] == [] || !KeyLt(key(s[1..][0]), key(s[0]));
    }
  }

  /** The elements whose key is `k`. */
  function KeyIs<T>(key: T -> Key, k: Key): T -> bool {
    y => key(y) == k
  }

  lemma {:induction false} InsertKeepsEqualKeyOrder<T(!new)>(x: T, t: seq<T>, key: T -> Key, k: Key)
    requires SortedByKey(t, key)
    ensures Filter(Insert(x, t, key), KeyIs(key, k))
         == (if key(x) == k then [x] else []) + Filter(t, KeyIs(key, k))
  {
    var p := KeyIs(key, k);
    if t == [] || !KeyLt(key(t[0]), key(x)) {
      assert Insert(x, t, key) == [x] + t;
      assert ([x] + t)[1..] == t;
    } else {
      SortedTail(t, key);
      InsertKeepsEqualKeyOrder(x, t[1..], key, k);
      var rest := Insert(x, t[1..], key);
      var r := Insert(x, t, key);
      assert r == [t[0]] + rest;
      assert r[0] == t[0] && r[1..] == rest;
      assert Filter(r, p) == (if p(t[0]) then [t[0]] else []) + Filter(rest, p);
      assert Filter(t, p) == (if p(t[0]) then [t[0]] else []) + Filter(t[1..], p);
      // t[0] sorts strictly before x, so when x has key k, t[0] does not
      assert key(x) == k ==> key(t[0]) != k;
    }
  }

  /** The tail of a sorted sequence is sorted. */
  lemma SortedTail<T>(t: seq<T>, key: T -> Key)
    requires t != [] && SortedByKey(t, key)
    ensures SortedByKey(t[1..], key)
  {
    forall i, j | 0 <= i < j < |t| - 1 ensures !KeyLt(key(t[1..][j]), key(t[1..][i])) {
      assert t[1..][j] == t[j + 1] && t[1..][i] == t[i + 1];
    }
  }

  /** The sort is stable: the elements of one key keep their relative order. */
  lemma {:induction false} SortIsStable<T(!new)>(s: seq<T>, key: T -> Key, k: Key)
    ensures Filter(SortByKey(s, key), KeyIs(key, k)) == Filter(s, KeyIs(key, k))
  {
    if s != [] {
      SortIsStable(s[1..], key, k);
      InsertKeepsEqualKeyOrder(s[0], SortByKey(s[1..], key), key, k);
    }
  }

  /** The first element a filter keeps is the first element of `s` satisfying `p`. */
  lemma {:induction false} FilterHead<T(!new)>(s: seq<T>, p: T -> bool)
    requires Filter(s, p) != []
    ensures exists i :: 0 <= i < |s| && s[i] == Filter(s, p)[0] && p(s[i]) && forall j :: 0 <= j < i ==> !p(s[j])
  {
    if p(s[0]) {
      assert s[0] == Filter(s, p)[0];
    } else {
      FilterHead(s[1..], p);
      var i :| 0 <= i < |s[1..]| && s[1..][i] == Filter(s[1..], p)[0] && p(s[1..][i]) && forall j :: 0 <= j < i ==> !p(s[1..][j]);
      assert s[i + 1] == Filter(s, p)[0];
      forall j | 0 <= j < i + 1 ensures !p(s[j]) {
        if j > 0 {
          assert s[j] == s[1..][j - 1];
        }
      }
    }
  }

  /** A filter keeps something exactly when `find` finds something, and what it keeps first is what `find` returns. */
  lemma {:induction false} FilterFirstIsFind<T(!new)>(s: seq<T>, p: T -> bool)
    ensures Filter(s, p) == [] <==> Find(s, p).None?
    ensures Filter(s, p) != [] ==> Filter(s, p)[0] == Find(s, p).value
  {
    if s != [] && !p(s[0]) {
      FilterFirstIsFind(s[1..], p);
      assert Filter(s, p) == Filter(s[1..], p);
      assert Find(s, p) == Find(s[1..], p);
    }
  }

  /**
   * The head of a stable sort is the first element of `s` whose key is least: no element sorts
   * before it, and every earlier element has a different key.
   */
  lemma SortHeadIsFirstLeast<T(!new)>(s: seq<T>, key: T -> Key)
    requires s != []
    ensures exists i :: FirstLeast(s, key, i) && SortByKey(s, key)[0] == s[i]
  {
    var r := SortByKey(s, key);
    var k := key(r[0]);
    var f := Filter(r, KeyIs(key, k));
    assert r == [r[0]] + r[1..];
    assert f == [r[0]] + Filter(r[1..], KeyIs(key, k));
    SortIsStable(s, key, k);
    FilterHead(s, KeyIs(key, k));
    var i :| 0 <= i < |s| && s[i] == f[0] && KeyIs(key, k)(s[i]) && forall j :: 0 <= j < i ==> !KeyIs(key, k)(s[j]);
    assert s[i] == r[0];
    forall j | 0 <= j < |s| ensures !KeyLt(key(s[j]), k) {
      assert s[j] in multiset(r);
      var m :| 0 <= m < |r| && r[m] == s[j];
      assert m == 0 || !KeyLt(key(r[m]), key(r[0]));
    }
    assert FirstLeast(s, key, i);
  }

  /** `s[i]` has the least key of `s`, and every element before it has a different key. */
  predicate FirstLeast<T>(s: seq<T>, key: T -> Key, i: int) {
    && 0 <= i < |s|
    && (forall j :: 0 <= j < |s| ==> !KeyLt(key(s[j]), key(s[i])))
    && (forall j :: 0 <= j < i ==> key(s[j]) != key(s[i]))
  }

  /**
   * A random reordering, for `[...xs].sort(() => Math.random() - 0.5)`: each draw picks, modulo the
   * number of elements left, the next element of the result. Missing draws pick the first element.
   */
  function Shuffled<T>(xs: seq<T>, draws: seq<nat>): (r: seq<T>)
    ensures |r| == |xs| && multiset(r) == multiset(xs)
    decreases |xs|
  {
    if xs == [] then []
    else
      var d := if draws == [] then 0 else draws[0] % |xs|;
      assert xs == xs[..d] + [xs[d]] + xs[d + 1..];
      [xs[d]] + Shuffled(xs[..d] + xs[d + 1..], if draws == [] then [] else draws[1..])
  }

  /** `s.map(f).filter(Boolean)` for an `f` that answers `Some` or `None`: the `Some` values in order. */
  function FilterMap<T, U>(s: seq<T>, f: T -> Option<U>): (r: seq<U>)
    ensures |r| <= |s|
  {
    if s == [] then []
    else
      match f(s[0])
      case None => FilterMap(s[1..], f)
      case Some(y) => [y] + FilterMap(s[1..], f)
  }

  /** `FilterMap` handles the two parts of a sequence one after the other. */
  lemma {:induction false} FilterMapAppend<T, U>(a: seq<T>, b: seq<T>, f: T -> Option<U>)
    ensures FilterMap(a + b, f) == FilterMap(a, f) + FilterMap(b, f)
  {
    if a == [] {
      assert a + b == b;
    } else {
      assert (a + b)[1..] == a[1..] + b;
      FilterMapAppend(a[1..], b, f);
    }
  }

  /** Two elements that both map to a value give those two values, in order. */
  lemma FilterMapTwo<T, U>(a: T, b: T, f: T -> Option<U>)
    requires f(a).Some? && f(b).Some?
    ensures FilterMap([a, b], f) == [f(a).value, f(b).value]
  {
    assert [a, b][1..] == [b] && [b][1..] == [];
  }

  /** A prefix of a sorted sequence is sorted. */
  lemma SortedTake<T>(s: seq<T>, key: T -> Key, n: nat)
    requires SortedByKey(s, key)
    ensures SortedByKey(Take(s, n), key)
  {
    var t := Take(s, n);
    assert forall i :: 0 <= i < |t| ==> t[i] == s[i];
  }

  /** A prefix is part of the whole: what `slice(0, n)` keeps, it keeps no more often than the input has it. */
  lemma TakeIsSubMultiset<T>(s: seq<T>, n: nat)
    ensures multiset(Take(s, n)) <= multiset(s)
  {
    assert s == Take(s, n) + Drop(s, n);
  }

  /** Extending a sequence by one element adds it to the distinct elements unless it is already there. */
  lemma DistinctSnoc<T(!new)>(xs: seq<T>, x: T)
    ensures Distinct(xs + [x]) == (var d := Distinct(xs); if x in d then d else d + [x])
  {
    assert (xs + [x])[..|xs|] == xs;
  }
}
