/** Generic sequence folds behind the dashboard's `filter`, `reduce` and
    `flat` chains. Every fold is written from the back so that a loop over a
    prefix `s[..i]` extends it by one element. */
module Seqs {
  import opened Wrappers

  /** The last element removed. */
  function Init<T>(s: seq<T>): seq<T>
    requires s != []
  {
    s[..|s| - 1]
  }

  function Last<T>(s: seq<T>): T
    requires s != []
  {
    s[|s| - 1]
  }

  lemma InitLast<T>(s: seq<T>)
    requires s != []
    ensures s == Init(s) + [Last(s)]
  {
  }

  /** `s.filter(p)`: the elements of `s` that satisfy `p`, in order, each
      satisfying element kept as often as it occurs. */
  function Filter<T(!new)>(s: seq<T>, p: T -> bool): (r: seq<T>)
    ensures |r| <= |s|
    ensures forall i :: 0 <= i < |r| ==> p(r[i])
  {
    if s == [] then []
    else
      Filter(Init(s), p) + (if p(Last(s)) then [Last(s)] else [])
  }

  /** Filter keeps each satisfying element exactly as often as it occurs
      and drops every other one. */
  lemma {:induction false} FilterCount<T(!new)>(s: seq<T>, p: T -> bool)
    ensures forall x :: multiset(Filter(s, p))[x] == if p(x) then multiset(s)[x] else 0
    decreases |s|
  {
    if s != [] {
      var t, y := Init(s), Last(s);
      FilterCount(t, p);
      assert s == t + [y];
      assert multiset(s) == multiset(t) + multiset{y};
      var kept := if p(y) then [y] else [];
      assert Filter(s, p) == Filter(t, p) + kept;
      assert multiset(Filter(s, p)) == multiset(Filter(t, p)) + multiset(kept);
    }
  }

  /** Membership form of Filter's contract. */
  lemma FilterMember<T(!new)>(s: seq<T>, p: T -> bool, x: T)
    ensures x in Filter(s, p) <==> x in s && p(x)
  {
    FilterCount(s, p);
    assert multiset(Filter(s, p))[x] == if p(x) then multiset(s)[x] else 0;
  }

  /** `a` is `b` with some elements deleted (order kept). */
  predicate IsSubseq<T(==)>(a: seq<T>, b: seq<T>)
    decreases |b|
  {
    if a == [] then true
    else if b == [] then false
    else if Last(a) == Last(b) then IsSubseq(Init(a), Init(b))
    else IsSubseq(a, Init(b))
  }

  lemma {:induction false} SubseqDropLast<T>(a: seq<T>, b: seq<T>)
    requires a != [] && IsSubseq(a, b)
    ensures IsSubseq(Init(a), b)
    decreases |b|, 0
  {
    if Init(a) != [] && b != [] {
      if Last(a) == Last(b) {
        SubseqExtend(Init(a), Init(b), Last(b));
        assert Init(b) + [Last(b)] == b;
      } else {
        SubseqDropLast(a, Init(b));
        SubseqExtend(Init(a), Init(b), Last(b));
        assert Init(b) + [Last(b)] == b;
      }
    }
  }

  lemma {:induction false} SubseqExtend<T>(a: seq<T>, b: seq<T>, x: T)
    requires IsSubseq(a, b)
    ensures IsSubseq(a, b + [x])
    decreases |b|, 1
  {
    var b' := b + [x];
    assert Init(b') == b && Last(b') == x;
    if a != [] && Last(a) == x {
      SubseqDropLast(a, b);
    }
  }

  lemma {:induction false} SubseqTransitive<T>(a: seq<T>, b: seq<T>, c: seq<T>)
    requires IsSubseq(a, b) && IsSubseq(b, c)
    ensures IsSubseq(a, c)
    decreases |c|
  {
    if a != [] && c != [] {
      if b != [] && Last(b) == Last(c) {
        if Last(a) == Last(b) {
          SubseqTransitive(Init(a), Init(b), Init(c));
        } else {
          SubseqTransitive(a, Init(b), Init(c));
          SubseqExtend(a, Init(c), Last(c));
          assert Init(c) + [Last(c)] == c;
        }
      } else {
        SubseqTransitive(a, b, Init(c));
        SubseqExtend(a, Init(c), Last(c));
        assert Init(c) + [Last(c)] == c;
      }
    }
  }

  /** Every sequence is a subsequence of itself. */
  lemma {:induction false} SubseqOfSelf<T>(s: seq<T>)
    ensures IsSubseq(s, s)
    decreases |s|
  {
    if s != [] {
      SubseqOfSelf(Init(s));
    }
  }

  /** A filtered sequence keeps the order of its source. */
  lemma {:induction false} FilterIsSubseq<T(!new)>(s: seq<T>, p: T -> bool)
    ensures IsSubseq(Filter(s, p), s)
    decreases |s|
  {
    if s != [] {
      var t, x := Init(s), Last(s);
      FilterIsSubseq(t, p);
      var f := Filter(t, p);
      assert s == t + [x];
      if p(x) {
        assert Filter(s, p) == f + [x];
        SubseqBothExtend(f, t, x);
      } else {
        assert Filter(s, p) == f + [] == f;
        SubseqExtend(f, t, x);
      }
    }
  }

  /** `s.findIndex(p)` as an option: the first index whose element passes. */
  function FindFirst<T>(s: seq<T>, p: T -> bool): (r: Option<nat>)
    ensures r.None? <==> forall i :: 0 <= i < |s| ==> !p(s[i])
    ensures r.Some? ==> r.value < |s| && p(s[r.value]) && forall j :: 0 <= j < r.value ==> !p(s[j])
  {
    if s == [] then None
    else if p(s[0]) then Some(0)
    else
      var k := FindFirst(s[1..], p);
      assert forall j :: 1 <= j < |s| ==> s[j] == s[1..][j - 1];
      if k.None? then None else Some(k.value + 1)
  }

  /** A `reduce` sum of values that may be `NaN` (`None`): `NaN` as soon as
      one value is. */
  function SumOptions<T>(s: seq<T>, f: T -> Option<int>): (r: Option<int>)
    ensures r.None? <==> exists i :: 0 <= i < |s| && f(s[i]).None?
  {
    if s == [] then Some(0)
    else
      var front := SumOptions(Init(s), f);
      var last := f(Last(s));
      assert forall i :: 0 <= i < |s| - 1 ==> Init(s)[i] == s[i];
      if front.Some? && last.Some? then Some(front.value + last.value) else None
  }

  /** One more value: `NaN` if either side is, otherwise the sum. */
  lemma SumOptionsSnoc<T>(s: seq<T>, x: T, f: T -> Option<int>)
    ensures SumOptions(s + [x], f) ==
      if SumOptions(s, f).Some? && f(x).Some? then Some(SumOptions(s, f).value + f(x).value) else None
  {
    assert Init(s + [x]) == s && Last(s + [x]) == x;
  }

  /** A sum without `NaN` is the plain sum of the values. */
  lemma {:induction false} SumOptionsValue<T>(s: seq<T>, f: T -> Option<int>, g: T -> int)
    requires forall x :: g(x) == f(x).GetOr(0)
    ensures SumOptions(s, f).Some? ==> SumOptions(s, f).value == SumOf(s, g)
    decreases |s|
  {
    if s != [] {
      SumOptionsValue(Init(s), f, g);
    }
  }

  /** A filter that every element passes keeps the whole sequence. */
  lemma {:induction false} FilterAll<T(!new)>(s: seq<T>, p: T -> bool)
    requires forall i :: 0 <= i < |s| ==> p(s[i])
    ensures Filter(s, p) == s
    decreases |s|
  {
    if s != [] {
      FilterAll(Init(s), p);
      assert p(s[|s| - 1]);
      InitLast(s);
    }
  }

  /** Tests that agree on every element of `s` keep the same elements. */
  lemma {:induction false} FilterSame<T(!new)>(s: seq<T>, p: T -> bool, q: T -> bool)
    requires forall i :: 0 <= i < |s| ==> p(s[i]) == q(s[i])
    ensures Filter(s, p) == Filter(s, q)
    decreases |s|
  {
    if s != [] {
      assert forall i :: 0 <= i < |Init(s)| ==> Init(s)[i] == s[i];
      FilterSame(Init(s), p, q);
      assert p(Last(s)) == q(Last(s));
    }
  }

  /** Filter on a non-empty sequence: the filtered front, then the last
      element when it passes. */
  lemma FilterLast<T(!new)>(s: seq<T>, p: T -> bool)
    requires s != []
    ensures Filter(s, p) == Filter(Init(s), p) + (if p(Last(s)) then [Last(s)] else [])
  {
  }

  /** Filtering with a stronger test keeps a subsequence of what the weaker
      test keeps. */
  lemma {:induction false} FilterNarrower<T(!new)>(s: seq<T>, p: T -> bool, q: T -> bool)
    requires forall x :: p(x) ==> q(x)
    ensures IsSubseq(Filter(s, p), Filter(s, q))
    decreases |s|
  {
    if s != [] {
      FilterNarrower(Init(s), p, q);
      var fp, fq, x := Filter(Init(s), p), Filter(Init(s), q), Last(s);
      FilterLast(s, p);
      FilterLast(s, q);
      assert fp + [] == fp && fq + [] == fq;
      if p(x) {
        SubseqBothExtend(fp, fq, x);
      } else if q(x) {
        SubseqExtend(fp, fq, x);
      }
    }
  }

  lemma SubseqBothExtend<T>(a: seq<T>, b: seq<T>, x: T)
    requires IsSubseq(a, b)
    ensures IsSubseq(a + [x], b + [x])
  {
    assert Init(a + [x]) == a && Init(b + [x]) == b;
  }

  /** The number of elements of `s` that satisfy `p` (`s.filter(p).length`). */
  function Count<T>(s: seq<T>, p: T -> bool): (n: nat)
    ensures n <= |s|
    ensures n == |s| <==> forall i :: 0 <= i < |s| ==> p(s[i])
  {
    if s == [] then 0
    else
      var n := Count(Init(s), p) + (if p(Last(s)) then 1 else 0);
      assert forall i :: 0 <= i < |s| - 1 ==> s[i] == Init(s)[i];
      n
  }

  lemma {:induction false} FilterLength<T(!new)>(s: seq<T>, p: T -> bool)
    ensures |Filter(s, p)| == Count(s, p)
    decreases |s|
  {
    if s != [] {
      FilterLength(Init(s), p);
    }
  }

  /** Counting over two pieces adds their counts. */
  lemma {:induction false} CountAppend<T>(a: seq<T>, b: seq<T>, p: T -> bool)
    ensures Count(a + b, p) == Count(a, p) + Count(b, p)
    decreases |b|
  {
    if b == [] {
      assert a + b == a;
    } else {
      assert Init(a + b) == a + Init(b) && Last(a + b) == Last(b);
      CountAppend(a, Init(b), p);
    }
  }

  /** No element passes: the count is zero. */
  lemma {:induction false} CountNone<T>(s: seq<T>, p: T -> bool)
    requires forall i :: 0 <= i < |s| ==> !p(s[i])
    ensures Count(s, p) == 0
    decreases |s|
  {
    if s != [] {
      CountNone(Init(s), p);
    }
  }

  /** Summing a 0/1 indicator of `p` counts the elements that pass `p`. */
  lemma {:induction false} SumOfIndicator<T>(s: seq<T>, p: T -> bool, h: T -> int)
    requires forall x :: h(x) == if p(x) then 1 else 0
    ensures SumOf(s, h) == Count(s, p)
    decreases |s|
  {
    if s != [] {
      SumOfIndicator(Init(s), p, h);
    }
  }

  /** A stronger test is met no more often than a weaker one. */
  lemma {:induction false} CountImplies<T>(s: seq<T>, p: T -> bool, q: T -> bool)
    requires forall x :: p(x) ==> q(x)
    ensures Count(s, p) <= Count(s, q)
    decreases |s|
  {
    if s != [] {
      CountImplies(Init(s), p, q);
    }
  }

  /** `s.reduce((acc, x) => acc + f(x), 0)`. */
  function SumOf<T>(s: seq<T>, f: T -> int): int
  {
    if s == [] then 0 else SumOf(Init(s), f) + f(Last(s))
  }

  lemma {:induction false} SumAppend<T>(a: seq<T>, b: seq<T>, f: T -> int)
    ensures SumOf(a + b, f) == SumOf(a, f) + SumOf(b, f)
    decreases |b|
  {
    if b == [] {
      assert a + b == a;
    } else {
      assert Init(a + b) == a + Init(b) && Last(a + b) == Last(b);
      SumAppend(a, Init(b), f);
    }
  }

  /** Summing `g` over `s.map(f)` is summing `h` over `s` when `h` is `g`
      after `f`. */
  lemma {:induction false} SumOfMap<T, U>(s: seq<T>, f: T -> U, g: U -> int, h: T -> int)
    requires forall x :: g(f(x)) == h(x)
    ensures SumOf(Map(s, f), g) == SumOf(s, h)
    decreases |s|
  {
    if s != [] {
      SumOfMap(Init(s), f, g, h);
      assert Init(Map(s, f)) == Map(Init(s), f);
    }
  }

  /** A sum does not depend on the order of its terms. */
  lemma {:induction false} SumPermutation<T>(a: seq<T>, b: seq<T>, f: T -> int)
    requires multiset(a) == multiset(b)
    ensures SumOf(a, f) == SumOf(b, f)
    decreases |a|
  {
    if a == [] {
      assert |b| == |multiset(b)| == 0;
    } else {
      var x := Last(a);
      assert x in multiset(b);
      var k :| 0 <= k < |b| && b[k] == x;
      var rest := b[..k] + b[k + 1..];
      assert b == b[..k] + [x] + b[k + 1..];
      assert a == Init(a) + [x];
      assert multiset(b) == multiset(b[..k]) + multiset{x} + multiset(b[k + 1..]);
      assert multiset(rest) == multiset(b[..k]) + multiset(b[k + 1..]);
      assert multiset(a) == multiset(Init(a)) + multiset{x};
      assert multiset(Init(a)) == multiset(a) - multiset{x};
      assert multiset(rest) == multiset(b) - multiset{x};
      SumPermutation(Init(a), rest, f);
      SumAppend(b[..k] + [x], b[k + 1..], f);
      SumAppend(b[..k], [x], f);
      SumAppend(b[..k], b[k + 1..], f);
    }
  }

  /** `s.map(f)` */
  function Map<T, U>(s: seq<T>, f: T -> U): (r: seq<U>)
    ensures |r| == |s| && forall i :: 0 <= i < |s| ==> r[i] == f(s[i])
  {
    seq(|s|, i requires 0 <= i < |s| => f(s[i]))
  }

  /** A header followed, element by element, by `f` of each element of `s`. */
  lemma HeadedMap<T, U>(rows: seq<U>, head: U, s: seq<T>, f: T -> U)
    requires |rows| == |s| + 1 && rows[0] == head
    requires forall k :: 0 <= k < |s| ==> rows[k + 1] == f(s[k])
    ensures rows == [head] + Map(s, f)
  {
    var t := [head] + Map(s, f);
    forall i | 0 <= i < |rows| ensures rows[i] == t[i] {
      if i > 0 {
        assert rows[(i - 1) + 1] == f(s[i - 1]);
      }
    }
  }

  lemma MapSnoc<T, U>(s: seq<T>, x: T, f: T -> U)
    ensures Map(s + [x], f) == Map(s, f) + [f(x)]
  {
  }

  /** `new Set(s)` */
  function Elems<T(!new)>(s: seq<T>): (r: set<T>)
    ensures forall x :: x in r <==> x in s
  {
    set x | x in s
  }

  /** The images under `f` of the elements that pass `p`. */
  lemma MapFilterMember<T(!new), U>(s: seq<T>, p: T -> bool, f: T -> U, x: U)
    ensures x in Map(Filter(s, p), f) <==> exists y :: y in s && p(y) && f(y) == x
  {
    var kept := Filter(s, p);
    if x in Map(kept, f) {
      var i :| 0 <= i < |kept| && Map(kept, f)[i] == x;
      FilterMember(s, p, kept[i]);
    }
    if y :| y in s && p(y) && f(y) == x {
      FilterMember(s, p, y);
      var i :| 0 <= i < |kept| && kept[i] == y;
      assert Map(kept, f)[i] == x;
    }
  }

  /** `[].concat(...ss)`: the inner sequences one after another. */
  function Flatten<T>(ss: seq<seq<T>>): (r: seq<T>)
  {
    if ss == [] then [] else Flatten(Init(ss)) + Last(ss)
  }

  /** The last element of `xs` gives the last piece of the flattened map. */
  lemma FlattenMapLast<T, U>(xs: seq<T>, f: T -> seq<U>)
    requires xs != []
    ensures Flatten(Map(xs, f)) == Flatten(Map(Init(xs), f)) + f(Last(xs))
  {
    assert xs == Init(xs) + [Last(xs)];
    MapSnoc(Init(xs), Last(xs), f);
    FlattenSnoc(Map(Init(xs), f), f(Last(xs)));
  }

  /** The length of a flattened map is the sum of the pieces' lengths. */
  lemma {:induction false} FlattenMapLength<T, U>(xs: seq<T>, f: T -> seq<U>, g: T -> int)
    requires forall x :: |f(x)| == g(x)
    ensures |Flatten(Map(xs, f))| == SumOf(xs, g)
    decreases |xs|
  {
    if xs != [] {
      FlattenMapLength(Init(xs), f, g);
      FlattenMapLast(xs, f);
    }
  }

  /** Counting over a flattened map adds up the counts of the pieces. */
  lemma {:induction false} FlattenMapCount<T, U>(xs: seq<T>, f: T -> seq<U>, p: U -> bool, h: T -> int)
    requires forall x :: Count(f(x), p) == h(x)
    ensures Count(Flatten(Map(xs, f)), p) == SumOf(xs, h)
    decreases |xs|
  {
    if xs != [] {
      FlattenMapCount(Init(xs), f, p, h);
      FlattenMapLast(xs, f);
      CountAppend(Flatten(Map(Init(xs), f)), f(Last(xs)), p);
    }
  }

  /** Every element of a flattened map satisfies `p` when every element of
      every piece does. */
  lemma {:induction false} FlattenMapAll<T, U>(xs: seq<T>, f: T -> seq<U>, p: U -> bool)
    requires forall x, j :: 0 <= j < |f(x)| ==> p(f(x)[j])
    ensures forall k :: 0 <= k < |Flatten(Map(xs, f))| ==> p(Flatten(Map(xs, f))[k])
    decreases |xs|
  {
    if xs != [] {
      FlattenMapAll(Init(xs), f, p);
      FlattenMapLast(xs, f);
      var front := Flatten(Map(Init(xs), f));
      forall k | 0 <= k < |Flatten(Map(xs, f))| ensures p(Flatten(Map(xs, f))[k]) {
        if k >= |front| {
          assert Flatten(Map(xs, f))[k] == f(Last(xs))[k - |front|];
        }
      }
    }
  }

  /** `s.forEach(x => acc = f(acc, x))`: `f` applied element by element. */
  function FoldLeft<A, T>(acc: A, s: seq<T>, f: (A, T) -> A): A
  {
    if s == [] then acc else f(FoldLeft(acc, Init(s), f), Last(s))
  }

  /** Folding over two pieces one after the other is folding over both. */
  lemma {:induction false} FoldAppend<A, T>(acc: A, a: seq<T>, b: seq<T>, f: (A, T) -> A)
    ensures FoldLeft(acc, a + b, f) == FoldLeft(FoldLeft(acc, a, f), b, f)
    decreases |b|
  {
    if b == [] {
      assert a + b == a;
    } else {
      assert Init(a + b) == a + Init(b) && Last(a + b) == Last(b);
      FoldAppend(acc, a, Init(b), f);
    }
  }

  /** One more element extends the fold of the prefix before it. */
  lemma FoldPrefix<A, T>(acc: A, s: seq<T>, f: (A, T) -> A, i: nat)
    requires i < |s|
    ensures FoldLeft(acc, s[..i + 1], f) == f(FoldLeft(acc, s[..i], f), s[i])
  {
    assert Init(s[..i + 1]) == s[..i] && Last(s[..i + 1]) == s[i];
  }

  /** The last inner sequence comes last. */
  lemma FlattenSnoc<T>(ss: seq<seq<T>>, s: seq<T>)
    ensures Flatten(ss + [s]) == Flatten(ss) + s
  {
    assert Init(ss + [s]) == ss;
  }

  /** One more element of `s` adds its image to the flattened map. */
  lemma FlattenMapPrefix<T, U>(s: seq<T>, f: T -> seq<U>, i: nat)
    requires i < |s|
    ensures Flatten(Map(s[..i + 1], f)) == Flatten(Map(s[..i], f)) + f(s[i])
  {
    assert s[..i + 1] == s[..i] + [s[i]];
    MapSnoc(s[..i], s[i], f);
    FlattenSnoc(Map(s[..i], f), f(s[i]));
  }

  /** Pushing the image of the next element keeps `rows` equal to the start
      followed by the images of the elements seen so far. */
  lemma PushStep<T, U>(start: seq<U>, rows: seq<U>, s: seq<T>, f: T -> seq<U>, i: nat)
    requires i < |s| && rows == start + Flatten(Map(s[..i], f))
    ensures rows + f(s[i]) == start + Flatten(Map(s[..i + 1], f))
  {
    FlattenMapPrefix(s, f, i);
  }

  // ---------------------------------------------------------------------------
  // Stable sort by an integer key

  /** `a` may stay before `b`: the comparator `key(a) - key(b)` (ascending)
      or `key(b) - key(a)` (descending) is not positive. */
  predicate InOrder<T>(key: T -> int, ascending: bool, a: T, b: T) {
    if ascending then key(a) <= key(b) else key(b) <= key(a)
  }

  predicate SortedBy<T>(s: seq<T>, key: T -> int, ascending: bool) {
    forall i, j :: 0 <= i < j < |s| ==> InOrder(key, ascending, s[i], s[j])
  }

  /** Places `x` after every element it does not have to precede, so that
      elements of equal key keep their input order. */
  function Insert<T>(sorted: seq<T>, x: T, key: T -> int, ascending: bool): (r: seq<T>)
    ensures multiset(r) == multiset(sorted) + multiset{x}
    ensures |r| == |sorted| + 1
  {
    if sorted == [] then [x]
    else if InOrder(key, ascending, Last(sorted), x) then sorted + [x]
    else
      InitLast(sorted);
      Insert(Init(sorted), x, key, ascending) + [Last(sorted)]
  }

  /** `[...s].sort(comparator)` with a comparator on an integer key: a stable
      sort, here an insertion sort from the front. */
  function SortBy<T>(s: seq<T>, key: T -> int, ascending: bool): (r: seq<T>)
    ensures multiset(r) == multiset(s)
    ensures |r| == |s|
  {
    if s == [] then []
    else
      InitLast(s);
      Insert(SortBy(Init(s), key, ascending), Last(s), key, ascending)
  }

  lemma {:induction false} InsertSorted<T>(sorted: seq<T>, x: T, key: T -> int, ascending: bool)
    requires SortedBy(sorted, key, ascending)
    ensures SortedBy(Insert(sorted, x, key, ascending), key, ascending)
    decreases |sorted|
  {
    if sorted != [] {
      var front, y := Init(sorted), Last(sorted);
      if InOrder(key, ascending, y, x) {
        var r := sorted + [x];
        forall i, j | 0 <= i < j < |r| ensures InOrder(key, ascending, r[i], r[j]) {
          if j == |sorted| {
            assert InOrder(key, ascending, sorted[i], y) || i == |sorted| - 1;
          }
        }
      } else {
        assert SortedBy(front, key, ascending);
        InsertSorted(front, x, key, ascending);
        var ins := Insert(front, x, key, ascending);
        var r := ins + [y];
        forall i | 0 <= i < |ins| ensures InOrder(key, ascending, ins[i], y) {
          assert ins[i] in multiset(ins);
          if ins[i] != x {
            assert ins[i] in multiset(front);
            var k :| 0 <= k < |front| && front[k] == ins[i];
            assert sorted[k] == front[k];
          }
        }
        forall i, j | 0 <= i < j < |r| ensures InOrder(key, ascending, r[i], r[j]) {
          if j < |ins| {
            assert r[i] == ins[i] && r[j] == ins[j];
          }
        }
      }
    }
  }

  /** The result is ordered by the key. */
  lemma {:induction false} SortBySorted<T>(s: seq<T>, key: T -> int, ascending: bool)
    ensures SortedBy(SortBy(s, key, ascending), key, ascending)
    decreases |s|
  {
    if s != [] {
      SortBySorted(Init(s), key, ascending);
      InsertSorted(SortBy(Init(s), key, ascending), Last(s), key, ascending);
    }
  }

  /** The elements whose key is `k`. */
  function KeyIs<T>(key: T -> int, k: int): T -> bool {
    (x: T) => key(x) == k
  }

  /** Filtering a sequence extended by one element. */
  lemma FilterSnoc<T(!new)>(s: seq<T>, x: T, p: T -> bool)
    ensures Filter(s + [x], p) == Filter(s, p) + (if p(x) then [x] else [])
  {
    assert Init(s + [x]) == s && Last(s + [x]) == x;
    FilterLast(s + [x], p);
  }

  /** Inserting `x` puts it after every element of the same key. */
  lemma InsertStable<T(!new)>(sorted: seq<T>, x: T, key: T -> int, ascending: bool, k: int)
    ensures Filter(Insert(sorted, x, key, ascending), KeyIs(key, k))
         == Filter(sorted, KeyIs(key, k)) + (if key(x) == k then [x] else [])
  {
    InsertStableBy(sorted, x, key, ascending, KeyIs(key, k));
  }

  lemma {:induction false} InsertStableBy<T(!new)>(sorted: seq<T>, x: T, key: T -> int, ascending: bool, p: T -> bool)
    requires forall a, b :: p(a) && p(b) ==> key(a) == key(b)
    ensures Filter(Insert(sorted, x, key, ascending), p) == Filter(sorted, p) + (if p(x) then [x] else [])
    decreases |sorted|
  {
    if sorted == [] {
      FilterSnoc([], x, p);
    } else if InOrder(key, ascending, Last(sorted), x) {
      FilterSnoc(sorted, x, p);
    } else {
      var l, rest := Last(sorted), Insert(Init(sorted), x, key, ascending);
      assert Insert(sorted, x, key, ascending) == rest + [l];
      InsertStableBy(Init(sorted), x, key, ascending, p);
      FilterSnoc(rest, l, p);
      FilterLast(sorted, p);
      assert !(p(x) && p(l));
      var f := Filter(Init(sorted), p);
      if p(x) {
        assert Filter(rest + [l], p) == f + [x];
      } else {
        assert Filter(rest + [l], p) == f + (if p(l) then [l] else []);
      }
    }
  }

  /** The sort is stable: the elements of any one key keep their input order. */
  lemma {:induction false} SortByStable<T(!new)>(s: seq<T>, key: T -> int, ascending: bool, k: int)
    ensures Filter(SortBy(s, key, ascending), KeyIs(key, k)) == Filter(s, KeyIs(key, k))
    decreases |s|
  {
    if s != [] {
      SortByStable(Init(s), key, ascending, k);
      InsertStable(SortBy(Init(s), key, ascending), Last(s), key, ascending, k);
      FilterLast(s, KeyIs(key, k));
    }
  }

  lemma SortByStableAll<T(!new)>(s: seq<T>, key: T -> int, ascending: bool)
    ensures forall k :: Filter(SortBy(s, key, ascending), KeyIs(key, k)) == Filter(s, KeyIs(key, k))
  {
    forall k ensures Filter(SortBy(s, key, ascending), KeyIs(key, k)) == Filter(s, KeyIs(key, k)) {
      SortByStable(s, key, ascending, k);
    }
  }

  // ---------------------------------------------------------------------------
  // Sort by a comparator

  /** `cmp(a, b) <= 0`: the comparator lets `a` stay before `b`. */
  predicate CmpLe<T>(cmp: (T, T) -> int, a: T, b: T) {
    cmp(a, b) <= 0
  }

  predicate SortedCmp<T>(s: seq<T>, cmp: (T, T) -> int) {
    forall i, j :: 0 <= i < j < |s| ==> CmpLe(cmp, s[i], s[j])
  }

  /** On the elements of `u` the comparator orders totally and transitively. */
  ghost predicate TotalPreorderOn<T>(cmp: (T, T) -> int, u: seq<T>) {
    (forall a, b {:trigger CmpLe(cmp, a, b)} :: a in u && b in u ==> CmpLe(cmp, a, b) || CmpLe(cmp, b, a))
    && (forall a, b, c {:trigger CmpLe(cmp, a, b), CmpLe(cmp, b, c)} ::
          a in u && b in u && c in u && CmpLe(cmp, a, b) && CmpLe(cmp, b, c) ==> CmpLe(cmp, a, c))
  }

  /** Insertion from the back: `x` moves before every element at the end
      that compares greater than it. */
  function InsertCmp<T>(sorted: seq<T>, x: T, cmp: (T, T) -> int): (r: seq<T>)
    ensures |r| == |sorted| + 1
  {
    if sorted == [] then [x]
    else if CmpLe(cmp, Last(sorted), x) then sorted + [x]
    else
      InitLast(sorted);
      InsertCmp(Init(sorted), x, cmp) + [Last(sorted)]
  }

  /** `x` lands right after the last element, from the back, that does not
      compare greater than it. */
  lemma {:induction false} InsertCmpAt<T>(sorted: seq<T>, x: T, cmp: (T, T) -> int, j: int)
    requires 0 <= j <= |sorted|
    requires j == 0 || CmpLe(cmp, sorted[j - 1], x)
    requires forall k :: j <= k < |sorted| ==> !CmpLe(cmp, sorted[k], x)
    ensures InsertCmp(sorted, x, cmp) == sorted[..j] + [x] + sorted[j..]
    decreases |sorted|
  {
    if j == |sorted| {
      assert sorted[..j] == sorted && sorted[j..] == [];
    } else {
      InsertCmpPast(sorted, x, cmp, j);
    }
  }

  lemma {:induction false} InsertCmpPast<T>(sorted: seq<T>, x: T, cmp: (T, T) -> int, j: int)
    requires 0 <= j < |sorted|
    requires j == 0 || CmpLe(cmp, sorted[j - 1], x)
    requires forall k :: j <= k < |sorted| ==> !CmpLe(cmp, sorted[k], x)
    ensures InsertCmp(sorted, x, cmp) == sorted[..j] + [x] + sorted[j..]
    decreases |sorted|, 0
  {
    var front := Init(sorted);
    assert !CmpLe(cmp, Last(sorted), x);
    InsertCmpAt(front, x, cmp, j);
    assert front[..j] == sorted[..j];
    assert front[j..] + [Last(sorted)] == sorted[j..];
  }

  /** A sequence that agrees element-wise with `s` with `x` spliced in at `j`. */
  lemma Spliced<T>(s: seq<T>, x: T, j: int, b: seq<T>)
    requires 0 <= j <= |s| && |b| == |s| + 1
    requires forall k :: 0 <= k < j ==> b[k] == s[k]
    requires b[j] == x
    requires forall k :: j < k < |b| ==> b[k] == s[k - 1]
    ensures b == s[..j] + [x] + s[j..]
  {
  }

  /** Insertion sort with comparator `cmp`: each element in turn is inserted
      into the sorted prefix before it. */
  function SortCmp<T>(s: seq<T>, cmp: (T, T) -> int): (r: seq<T>)
    ensures |r| == |s|
  {
    if s == [] then []
    else
      InitLast(s);
      InsertCmp(SortCmp(Init(s), cmp), Last(s), cmp)
  }

  /** Insertion adds exactly `x`. */
  lemma {:induction false} InsertCmpPerm<T>(sorted: seq<T>, x: T, cmp: (T, T) -> int)
    ensures multiset(InsertCmp(sorted, x, cmp)) == multiset(sorted) + multiset{x}
    decreases |sorted|
  {
    if sorted != [] && !CmpLe(cmp, Last(sorted), x) {
      InitLast(sorted);
      InsertCmpPerm(Init(sorted), x, cmp);
    }
  }

  /** Sorting is a permutation. */
  lemma {:induction false} SortCmpPerm<T>(s: seq<T>, cmp: (T, T) -> int)
    ensures multiset(SortCmp(s, cmp)) == multiset(s)
    decreases |s|
  {
    if s != [] {
      InitLast(s);
      SortCmpPerm(Init(s), cmp);
      InsertCmpPerm(SortCmp(Init(s), cmp), Last(s), cmp);
    }
  }

  lemma {:induction false} InsertCmpSorted<T>(sorted: seq<T>, x: T, cmp: (T, T) -> int, u: seq<T>)
    requires SortedCmp(sorted, cmp) && TotalPreorderOn(cmp, u)
    requires x in u && forall a :: a in sorted ==> a in u
    ensures SortedCmp(InsertCmp(sorted, x, cmp), cmp)
    decreases |sorted|
  {
    if sorted != [] {
      var front, y := Init(sorted), Last(sorted);
      assert y in u by { assert sorted[|sorted| - 1] == y; }
      if CmpLe(cmp, y, x) {
        var r := sorted + [x];
        forall i, j | 0 <= i < j < |r| ensures CmpLe(cmp, r[i], r[j]) {
          if j == |sorted| && i < |sorted| - 1 {
            assert sorted[i] in u;
            assert CmpLe(cmp, sorted[i], y);
          }
        }
      } else {
        assert CmpLe(cmp, x, y);
        assert SortedCmp(front, cmp);
        assert forall a :: a in front ==> a in sorted;
        InsertCmpSorted(front, x, cmp, u);
        var ins := InsertCmp(front, x, cmp);
        InsertCmpPerm(front, x, cmp);
        var r := ins + [y];
        forall i | 0 <= i < |ins| ensures CmpLe(cmp, ins[i], y) {
          assert ins[i] in multiset(ins);
          if ins[i] != x {
            assert ins[i] in multiset(front);
            var k :| 0 <= k < |front| && front[k] == ins[i];
            assert sorted[k] == front[k];
          }
        }
        forall i, j | 0 <= i < j < |r| ensures CmpLe(cmp, r[i], r[j]) {
          if j < |ins| {
            assert r[i] == ins[i] && r[j] == ins[j];
          }
        }
      }
    }
  }

  /** When the comparator is a total preorder on the elements, the result is
      sorted by it. */
  lemma SortCmpSorted<T>(s: seq<T>, cmp: (T, T) -> int)
    requires TotalPreorderOn(cmp, s)
    ensures SortedCmp(SortCmp(s, cmp), cmp)
  {
    SortCmpSortedWithin(s, cmp, s);
  }

  lemma {:induction false} SortCmpSortedWithin<T>(s: seq<T>, cmp: (T, T) -> int, u: seq<T>)
    requires TotalPreorderOn(cmp, u) && forall a :: a in s ==> a in u
    ensures SortedCmp(SortCmp(s, cmp), cmp)
    decreases |s|
  {
    if s != [] {
      InitLast(s);
      assert forall a :: a in Init(s) ==> a in s;
      SortCmpSortedWithin(Init(s), cmp, u);
      var sorted := SortCmp(Init(s), cmp);
      SortCmpPerm(Init(s), cmp);
      forall a | a in sorted ensures a in u {
        assert a in multiset(sorted);
        assert a in multiset(Init(s));
      }
      InsertCmpSorted(sorted, Last(s), cmp, u);
    }
  }
}
