/** The list operations the source takes from the JavaScript library, and what they keep. */
module Sequences {
  import opened Wrappers

  /** `Array.prototype.filter` */
  function Filter<T(!new)>(p: T -> bool, s: seq<T>): (r: seq<T>)
    ensures |r| <= |s|
    ensures forall x :: x in r <==> x in s && p(x)
  {
    if s == [] then []
    else
      var rest := Filter(p, s[..|s| - 1]);
      if p(s[|s| - 1]) then rest + [s[|s| - 1]] else rest
  }

  /** `Array.prototype.findIndex`, with None for -1. */
  function FindIndex<T>(p: T -> bool, s: seq<T>): (r: Option<nat>)
    ensures r.Some? ==> r.value < |s| && p(s[r.value]) && forall i :: 0 <= i < r.value ==> !p(s[i])
    ensures r.None? ==> forall x :: x in s ==> !p(x)
  {
    if s == [] then None
    else if p(s[0]) then Some(0)
    else
      match FindIndex(p, s[1..])
      case None => None
      case Some(i) => Some(i + 1)
  }

  /** `Array.prototype.map` */
  function Map<A, B>(f: A -> B, s: seq<A>): (r: seq<B>)
    ensures |r| == |s| && forall i :: 0 <= i < |s| ==> r[i] == f(s[i])
  {
    seq(|s|, i requires 0 <= i < |s| => f(s[i]))
  }

  /** `Array.from(new Set(s))`: the first occurrence of every element, in order. */
  function Dedup<T(==,!new)>(s: seq<T>): (r: seq<T>)
    ensures |r| <= |s|
    ensures forall x :: x in r <==> x in s
  {
    if s == [] then []
    else
      var rest := Dedup(s[..|s| - 1]);
      if s[|s| - 1] in s[..|s| - 1] then rest else rest + [s[|s| - 1]]
  }

  const MAX_ITEMS := 1000

  /** Drops the last item of a list that has grown beyond its limit by one. */
  function Trim<T>(items: seq<T>): (r: seq<T>)
    ensures r <= items
  {
    if |items| > MAX_ITEMS then items[..|items| - 1] else items
  }

  /** Inserts before the first element that is not ranked higher. */
  function Insert<T>(rank: T -> int, x: T, s: seq<T>): seq<T> {
    if s == [] || rank(s[0]) <= rank(x) then [x] + s else [s[0]] + Insert(rank, x, s[1..])
  }

  /** `s.sort((a, b) => rank(b) - rank(a))`, which is stable. */
  function SortDescending<T>(rank: T -> int, s: seq<T>): seq<T> {
    if s == [] then [] else Insert(rank, s[0], SortDescending(rank, s[1..]))
  }

  ghost predicate Descending<T>(rank: T -> int, s: seq<T>) {
    forall i, j :: 0 <= i < j < |s| ==> rank(s[j]) <= rank(s[i])
  }

  ghost predicate NoDuplicates<T>(s: seq<T>) {
    forall i, j :: 0 <= i < j < |s| ==> s[i] != s[j]
  }

  /** Two lists without duplicates have none together exactly if they share nothing. */
  lemma ConcatDistinct<T>(s: seq<T>, t: seq<T>)
    requires NoDuplicates(s) && NoDuplicates(t)
    ensures NoDuplicates(s + t) <==> forall x :: x in s ==> x !in t
  {
    if forall x :: x in s ==> x !in t {
      forall i, j | 0 <= i < j < |s + t| ensures (s + t)[i] != (s + t)[j] {
        if i < |s| <= j {
          assert s[i] in s && t[j - |s|] in t;
        }
      }
    }
    if x :| x in s && x in t {
      var i :| 0 <= i < |s| && s[i] == x;
      var j :| 0 <= j < |t| && t[j] == x;
      assert (s + t)[i] == (s + t)[|s| + j];
    }
  }

  lemma {:induction false} DedupDistinct<T(!new)>(s: seq<T>)
    ensures NoDuplicates(Dedup(s))
  {
    if s != [] {
      DedupDistinct(s[..|s| - 1]);
    }
  }

  /** Filtering two lists that correspond element by element, by tests that agree, leaves lists that correspond. */
  lemma {:induction false} FilterPairs<A(!new), B(!new)>(p: A -> bool, xs: seq<A>, q: B -> bool, ys: seq<B>,
                                                         related: (A, B) -> bool)
    requires |xs| == |ys|
    requires forall i :: 0 <= i < |xs| ==> related(xs[i], ys[i]) && p(xs[i]) == q(ys[i])
    ensures |Filter(p, xs)| == |Filter(q, ys)|
    ensures forall i :: 0 <= i < |Filter(p, xs)| ==> related(Filter(p, xs)[i], Filter(q, ys)[i])
  {
    if xs != [] {
      FilterPairs(p, xs[..|xs| - 1], q, ys[..|ys| - 1], related);
    }
  }

  /** Filtering keeps distinct labels distinct. */
  lemma {:induction false} FilterDistinct<A(!new), B>(p: A -> bool, s: seq<A>, name: A -> B)
    requires forall i, j :: 0 <= i < j < |s| ==> name(s[i]) != name(s[j])
    ensures forall i, j :: 0 <= i < j < |Filter(p, s)| ==> name(Filter(p, s)[i]) != name(Filter(p, s)[j])
  {
    if s != [] {
      var init := s[..|s| - 1];
      FilterDistinct(p, init, name);
      forall x | x in Filter(p, init) ensures name(x) != name(s[|s| - 1]) {
        assert x in init;
      }
    }
  }

  /** Filtering keeps what holds of every two elements in their order. */
  lemma {:induction false} FilterPairwise<T(!new)>(p: T -> bool, s: seq<T>, r: (T, T) -> bool)
    requires forall i, j :: 0 <= i < j < |s| ==> r(s[i], s[j])
    ensures forall i, j :: 0 <= i < j < |Filter(p, s)| ==> r(Filter(p, s)[i], Filter(p, s)[j])
  {
    if s != [] {
      var init := s[..|s| - 1];
      FilterPairwise(p, init, r);
      forall x | x in Filter(p, init) ensures r(x, s[|s| - 1]) {
        var i :| 0 <= i < |init| && init[i] == x;
        assert r(s[i], s[|s| - 1]);
      }
      var t := Filter(p, init);
      if p(s[|s| - 1]) {
        var u := t + [s[|s| - 1]];
        forall i, j | 0 <= i < j < |u| ensures r(u[i], u[j]) {
          if j == |t| {
            assert t[i] in t;
          }
        }
      }
    }
  }

  /** A filter that keeps the first match keeps it the first match. */
  lemma {:induction false} FilterKeepsFirst<T(!new)>(p: T -> bool, s: seq<T>, c: T -> bool)
    requires FindIndex(c, s).Some? && p(s[FindIndex(c, s).value])
    ensures var r := Filter(p, s); FindIndex(c, r).Some? && r[FindIndex(c, r).value] == s[FindIndex(c, s).value]
  {
    var i, init := FindIndex(c, s).value, s[..|s| - 1];
    if i < |init| {
      assert c(init[i]);
      FirstIs(c, init, i);
      FilterKeepsFirst(p, init, c);
      FirstIs(c, Filter(p, s), FindIndex(c, Filter(p, init)).value);
    } else {
      assert forall x :: x in init ==> !c(x);
      FirstIs(c, Filter(p, s), |Filter(p, init)|);
    }
  }

  lemma FirstIs<T>(c: T -> bool, s: seq<T>, i: nat)
    requires i < |s| && c(s[i]) && forall j :: 0 <= j < i ==> !c(s[j])
    ensures FindIndex(c, s) == Some(i)
  {
    assert s[i] in s;
  }

  /** A filter that rejects at most one place removes at most one element. */
  lemma {:induction false} FilterRemovesAtMostOne<T(!new)>(p: T -> bool, s: seq<T>)
    requires forall i, j :: 0 <= i < j < |s| ==> p(s[i]) || p(s[j])
    ensures |Filter(p, s)| >= |s| - 1
    ensures (forall x :: x in s ==> p(x)) ==> Filter(p, s) == s
  {
    if s != [] {
      var init := s[..|s| - 1];
      FilterRemovesAtMostOne(p, init);
      assert init + [s[|s| - 1]] == s;
      if !p(s[|s| - 1]) {
        assert forall x :: x in init ==> p(x);
      }
    }
  }

  /** A filter that drops nothing. */
  lemma {:induction false} FilterKeepsAll<T(!new)>(p: T -> bool, s: seq<T>)
    requires |Filter(p, s)| == |s|
    ensures Filter(p, s) == s
  {
    if s != [] {
      FilterKeepsAll(p, s[..|s| - 1]);
    }
  }

  lemma {:induction false} FilterAppend<T(!new)>(p: T -> bool, s: seq<T>, x: T)
    ensures Filter(p, s + [x]) == Filter(p, s) + if p(x) then [x] else []
  {
    assert (s + [x])[..|s|] == s;
  }

  lemma {:induction false} FilterConcat<T(!new)>(p: T -> bool, s: seq<T>, t: seq<T>)
    ensures Filter(p, s + t) == Filter(p, s) + Filter(p, t)
  {
    if t == [] {
      assert s + t == s;
    } else {
      FilterConcat(p, s, t[..|t| - 1]);
      assert (s + t)[..|s + t| - 1] == s + t[..|t| - 1];
      assert (s + t)[|s + t| - 1] == t[|t| - 1];
    }
  }

  /** Filtering a list with one element that does not pass. */
  lemma {:induction false} FilterAround<T(!new)>(p: T -> bool, s: seq<T>, i: nat)
    requires i < |s| && !p(s[i])
    ensures Filter(p, s) == Filter(p, s[..i]) + Filter(p, s[i + 1..])
  {
    var first, rest := s[..i] + [s[i]], s[i + 1..];
    assert s == first + rest;
    assert Filter(p, first) == Filter(p, s[..i]) by {
      FilterAppend(p, s[..i], s[i]);
    }
    FilterConcat(p, first, rest);
  }

  /** Tests that agree on the elements of a list filter it alike. */
  lemma {:induction false} SameFilter<T(!new)>(p: T -> bool, q: T -> bool, s: seq<T>)
    requires forall i :: 0 <= i < |s| ==> p(s[i]) == q(s[i])
    ensures Filter(p, s) == Filter(q, s)
  {
    FilterPairs(p, s, q, s, (x, y) => x == y);
  }

  /** Filtering twice is filtering by both tests. */
  lemma {:induction false} FilterTwice<T(!new)>(p: T -> bool, q: T -> bool, both: T -> bool, s: seq<T>)
    requires forall x :: both(x) <==> p(x) && q(x)
    ensures Filter(p, Filter(q, s)) == Filter(both, s)
  {
    if s != [] {
      var init, last := s[..|s| - 1], s[|s| - 1];
      FilterTwice(p, q, both, init);
      if q(last) {
        FilterAppend(p, Filter(q, init), last);
      }
    }
  }

  /** Filtering keeps an element as often as it occurs. */
  lemma {:induction false} FilterCounts<T(!new)>(p: T -> bool, s: seq<T>, x: T)
    ensures multiset(Filter(p, s))[x] == if p(x) then multiset(s)[x] else 0
  {
    if s != [] {
      FilterCounts(p, s[..|s| - 1], x);
      assert s == s[..|s| - 1] + [s[|s| - 1]];
    }
  }

  /** Filtering a list whose first part passes and whose second part does not. */
  lemma {:induction false} FilterSplits<T(!new)>(p: T -> bool, s: seq<T>, n: nat)
    requires n <= |s| && (forall i :: 0 <= i < n ==> p(s[i])) && (forall i :: n <= i < |s| ==> !p(s[i]))
    ensures Filter(p, s) == s[..n]
  {
    if s != [] {
      var init := s[..|s| - 1];
      if n == |s| {
        FilterSplits(p, init, n - 1);
        assert init[..n - 1] + [s[n - 1]] == s[..n];
      } else {
        FilterSplits(p, init, n);
        assert init[..n] == s[..n];
      }
    }
  }

  lemma {:induction false} InsertCounts<T>(rank: T -> int, x: T, s: seq<T>)
    ensures multiset(Insert(rank, x, s)) == multiset([x] + s)
  {
    if s == [] || rank(s[0]) <= rank(x) {
    } else {
      InsertCounts(rank, x, s[1..]);
      assert s == [s[0]] + s[1..];
    }
  }

  lemma {:induction false} InsertSorts<T>(rank: T -> int, x: T, s: seq<T>)
    requires Descending(rank, s)
    ensures Descending(rank, Insert(rank, x, s))
  {
    if s == [] || rank(s[0]) <= rank(x) {
    } else {
      var rest := Insert(rank, x, s[1..]);
      InsertSorts(rank, x, s[1..]);
      InsertCounts(rank, x, s[1..]);
      forall i | 0 <= i < |rest| ensures rank(rest[i]) <= rank(s[0]) {
        assert rest[i] in multiset(rest);
        assert rest[i] in [x] + s[1..];
      }
    }
  }

  lemma {:induction false} SortSorts<T>(rank: T -> int, s: seq<T>)
    ensures Descending(rank, SortDescending(rank, s)) && multiset(SortDescending(rank, s)) == multiset(s)
  {
    if s != [] {
      SortSorts(rank, s[1..]);
      InsertSorts(rank, s[0], SortDescending(rank, s[1..]));
      InsertCounts(rank, s[0], SortDescending(rank, s[1..]));
      assert s == [s[0]] + s[1..];
    }
  }

  /** The stable sort leaves a list as it is exactly if it is in order. */
  lemma {:induction false} SortIsIdentityIff<T>(rank: T -> int, s: seq<T>)
    ensures SortDescending(rank, s) == s <==> Descending(rank, s)
  {
    SortSorts(rank, s);
    if Descending(rank, s) && s != [] {
      assert Descending(rank, s[1..]);
      SortIsIdentityIff(rank, s[1..]);
      assert s == [s[0]] + s[1..];
    }
  }

  /** Looking the same thing up in two lists that correspond finds it at the same place. */
  lemma {:induction false} FindPairs<A, B>(p: A -> bool, xs: seq<A>, q: B -> bool, ys: seq<B>)
    requires |xs| == |ys|
    requires forall i :: 0 <= i < |xs| ==> p(xs[i]) == q(ys[i])
    ensures FindIndex(p, xs) == FindIndex(q, ys)
  {
    if xs != [] {
      FindPairs(p, xs[1..], q, ys[1..]);
    }
  }
}
