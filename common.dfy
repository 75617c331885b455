/** Small sequence utilities shared by every screen: the optional value used for
    JavaScript's `undefined`/`null`, and the array combinators `filter` and `map`. */
module Common {

  datatype Option<+T> = None | Some(value: T)

  /** `s.filter(p)`: the elements of `s` that satisfy `p`, in their original order. */
  function Filter<T(!new)>(p: T -> bool, s: seq<T>): (r: seq<T>)
    ensures |r| <= |s|
    ensures forall i :: 0 <= i < |r| ==> p(r[i])
    decreases s
  {
    if s == [] then [] else (if p(s[0]) then [s[0]] else []) + Filter(p, s[1..])
  }

  /** `Filter` keeps exactly the elements that satisfy `p`. */
  lemma {:induction false} FilterMembers<T(!new)>(p: T -> bool, s: seq<T>)
    ensures forall x :: x in Filter(p, s) <==> x in s && p(x)
    decreases s
  {
    if s != [] {
      FilterMembers(p, s[1..]);
      assert s == [s[0]] + s[1..];
    }
  }

  /** `s.map(f)`. */
  function Map<T, U>(f: T -> U, s: seq<T>): (r: seq<U>)
    ensures |r| == |s|
    ensures forall i :: 0 <= i < |s| ==> r[i] == f(s[i])
    decreases s
  {
    if s == [] then [] else [f(s[0])] + Map(f, s[1..])
  }

  /** Filtering distributes over concatenation; with the one-element case this pins
      down that `Filter` keeps the original relative order. */
  lemma {:induction false} FilterAppend<T(!new)>(p: T -> bool, s: seq<T>, t: seq<T>)
    ensures Filter(p, s + t) == Filter(p, s) + Filter(p, t)
    decreases s
  {
    if s == [] {
      assert s + t == t;
    } else {
      assert (s + t)[1..] == s[1..] + t;
      FilterAppend(p, s[1..], t);
    }
  }

  lemma FilterSingleton<T(!new)>(p: T -> bool, x: T)
    ensures Filter(p, [x]) == if p(x) then [x] else []
  {
    assert [x][1..] == [];
  }

  /** `r` can be read off `s` left to right, skipping elements: `r` keeps the
      relative order of the elements it takes from `s`. */
  predicate Subsequence<T(==)>(r: seq<T>, s: seq<T>)
    decreases |s|
  {
    r == [] || (s != [] && ((r[0] == s[0] && Subsequence(r[1..], s[1..])) || Subsequence(r, s[1..])))
  }

  /** `Filter` keeps the original order. */
  lemma {:induction false} FilterSubsequence<T(!new)>(p: T -> bool, s: seq<T>)
    ensures Subsequence(Filter(p, s), s)
    decreases s
  {
    if s != [] {
      FilterSubsequence(p, s[1..]);
      var r := Filter(p, s);
      if p(s[0]) {
        assert r[0] == s[0] && r[1..] == Filter(p, s[1..]);
      } else {
        assert r == Filter(p, s[1..]);
      }
    }
  }

  lemma {:induction false} SubsequenceOfSelf<T>(s: seq<T>)
    ensures Subsequence(s, s)
    decreases |s|
  {
    if s != [] {
      SubsequenceOfSelf(s[1..]);
    }
  }

  /** A prefix of a subsequence of `s` is a subsequence of `s`. */
  lemma {:induction false} PrefixSubsequence<T>(q: seq<T>, r: seq<T>, s: seq<T>)
    requires q <= r && Subsequence(r, s)
    ensures Subsequence(q, s)
    decreases |s|
  {
    if q != [] {
      assert r != [] && s != [];
      if r[0] == s[0] && Subsequence(r[1..], s[1..]) {
        assert q[1..] <= r[1..];
        PrefixSubsequence(q[1..], r[1..], s[1..]);
      } else {
        PrefixSubsequence(q, r, s[1..]);
      }
    }
  }

  /** Projecting both sides keeps a subsequence a subsequence. */
  lemma {:induction false} MapSubsequence<T, U>(f: T -> U, r: seq<T>, s: seq<T>)
    requires Subsequence(r, s)
    ensures Subsequence(Map(f, r), Map(f, s))
    decreases |s|
  {
    if r != [] {
      assert Map(f, s)[1..] == Map(f, s[1..]);
      if r[0] == s[0] && Subsequence(r[1..], s[1..]) {
        MapSubsequence(f, r[1..], s[1..]);
        assert Map(f, r)[1..] == Map(f, r[1..]);
      } else {
        MapSubsequence(f, r, s[1..]);
      }
    }
  }

  /** The length of `Filter` is the number of positions whose element
      satisfies `p`: no element is dropped twice or kept twice. */
  lemma {:induction false} FilterCount<T(!new)>(p: T -> bool, s: seq<T>) returns (positions: set<int>)
    ensures positions == set i | 0 <= i < |s| && p(s[i])
    ensures |Filter(p, s)| == |positions|
    decreases |s|
  {
    positions := set i | 0 <= i < |s| && p(s[i]);
    if s != [] {
      var n := |s| - 1;
      var t := s[..n];
      var before := FilterCount(p, t);
      assert s == t + [s[n]];
      FilterAppend(p, t, [s[n]]);
      FilterSingleton(p, s[n]);
      assert positions == if p(s[n]) then before + {n} else before;
      assert n !in before;
    }
  }

  /** Filtering with a predicate every element satisfies changes nothing. */
  lemma {:induction false} FilterKeepsAll<T(!new)>(p: T -> bool, s: seq<T>)
    requires forall i :: 0 <= i < |s| ==> p(s[i])
    ensures Filter(p, s) == s
    decreases s
  {
    if s != [] {
      FilterKeepsAll(p, s[1..]);
    }
  }

  /** Filtering with a predicate no element satisfies gives the empty list. */
  lemma {:induction false} FilterDropsAll<T(!new)>(p: T -> bool, s: seq<T>)
    requires forall i :: 0 <= i < |s| ==> !p(s[i])
    ensures Filter(p, s) == []
    decreases s
  {
    if s != [] {
      FilterDropsAll(p, s[1..]);
    }
  }

  lemma {:induction false} MapAppend<T, U>(f: T -> U, s: seq<T>, t: seq<T>)
    ensures Map(f, s + t) == Map(f, s) + Map(f, t)
  {
  }

  /** No two positions of `s` hold the same value. */
  predicate Distinct<T(==)>(s: seq<T>)
  {
    forall i, j :: 0 <= i < j < |s| ==> s[i] != s[j]
  }

  function Min(a: int, b: int): int
  {
    if a <= b then a else b
  }
}
