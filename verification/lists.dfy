/** List operations shared by the components: the `Array.prototype.filter`
    that every delete handler and every status filter uses, and the
    "keeps the original order" relation its results stand in. */
module Lists {

  datatype Option<+T> = None | Some(value: T)

  /** r is obtained from s by dropping some elements and keeping the rest in order. */
  ghost predicate IsSubsequence<T>(r: seq<T>, s: seq<T>)
    decreases |s|
  {
    && |r| <= |s|
    && (r == []
        || (s != [] && ((r[0] == s[0] && IsSubsequence(r[1..], s[1..])) || IsSubsequence(r, s[1..]))))
  }

  /** `s.filter(p)`: the elements of s that satisfy p, in their original order. */
  function Filter<T(!new)>(s: seq<T>, p: T -> bool): (r: seq<T>)
    ensures |r| <= |s|
    ensures forall x :: x in r <==> x in s && p(x)
  {
    if s == [] then []
    else
      var rest := Filter(s[1..], p);
      assert s == [s[0]] + s[1..];
      if p(s[0]) then [s[0]] + rest else rest
  }

  /** The filter keeps the surviving elements in their original order. */
  lemma {:induction false} FilterIsSubsequence<T(!new)>(s: seq<T>, p: T -> bool)
    ensures IsSubsequence(Filter(s, p), s)
  {
    if s != [] {
      FilterIsSubsequence(s[1..], p);
      assert s == [s[0]] + s[1..];
    }
  }

  /** Filtering drops nothing exactly when every element passes. */
  lemma {:induction false} FilterKeepsAllIff<T(!new)>(s: seq<T>, p: T -> bool)
    ensures Filter(s, p) == s <==> forall x :: x in s ==> p(x)
    ensures |Filter(s, p)| == |s| <==> forall x :: x in s ==> p(x)
  {
    if s != [] {
      FilterKeepsAllIff(s[1..], p);
      assert s == [s[0]] + s[1..];
      if !p(s[0]) {
        assert |Filter(s, p)| == |Filter(s[1..], p)| <= |s[1..]| < |s|;
      }
    }
  }

  /** Filtering an already filtered list again changes nothing. */
  lemma {:induction false} FilterIdempotent<T(!new)>(s: seq<T>, p: T -> bool)
    ensures Filter(Filter(s, p), p) == Filter(s, p)
  {
    FilterKeepsAllIff(Filter(s, p), p);
  }

  /** Filtering leaves nothing exactly when no element passes. */
  lemma {:induction false} FilterNoneIff<T(!new)>(s: seq<T>, p: T -> bool)
    ensures Filter(s, p) == [] <==> forall x :: x in s ==> !p(x)
  {
    if Filter(s, p) != [] {
      assert Filter(s, p)[0] in Filter(s, p);
    }
  }

  /** The part of a one-element list that the filter keeps. */
  function Kept<T>(x: T, p: T -> bool): seq<T>
  {
    if p(x) then [x] else []
  }

  /** One step of the filter: the head is kept in front exactly when it passes. */
  lemma FilterCons<T(!new)>(x: T, s: seq<T>, p: T -> bool)
    ensures Filter([x] + s, p) == Kept(x, p) + Filter(s, p)
  {
    assert ([x] + s)[1..] == s;
  }

  /** Every element that passes is kept as often as it occurs; every element
      that fails is dropped altogether. */
  lemma {:induction false} FilterMultiset<T(!new)>(s: seq<T>, p: T -> bool)
    ensures forall x :: multiset(Filter(s, p))[x] == if p(x) then multiset(s)[x] else 0
  {
    if s != [] {
      FilterMultiset(s[1..], p);
      assert s == [s[0]] + s[1..];
    }
  }

  /** How many elements of s satisfy p, counted one element at a time. */
  function Count<T>(s: seq<T>, p: T -> bool): (r: nat)
    ensures r <= |s|
  {
    if s == [] then 0 else (if p(s[0]) then 1 else 0) + Count(s[1..], p)
  }

  /** The filtered list is as long as the number of elements that pass. */
  lemma {:induction false} FilterLength<T(!new)>(s: seq<T>, p: T -> bool)
    ensures |Filter(s, p)| == Count(s, p)
  {
    if s != [] {
      FilterLength(s[1..], p);
    }
  }

  /** Filtering a concatenation filters each part. */
  lemma {:induction false} FilterConcat<T(!new)>(s: seq<T>, t: seq<T>, p: T -> bool)
    ensures Filter(s + t, p) == Filter(s, p) + Filter(t, p)
  {
    if s == [] {
      assert s + t == t;
    } else {
      var x, rest := s[0], s[1..];
      assert s == [x] + rest;
      assert s + t == [x] + (rest + t);
      calc {
        Filter(s + t, p);
        { FilterCons(x, rest + t, p); }
        Kept(x, p) + Filter(rest + t, p);
        { FilterConcat(rest, t, p); }
        Kept(x, p) + (Filter(rest, p) + Filter(t, p));
        { FilterCons(x, rest, p); }
        Filter(s, p) + Filter(t, p);
      }
    }
  }

  /** Filtering a two-element list. */
  lemma FilterPair<T(!new)>(a: T, b: T, p: T -> bool)
    ensures Filter([a, b], p) == Kept(a, p) + Kept(b, p)
  {
    FilterCons(b, [], p);
    assert [b] + [] == [b];
    FilterCons(a, [b], p);
    assert [a] + [b] == [a, b];
  }
}
