/** Generic sequence operations standing for the JavaScript array methods the
    source uses: `filter`, `map` and `[...new Set(xs)]` (de-duplication that
    keeps first occurrences). */
module Seqs {

  /** `s.filter(p)`: the elements of `s` that satisfy `p`, in their order. */
  function Filter<T>(s: seq<T>, p: T -> bool): (r: seq<T>)
    ensures |r| <= |s|
    ensures forall k :: 0 <= k < |r| ==> r[k] in s && p(r[k])
    ensures forall k :: 0 <= k < |s| && p(s[k]) ==> s[k] in r
    decreases |s|
  {
    if s == [] then [] else (if p(s[0]) then [s[0]] else []) + Filter(s[1..], p)
  }

  /** Filtering a concatenation filters each part: the filter keeps order. */
  lemma {:induction false} FilterConcat<T>(a: seq<T>, b: seq<T>, p: T -> bool)
    ensures Filter(a + b, p) == Filter(a, p) + Filter(b, p)
    decreases |a|
  {
    if a == [] {
      assert a + b == b;
    } else {
      assert (a + b)[1..] == a[1..] + b;
      FilterConcat(a[1..], b, p);
    }
  }

  /** A filter whose predicate every element meets changes nothing. */
  lemma {:induction false} FilterKeepsAll<T>(s: seq<T>, p: T -> bool)
    requires forall k :: 0 <= k < |s| ==> p(s[k])
    ensures Filter(s, p) == s
    decreases |s|
  {
    if s != [] {
      FilterKeepsAll(s[1..], p);
    }
  }

  /** A filter that drops exactly the element at `i` leaves the others in
      their order. */
  lemma {:induction false} FilterDrop<T>(s: seq<T>, i: nat, p: T -> bool)
    requires i < |s| && !p(s[i]) && forall k :: 0 <= k < |s| && k != i ==> p(s[k])
    ensures Filter(s, p) == s[..i] + s[i + 1..]
    decreases i
  {
    var tail := s[1..];
    if i == 0 {
      forall k | 0 <= k < |tail| ensures p(tail[k]) {
        assert tail[k] == s[k + 1];
      }
      FilterKeepsAll(tail, p);
      assert s[..0] + s[1..] == tail;
    } else {
      forall k | 0 <= k < |tail| && k != i - 1 ensures p(tail[k]) {
        assert tail[k] == s[k + 1];
      }
      FilterDrop(tail, i - 1, p);
      assert [s[0]] + (tail[..i - 1] + tail[i..]) == s[..i] + s[i + 1..];
    }
  }

  /** `FilterDrop` for every position that is the only one the filter
      drops. */
  lemma DropsOnlyAt<T>(s: seq<T>, p: T -> bool)
    ensures forall i :: 0 <= i < |s| && !p(s[i]) && (forall k :: 0 <= k < |s| && k != i ==> p(s[k])) ==>
              Filter(s, p) == s[..i] + s[i + 1..]
  {
    forall i | 0 <= i < |s| && !p(s[i]) && (forall k :: 0 <= k < |s| && k != i ==> p(s[k]))
      ensures Filter(s, p) == s[..i] + s[i + 1..]
    {
      FilterDrop(s, i, p);
    }
  }

  /** A filter over a front block that meets the predicate followed by a
      block that does not keeps exactly the front block. */
  lemma FrontBlock<T>(s: seq<T>, p: T -> bool)
    ensures forall j :: 0 <= j <= |s| && (forall k :: 0 <= k < j ==> p(s[k])) && (forall k :: j <= k < |s| ==> !p(s[k])) ==>
              Filter(s, p) == s[..j]
  {
    forall j | 0 <= j <= |s| && (forall k :: 0 <= k < j ==> p(s[k])) && (forall k :: j <= k < |s| ==> !p(s[k]))
      ensures Filter(s, p) == s[..j]
    {
      var front, back := s[..j], s[j..];
      assert s == front + back;
      FilterConcat(front, back, p);
      FilterKeepsAll(front, p);
      forall k | 0 <= k < |back| ensures !p(back[k]) {
        assert back[k] == s[j + k];
      }
      FilterKeepsNone(back, p);
    }
  }

  /** A filter whose predicate no element meets keeps nothing. */
  lemma {:induction false} FilterKeepsNone<T>(s: seq<T>, p: T -> bool)
    requires forall k :: 0 <= k < |s| ==> !p(s[k])
    ensures Filter(s, p) == []
    decreases |s|
  {
    if s != [] {
      FilterKeepsNone(s[1..], p);
    }
  }

  /** `s.map(f)`. */
  function Map<A, B>(s: seq<A>, f: A -> B): (r: seq<B>)
    ensures |r| == |s|
    ensures forall k :: 0 <= k < |s| ==> r[k] == f(s[k])
  {
    seq(|s|, k requires 0 <= k < |s| => f(s[k]))
  }

  /** No element occurs twice. */
  predicate Distinct<T(==)>(s: seq<T>) {
    forall i, j :: 0 <= i < j < |s| ==> s[i] != s[j]
  }

  /** The loop behind `new Set(xs)`: each element of `xs` is added to `acc`
      unless it is already there. */
  function DedupFrom<T(==)>(acc: seq<T>, xs: seq<T>): (r: seq<T>)
    requires Distinct(acc)
    ensures Distinct(r)
    ensures |acc| <= |r| && r[..|acc|] == acc
    ensures forall k :: 0 <= k < |r| ==> r[k] in acc || r[k] in xs
    ensures forall k :: 0 <= k < |xs| ==> xs[k] in r
    decreases |xs|
  {
    if xs == [] then acc
    else
      var acc' := if xs[0] in acc then acc else acc + [xs[0]];
      var r := DedupFrom(acc', xs[1..]);
      assert forall k :: 0 <= k < |acc'| ==> acc'[k] == r[k];
      assert xs[0] in acc';
      assert forall k :: 1 <= k < |xs| ==> xs[k] == xs[1..][k - 1];
      r
  }

  /** `[...new Set(xs)]`: the elements of `xs` in order of first occurrence. */
  function Dedup<T(==)>(xs: seq<T>): seq<T> {
    DedupFrom([], xs)
  }

  /** Adding a concatenation is adding its parts one after the other. */
  lemma {:induction false} DedupFromConcat<T>(acc: seq<T>, a: seq<T>, b: seq<T>)
    requires Distinct(acc)
    ensures DedupFrom(acc, a + b) == DedupFrom(DedupFrom(acc, a), b)
    decreases |a|
  {
    if a == [] {
      assert a + b == b;
    } else {
      assert (a + b)[1..] == a[1..] + b;
      var acc' := if a[0] in acc then acc else acc + [a[0]];
      DedupFromConcat(acc', a[1..], b);
    }
  }

  /** De-duplicating a list without repeats returns it unchanged. */
  lemma {:induction false} DedupFromDistinct<T>(acc: seq<T>, xs: seq<T>)
    requires Distinct(acc) && Distinct(acc + xs)
    ensures DedupFrom(acc, xs) == acc + xs
    decreases |xs|
  {
    if xs != [] {
      assert xs[0] !in acc by {
        forall i | 0 <= i < |acc| ensures acc[i] != xs[0] {
          assert (acc + xs)[i] == acc[i] && (acc + xs)[|acc|] == xs[0];
        }
      }
      assert acc + xs == (acc + [xs[0]]) + xs[1..];
      assert Distinct(acc + [xs[0]]) by {
        forall i, j | 0 <= i < j < |acc| + 1 ensures (acc + [xs[0]])[i] != (acc + [xs[0]])[j] {
          assert (acc + [xs[0]])[i] == (acc + xs)[i] && (acc + [xs[0]])[j] == (acc + xs)[j];
        }
      }
      DedupFromDistinct(acc + [xs[0]], xs[1..]);
    }
  }

  /** A prefix without repeats survives de-duplication as a prefix,
      whatever follows it. */
  lemma DedupKeepsDistinctPrefix<T>(p: seq<T>, q: seq<T>)
    requires Distinct(p)
    ensures |p| <= |Dedup(p + q)| && Dedup(p + q)[..|p|] == p
  {
    DedupFromConcat([], p, q);
    assert [] + p == p;
    DedupFromDistinct([], p);
  }

  /** De-duplication starts with the first element and leaves a list
      without repeats as it is. */
  lemma DedupOrder<T>(xs: seq<T>)
    ensures |xs| > 0 ==> |Dedup(xs)| > 0 && Dedup(xs)[0] == xs[0]
    ensures Distinct(xs) ==> Dedup(xs) == xs
  {
    if Distinct(xs) {
      assert [] + xs == xs;
      DedupFromDistinct([], xs);
    }
    if |xs| > 0 {
      DedupKeepsDistinctPrefix(xs[..1], xs[1..]);
      assert xs[..1] + xs[1..] == xs;
    }
  }
}
