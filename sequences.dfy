/**
 * The finite-sequence combinators the query pipeline is assembled from:
 * `transform`, `filter`, `limit`, `partition` and `concat` of the Guava and
 * mango collection libraries, restricted to what is observable on a fully
 * drained sequence.
 */
module Sequences {

  /** `transform`: applies `f` to every element, keeping order and length. */
  function Map<A, B>(f: A -> B, s: seq<A>): (r: seq<B>)
    ensures |r| == |s|
    ensures forall i :: 0 <= i < |s| ==> r[i] == f(s[i])
    decreases |s|
  {
    if s == [] then [] else [f(s[0])] + Map(f, s[1..])
  }

  /** `filter`: keeps, in order, exactly the elements that satisfy `p`. */
  function Filter<T>(p: T -> bool, s: seq<T>): (r: seq<T>)
    ensures |r| <= |s|
    ensures forall i :: 0 <= i < |r| ==> r[i] in s && p(r[i])
    ensures forall i :: 0 <= i < |s| && p(s[i]) ==> s[i] in r
    decreases |s|
  {
    if s == [] then []
    else (if p(s[0]) then [s[0]] else []) + Filter(p, s[1..])
  }

  /** Filtering keeps every passing element as often as it occurs, and drops every other. */
  lemma {:induction false} FilterMultiset<T>(p: T -> bool, s: seq<T>)
    ensures forall x :: multiset(Filter(p, s))[x] == if p(x) then multiset(s)[x] else 0
    decreases |s|
  {
    if s != [] {
      FilterMultiset(p, s[1..]);
      assert s == [s[0]] + s[1..];
    }
  }

  /** Filtering keeps order: it distributes over concatenation. */
  lemma {:induction false} FilterAppend<T>(p: T -> bool, a: seq<T>, b: seq<T>)
    ensures Filter(p, a + b) == Filter(p, a) + Filter(p, b)
    decreases |a|
  {
    if a != [] {
      FilterAppend(p, a[1..], b);
      assert (a + b)[1..] == a[1..] + b;
    } else {
      assert a + b == b;
    }
  }

  /** `limit`: the first `n` elements, or all of them when there are fewer. */
  function Take<T>(s: seq<T>, n: nat): (r: seq<T>)
    ensures |r| == if n < |s| then n else |s|
    ensures r <= s
  {
    if n < |s| then s[..n] else s
  }

  /**
   * `partition`: consecutive slices of `n` elements (the last one possibly
   * shorter); the empty sequence has no slices.
   */
  function Chunk<T>(s: seq<T>, n: nat): (r: seq<seq<T>>)
    requires n > 0
    ensures forall i :: 0 <= i < |r| ==> 0 < |r[i]| <= n
    ensures forall i :: 0 <= i < |r| - 1 ==> |r[i]| == n
    decreases |s|
  {
    if |s| == 0 then []
    else if |s| <= n then [s]
    else [s[..n]] + Chunk(s[n..], n)
  }

  /** A partition into slices of 50 has ceil(|s| / 50) slices. */
  lemma {:induction false} ChunkCount50<T>(s: seq<T>)
    ensures |Chunk(s, 50)| == (|s| + 49) / 50
    decreases |s|
  {
    if |s| > 50 {
      ChunkCount50(s[50..]);
    }
  }

  /** 101 elements make three slices: 50, 50 and 1. */
  lemma Chunk101<T>(s: seq<T>)
    requires |s| == 101
    ensures var r := Chunk(s, 50); |r| == 3 && |r[0]| == 50 && |r[1]| == 50 && |r[2]| == 1
  {
    ChunkCount50(s);
    FlattenChunk(s, 50);
    var r := Chunk(s, 50);
    assert r[1..][1..][1..] == [];
    assert Flatten(r) == r[0] + Flatten(r[1..]);
    assert Flatten(r[1..]) == r[1] + Flatten(r[1..][1..]);
    assert Flatten(r[1..][1..]) == r[2] + Flatten(r[1..][1..][1..]);
  }

  /** `concat`: the elements of every slice, slice after slice. */
  function Flatten<T>(ss: seq<seq<T>>): seq<T>
    decreases |ss|
  {
    if ss == [] then [] else ss[0] + Flatten(ss[1..])
  }

  /** Concatenating the slices of a partition gives back the sequence. */
  lemma {:induction false} FlattenChunk<T>(s: seq<T>, n: nat)
    requires n > 0
    ensures Flatten(Chunk(s, n)) == s
    decreases |s|
  {
    if |s| == 0 {
    } else if |s| <= n {
      assert Flatten([s]) == s + Flatten([]);
    } else {
      FlattenChunk(s[n..], n);
      var r := Chunk(s, n);
      assert r == [s[..n]] + Chunk(s[n..], n);
      assert r[1..] == Chunk(s[n..], n);
      assert s == s[..n] + s[n..];
    }
  }

  /** Transforming distributes over concatenation. */
  lemma {:induction false} MapAppend<A, B>(f: A -> B, a: seq<A>, b: seq<A>)
    ensures Map(f, a + b) == Map(f, a) + Map(f, b)
  {
  }

  /** Two transforms in a row are one transform by their composition. */
  lemma MapCompose<A, B, C>(f: B -> C, g: A -> B, h: A -> C, s: seq<A>)
    requires forall x :: h(x) == f(g(x))
    ensures Map(f, Map(g, s)) == Map(h, s)
  {
  }

  /** Transforming every slice and concatenating is transforming the concatenation. */
  lemma {:induction false} FlattenMap<A, B>(f: A -> B, ss: seq<seq<A>>, ts: seq<seq<B>>)
    requires |ts| == |ss|
    requires forall i :: 0 <= i < |ss| ==> ts[i] == Map(f, ss[i])
    ensures Flatten(ts) == Map(f, Flatten(ss))
    decreases |ss|
  {
    if ss != [] {
      FlattenMap(f, ss[1..], ts[1..]);
      MapAppend(f, ss[0], Flatten(ss[1..]));
    }
  }

  /** Slice-wise equal lengths give equal total lengths. */
  lemma {:induction false} FlattenSameLengths<A, B>(xs: seq<seq<A>>, ys: seq<seq<B>>)
    requires |xs| == |ys|
    requires forall i :: 0 <= i < |xs| ==> |ys[i]| == |xs[i]|
    ensures |Flatten(ys)| == |Flatten(xs)|
    decreases |xs|
  {
    if xs != [] {
      FlattenSameLengths(xs[1..], ys[1..]);
    }
  }
}
