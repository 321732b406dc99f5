/**
 * Order-preserving filtering over sequences, with the positions of the kept
 * elements. Both are defined by recursion on the LAST element, the shape of a
 * loop that walks an input left to right and appends to its output.
 */
module Seqs {

  /** The elements of `s` that satisfy `p`, in their original order. */
  function Filter<T>(s: seq<T>, p: T -> bool): (r: seq<T>)
    ensures |r| <= |s|
    ensures forall x :: x in r ==> x in s && p(x)
  {
    if |s| == 0 then []
    else
      var init := Filter(s[..|s| - 1], p);
      if p(s[|s| - 1]) then init + [s[|s| - 1]] else init
  }

  /** The indices of `s` whose elements satisfy `p`, in increasing order. */
  function Positions<T>(s: seq<T>, p: T -> bool): (r: seq<nat>)
    ensures |r| == |Filter(s, p)|
    ensures forall j :: 0 <= j < |r| ==> r[j] < |s|
  {
    if |s| == 0 then []
    else
      var init := Positions(s[..|s| - 1], p);
      if p(s[|s| - 1]) then init + [|s| - 1] else init
  }

  /** `f` applied to every element of `s`, in order. */
  function MapSeq<A, B>(s: seq<A>, f: A -> B): (r: seq<B>)
    ensures |r| == |s|
    ensures forall i :: 0 <= i < |s| ==> r[i] == f(s[i])
  {
    seq(|s|, i requires 0 <= i < |s| => f(s[i]))
  }

  ghost predicate StrictlyIncreasing(xs: seq<nat>)
  {
    forall j, k :: 0 <= j < k < |xs| ==> xs[j] < xs[k]
  }

  /**
   * `Filter(s, p)` is exactly the subsequence of `s` picked out by the
   * strictly increasing index list `Positions(s, p)`, and an index is picked
   * if and only if its element satisfies `p`: nothing is reordered,
   * duplicated, invented or dropped.
   */
  lemma FilterPositions<T>(s: seq<T>, p: T -> bool)
    ensures StrictlyIncreasing(Positions(s, p))
    ensures forall j :: 0 <= j < |Positions(s, p)| ==> Filter(s, p)[j] == s[Positions(s, p)[j]]
    ensures forall i :: 0 <= i < |s| ==> (i in Positions(s, p) <==> p(s[i]))
  {
    PositionsIncreasing(s, p);
    FilterAtPositions(s, p);
    PositionsExact(s, p);
  }

  lemma {:induction false} PositionsIncreasing<T>(s: seq<T>, p: T -> bool)
    ensures StrictlyIncreasing(Positions(s, p))
  {
    if |s| > 0 {
      var init := s[..|s| - 1];
      PositionsIncreasing(init, p);
    }
  }

  lemma {:induction false} FilterAtPositions<T>(s: seq<T>, p: T -> bool)
    ensures forall j :: 0 <= j < |Positions(s, p)| ==> Filter(s, p)[j] == s[Positions(s, p)[j]]
  {
    if |s| > 0 {
      var init := s[..|s| - 1];
      FilterAtPositions(init, p);
      var pos, f := Positions(init, p), Filter(init, p);
      forall j | 0 <= j < |Positions(s, p)|
        ensures Filter(s, p)[j] == s[Positions(s, p)[j]]
      {
        if j < |pos| {
          assert Positions(s, p)[j] == pos[j] && Filter(s, p)[j] == f[j];
          assert init[pos[j]] == s[pos[j]];
        }
      }
    }
  }

  lemma {:induction false} PositionsExact<T>(s: seq<T>, p: T -> bool)
    ensures forall i :: 0 <= i < |s| ==> (i in Positions(s, p) <==> p(s[i]))
  {
    if |s| > 0 {
      var init := s[..|s| - 1];
      PositionsExact(init, p);
      var pos := Positions(init, p);
      assert Positions(s, p) == if p(s[|s| - 1]) then pos + [|s| - 1] else pos;
      forall i | 0 <= i < |s|
        ensures i in Positions(s, p) <==> p(s[i])
      {
        if i < |s| - 1 {
          assert init[i] == s[i];
          assert i in Positions(s, p) <==> i in pos;
        }
      }
    }
  }

  /** When every element satisfies `p`, filtering changes nothing. */
  lemma {:induction false} FilterAll<T>(s: seq<T>, p: T -> bool)
    requires forall i :: 0 <= i < |s| ==> p(s[i])
    ensures Filter(s, p) == s
  {
    if |s| > 0 {
      FilterAll(s[..|s| - 1], p);
      assert s[..|s| - 1] + [s[|s| - 1]] == s;
    }
  }

  /** Filtering a sequence extended by one element extends the filtered prefix. */
  lemma FilterSnoc<T>(s: seq<T>, x: T, p: T -> bool)
    ensures Filter(s + [x], p) == if p(x) then Filter(s, p) + [x] else Filter(s, p)
  {
    assert (s + [x])[..|s + [x]| - 1] == s;
  }

  /** Mapping a sequence extended by one element extends the mapped prefix. */
  lemma MapSeqSnoc<A, B>(s: seq<A>, x: A, f: A -> B)
    ensures MapSeq(s + [x], f) == MapSeq(s, f) + [f(x)]
  {
  }
}
