/**
 * Values laid out per segment and, inside a segment, per ion, as the two
 * nested loops of the scored-spectrum queries visit them: segment after
 * segment, and in list order inside a segment. A loop position (seg, i) is
 * "segment seg, about to look at its i-th ion"; the end is (number of
 * segments, 0).
 */
module LoopOrder {
  import opened Wrappers
  import FirstMax

  predicate Position<X>(t: seq<seq<X>>, seg: nat, i: nat)
  {
    seg <= |t| && (if seg < |t| then i <= |t[seg]| else i == 0)
  }

  /** The entries the loops have passed on reaching position (seg, i), in loop order. */
  function Before<X>(t: seq<seq<X>>, seg: nat, i: nat): seq<X>
    requires Position(t, seg, i)
    decreases seg, i
  {
    if i > 0 then Before(t, seg, i - 1) + [t[seg][i - 1]]
    else if seg == 0 then []
    else Before(t, seg - 1, |t[seg - 1]|)
  }

  /** Every entry, in loop order. */
  function All<X>(t: seq<seq<X>>): seq<X>
  {
    Before(t, |t|, 0)
  }

  function Sum(xs: seq<real>): real
  {
    if xs == [] then 0.0 else Sum(xs[..|xs| - 1]) + xs[|xs| - 1]
  }

  /** The running sum held by a loop that adds every entry, on reaching (seg, i). */
  function SumBefore(t: seq<seq<real>>, seg: nat, i: nat): real
    requires Position(t, seg, i)
    decreases seg, i
  {
    if i > 0 then SumBefore(t, seg, i - 1) + t[seg][i - 1]
    else if seg == 0 then 0.0
    else SumBefore(t, seg - 1, |t[seg - 1]|)
  }

  /** The best-so-far held by a loop that steps FirstMax over every entry, on reaching (seg, i). */
  function BestBefore<T>(t: seq<seq<Option<(real, T)>>>, seg: nat, i: nat): FirstMax.Best<T>
    requires Position(t, seg, i)
    decreases seg, i
  {
    if i > 0 then FirstMax.Step(BestBefore(t, seg, i - 1), t[seg][i - 1])
    else if seg == 0 then FirstMax.Best(None, 0.0)
    else BestBefore(t, seg - 1, |t[seg - 1]|)
  }

  lemma SumSnoc(xs: seq<real>, x: real)
    ensures Sum(xs + [x]) == Sum(xs) + x
  {
    assert (xs + [x])[..|xs|] == xs;
  }

  /** The running sum of the nested loops is the sum of the entries passed so far. */
  lemma {:induction false} SumBeforeIsSum(t: seq<seq<real>>, seg: nat, i: nat)
    requires Position(t, seg, i)
    ensures SumBefore(t, seg, i) == Sum(Before(t, seg, i))
    decreases seg, i
  {
    if i > 0 {
      SumBeforeIsSum(t, seg, i - 1);
      SumSnoc(Before(t, seg, i - 1), t[seg][i - 1]);
    } else if seg > 0 {
      SumBeforeIsSum(t, seg - 1, |t[seg - 1]|);
    }
  }

  /** The running best of the nested loops is the scan of the entries passed so far. */
  lemma {:induction false} BestBeforeIsScan<T>(t: seq<seq<Option<(real, T)>>>, seg: nat, i: nat)
    requires Position(t, seg, i)
    ensures BestBefore(t, seg, i) == FirstMax.Scan(Before(t, seg, i))
    decreases seg, i
  {
    if i > 0 {
      BestBeforeIsScan(t, seg, i - 1);
      FirstMax.ScanSnoc(Before(t, seg, i - 1), t[seg][i - 1]);
    } else if seg > 0 {
      BestBeforeIsScan(t, seg - 1, |t[seg - 1]|);
    }
  }

  /** Inside a segment, the entries passed are those of the earlier segments and then a prefix of this one. */
  lemma {:induction false} BeforeRow<X>(t: seq<seq<X>>, seg: nat, i: nat)
    requires seg < |t| && i <= |t[seg]|
    ensures Before(t, seg, i) == Before(t, seg, 0) + t[seg][..i]
  {
    if i > 0 {
      BeforeRow(t, seg, i - 1);
      assert t[seg][..i] == t[seg][..i - 1] + [t[seg][i - 1]];
    }
  }

  /** What the loops have passed on finishing a segment is a prefix of what they pass later. */
  lemma {:induction false} BeforeGrows<X>(t: seq<seq<X>>, s: nat, seg: nat, i: nat)
    requires Position(t, seg, i) && s < seg
    ensures Before(t, s + 1, 0) <= Before(t, seg, i)
    decreases seg, i
  {
    if i > 0 {
      BeforeGrows(t, s, seg, i - 1);
    } else if s + 1 < seg {
      BeforeGrows(t, s, seg - 1, |t[seg - 1]|);
    }
  }

  /** How many entries the loops pass before reaching segment s. */
  function Offset<X>(t: seq<seq<X>>, s: nat): nat
    requires s <= |t|
  {
    |Before(t, s, 0)|
  }

  /**
   * Where each entry sits in loop order: the j-th entry of segment s comes
   * right after all entries of the segments before s and the first j of its
   * own segment.
   */
  lemma AllIndex<X>(t: seq<seq<X>>, s: nat, j: nat)
    requires s < |t| && j < |t[s]|
    ensures Offset(t, s) + j < |All(t)|
    ensures All(t)[Offset(t, s) + j] == t[s][j]
  {
    BeforeRow(t, s, |t[s]|);
    assert t[s][..|t[s]|] == t[s];
    BeforeGrows(t, s, |t|, 0);
  }

  /** Segment s occupies the |t[s]| positions from Offset(t, s) on, and the last segment ends all of them. */
  lemma OffsetStep<X>(t: seq<seq<X>>, s: nat)
    requires s < |t|
    ensures Offset(t, s + 1) == Offset(t, s) + |t[s]|
    ensures |All(t)| == Offset(t, |t|)
  {
    BeforeRow(t, s, |t[s]|);
  }

  /** The positions of a segment all come before those of any later segment. */
  lemma {:induction false} OffsetGrows<X>(t: seq<seq<X>>, s: nat, s': nat)
    requires s < s' <= |t|
    ensures Offset(t, s) + |t[s]| <= Offset(t, s')
    decreases s'
  {
    OffsetStep(t, s);
    if s + 1 < s' {
      OffsetGrows(t, s, s' - 1);
      OffsetStep(t, s' - 1);
    }
  }

  /** Every position in loop order is the position of some entry (s, j). */
  lemma {:induction false} Locate<X>(t: seq<seq<X>>, k: nat) returns (s: nat, j: nat)
    requires k < |All(t)|
    ensures s < |t| && j < |t[s]| && k == Offset(t, s) + j
  {
    OffsetStep(t, 0);
    s, j := LocateBelow(t, |t|, k);
  }

  lemma {:induction false} LocateBelow<X>(t: seq<seq<X>>, bound: nat, k: nat) returns (s: nat, j: nat)
    requires bound <= |t| && k < Offset(t, bound)
    ensures s < bound && j < |t[s]| && k == Offset(t, s) + j
    decreases bound
  {
    if bound > 0 {
      OffsetStep(t, bound - 1);
      if k >= Offset(t, bound - 1) {
        s, j := bound - 1, k - Offset(t, bound - 1);
      } else {
        s, j := LocateBelow(t, bound - 1, k);
      }
    }
  }

  /** No two entries share a position: the positions of the entries cover loop order exactly once. */
  lemma PositionsDistinct<X>(t: seq<seq<X>>, s: nat, j: nat, s': nat, j': nat)
    requires s < |t| && j < |t[s]| && s' < |t| && j' < |t[s']|
    requires Offset(t, s) + j == Offset(t, s') + j'
    ensures s == s' && j == j'
  {
    if s < s' {
      OffsetGrows(t, s, s');
    } else if s' < s {
      OffsetGrows(t, s', s);
    }
  }

  /** A sum of non-negative values is non-negative and at least each of them. */
  lemma {:induction false} SumBounds(xs: seq<real>)
    requires forall k :: 0 <= k < |xs| ==> xs[k] >= 0.0
    ensures Sum(xs) >= 0.0
    ensures forall k :: 0 <= k < |xs| ==> xs[k] <= Sum(xs)
  {
    if xs != [] {
      var init := xs[..|xs| - 1];
      assert forall k :: 0 <= k < |init| ==> init[k] == xs[k];
      SumBounds(init);
    }
  }

  /** When every entry is 0, so is the sum of all of them. */
  lemma AllZero(t: seq<seq<real>>)
    requires forall s, j :: 0 <= s < |t| && 0 <= j < |t[s]| ==> t[s][j] == 0.0
    ensures Sum(All(t)) == 0.0
  {
    SumBeforeZero(t, |t|, 0);
    SumBeforeIsSum(t, |t|, 0);
  }

  lemma {:induction false} SumBeforeZero(t: seq<seq<real>>, seg: nat, i: nat)
    requires Position(t, seg, i)
    requires forall s, j :: 0 <= s < |t| && 0 <= j < |t[s]| ==> t[s][j] == 0.0
    ensures SumBefore(t, seg, i) == 0.0
    decreases seg, i
  {
    if i > 0 {
      SumBeforeZero(t, seg, i - 1);
    } else if seg > 0 {
      SumBeforeZero(t, seg - 1, |t[seg - 1]|);
    }
  }

  /** When every entry is non-negative, so is every entry in loop order. */
  lemma {:induction false} AllNonNegative(t: seq<seq<real>>)
    requires forall s, j :: 0 <= s < |t| && 0 <= j < |t[s]| ==> t[s][j] >= 0.0
    ensures forall k :: 0 <= k < |All(t)| ==> All(t)[k] >= 0.0
  {
    BeforeNonNegative(t, |t|, 0);
  }

  lemma {:induction false} BeforeNonNegative(t: seq<seq<real>>, seg: nat, i: nat)
    requires Position(t, seg, i)
    requires forall s, j :: 0 <= s < |t| && 0 <= j < |t[s]| ==> t[s][j] >= 0.0
    ensures forall k :: 0 <= k < |Before(t, seg, i)| ==> Before(t, seg, i)[k] >= 0.0
    decreases seg, i
  {
    if i > 0 {
      BeforeNonNegative(t, seg, i - 1);
    } else if seg > 0 {
      BeforeNonNegative(t, seg - 1, |t[seg - 1]|);
    }
  }

  /** One segment with one entry: the sum of all entries is that entry. */
  lemma SingleEntry(t: seq<seq<real>>)
    requires |t| == 1 && |t[0]| == 1
    ensures Sum(All(t)) == t[0][0]
  {
    assert Before(t, 0, 1) == [t[0][0]];
    assert All(t) == Before(t, 0, 1);
    assert [t[0][0]][..0] == [];
  }
}
