/**
 * The "best so far" scan shared by the mass-error and node-mass queries:
 * candidates are visited in order, the best starts at 0 with nothing chosen,
 * and a candidate replaces it only when its key is strictly greater.
 */
module FirstMax {
  import opened Wrappers

  /** The chosen payload (if any) and the best key seen so far. */
  datatype Best<T> = Best(chosen: Option<T>, top: real)

  /** One step of the scan; `None` is a position that is not a candidate. */
  function Step<T>(b: Best<T>, c: Option<(real, T)>): Best<T>
  {
    match c
    case None => b
    case Some(kv) => if kv.0 > b.top then Best(Some(kv.1), kv.0) else b
  }

  /** The scan over all candidates, from an initial best of 0. */
  function Scan<T>(cs: seq<Option<(real, T)>>): Best<T>
  {
    if cs == [] then Best(None, 0.0) else Step(Scan(cs[..|cs| - 1]), cs[|cs| - 1])
  }

  /** Appending one position to the scan is one more step. */
  lemma ScanSnoc<T>(cs: seq<Option<(real, T)>>, c: Option<(real, T)>)
    ensures Scan(cs + [c]) == Step(Scan(cs), c)
  {
    assert (cs + [c])[..|cs|] == cs;
  }

  /**
   * What the scan computes: nothing is chosen exactly when no key is positive;
   * otherwise the choice is the payload of the FIRST candidate whose key is the
   * maximum, and that maximum is the reported top.
   */
  lemma {:induction false} ScanIsFirstMaximum<T>(cs: seq<Option<(real, T)>>)
    ensures Scan(cs).top >= 0.0
    ensures forall k :: 0 <= k < |cs| && cs[k].Some? ==> cs[k].value.0 <= Scan(cs).top
    ensures Scan(cs).chosen.None? <==> forall k :: 0 <= k < |cs| && cs[k].Some? ==> cs[k].value.0 <= 0.0
    ensures Scan(cs).chosen.None? ==> Scan(cs).top == 0.0
    ensures Scan(cs).chosen.Some? ==>
      exists k :: 0 <= k < |cs| && cs[k].Some? && cs[k].value.0 == Scan(cs).top > 0.0
        && cs[k].value.1 == Scan(cs).chosen.value
        && forall j :: 0 <= j < k && cs[j].Some? ==> cs[j].value.0 < Scan(cs).top
  {
    if cs != [] {
      var init := cs[..|cs| - 1];
      var last := cs[|cs| - 1];
      ScanIsFirstMaximum(init);
      var b := Scan(init);
      assert forall k :: 0 <= k < |init| ==> cs[k] == init[k];
      if last.Some? && last.value.0 > b.top {
        assert Scan(cs) == Best(Some(last.value.1), last.value.0);
        var k := |cs| - 1;
        assert forall j :: 0 <= j < k && cs[j].Some? ==> cs[j].value.0 < Scan(cs).top by {
          forall j | 0 <= j < k && cs[j].Some? ensures cs[j].value.0 < Scan(cs).top {
            assert init[j] == cs[j];
          }
        }
      } else {
        assert Scan(cs) == b;
        if b.chosen.Some? {
          var k :| 0 <= k < |init| && init[k].Some? && init[k].value.0 == b.top > 0.0
            && init[k].value.1 == b.chosen.value
            && forall j :: 0 <= j < k && init[j].Some? ==> init[j].value.0 < b.top;
          assert cs[k] == init[k];
        }
      }
    }
  }
}
