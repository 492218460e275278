/**
 * The per-spectrum scoring context (NewScoredSpectrum): one spectrum bound to
 * one pretrained scorer, preprocessed once at construction and then queried
 * for node scores, edge scores, node-mass corrections, explained ion current,
 * the best-intensity mass error and the best-evidence node mass.
 *
 * Every loop query visits the same (segment, ion type) pairs in the same
 * order: each segment index in turn, and each ion type registered for that
 * segment in list order; an ion counts only when its orientation matches the
 * query and its theoretical m/z falls in that very segment. What each ion
 * adds is laid out in a per-segment table, and each query is a loop proved
 * equal to a fold of that table in loop order (module LoopOrder).
 */
module ScoredSpectra {
  import opened Wrappers
  import opened Spectra
  import opened RankScorers
  import FirstMax
  import LoopOrder

  /** Math.round: the nearest integer, halves rounded up. */
  function Round(x: real): (r: int)
    ensures r as real - 0.5 <= x < r as real + 0.5
  {
    (x + 0.5).Floor
  }

  /** Math.max. */
  function Max(a: real, b: real): real
  {
    if a >= b then a else b
  }

  /**
   * The background peak probability: peaks per approximate mass bin, where a
   * bin is twice the tolerance wide, and an empty spectrum counts as one peak.
   */
  function ProbPeak(size: nat, peptideMass: real, mmeValue: real): (r: real)
    requires mmeValue > 0.0
    ensures r > 0.0
    ensures r * Max(peptideMass / (2.0 * mmeValue), 1.0) == Max(size as real, 1.0)
  {
    var approxNumBins := peptideMass / (mmeValue * 2.0);
    if size == 0 then 1.0 / Max(approxNumBins, 1.0)
    else size as real / Max(approxNumBins, 1.0)
  }

  /** Parts-per-million error of an observed m/z against a theoretical one. */
  function Ppm(observedMz: real, theoMz: real): (e: real)
    ensures theoMz != 0.0 ==> e * theoMz == (observedMz - theoMz) * 1000000.0
    ensures observedMz == theoMz ==> e == 0.0
  {
    if theoMz == 0.0 then 0.0 else (observedMz - theoMz) / theoMz * 1000000.0
  }

  /** The peak-list preprocessing: precursor filtering, one offset entry after another. */
  function FilterAll(ops: PeakOps, peaks: seq<Peak>, precursorMass: real, tol: Tolerance,
                     offs: seq<PrecursorOffset>): seq<Peak>
  {
    if offs == [] then peaks
    else
      var off := offs[|offs| - 1];
      ops.filterPrecursor(FilterAll(ops, peaks, precursorMass, tol, offs[..|offs| - 1]),
                          precursorMass, tol, off.reducedCharge, off.offset)
  }

  /**
   * Filtering by one list of offsets and then by another is filtering by
   * both lists in turn: the preprocessing applies each offset entry once, in
   * order, to the result of the previous ones.
   */
  lemma {:induction false} FilterAllConcat(ops: PeakOps, peaks: seq<Peak>, precursorMass: real, tol: Tolerance,
                                           a: seq<PrecursorOffset>, b: seq<PrecursorOffset>)
    ensures FilterAll(ops, FilterAll(ops, peaks, precursorMass, tol, a), precursorMass, tol, b) ==
            FilterAll(ops, peaks, precursorMass, tol, a + b)
    decreases |b|
  {
    if b == [] {
      assert a + b == a;
    } else {
      var init := b[..|b| - 1];
      FilterAllConcat(ops, peaks, precursorMass, tol, a, init);
      assert (a + b)[..|a + b| - 1] == a + init;
      assert (a + b)[|a + b| - 1] == b[|b| - 1];
    }
  }

  /** A candidate break point of the sequence graph: nominal and exact mass. */
  datatype Node = Node(nominalMass: int, mass: real)

  class NewScoredSpectrum {
    const spec: Spectrum
    const scorer: RankScorer
    const mme: Tolerance
    const ionTypes: array<seq<IonType>>
    /** The contents of ionTypes, which nothing changes after construction. */
    ghost const ionTypeLists: seq<seq<IonType>>
    const charge: int
    const parentMass: real
    const precursor: Peak
    const scanNumArr: seq<int>
    const activationMethodArr: seq<ActivationMethod>
    /** Partition of the last segment and its main ion, used for node masses and edge scores. */
    const partition: Partition
    const mainIon: IonType
    const probPeak: real

    ghost predicate Valid()
      reads ionTypes
    {
      ionTypes.Length == scorer.numSegments && ionTypes[..] == ionTypeLists && mme == scorer.mme && probPeak > 0.0
    }

    /** The main ion is the one the scorer designates for the last-segment partition. */
    ghost predicate MainIonOfPartition()
    {
      mainIon == scorer.mainIonType(partition)
    }

    /**
     * Builds the context: ion types per segment from the original charge and
     * parent mass, precursor-peak filtering once per offset entry, re-ranking,
     * optional deconvolution into a new spectrum, then the last-segment
     * partition, its main ion and the background peak probability, all taken
     * from the final spectrum. The caller's spectrum is filtered and re-ranked
     * in place.
     */
    constructor (spec: Spectrum, scorer: RankScorer)
      requires scorer.mme.value > 0.0
      modifies spec
      ensures Valid() && MainIonOfPartition()
      ensures this.scorer == scorer && mme == scorer.mme
      ensures charge == spec.header.charge && parentMass == spec.header.precursorMass
      ensures precursor == spec.header.precursorPeak && scanNumArr == [spec.header.scanNum]
      ensures activationMethodArr ==
        [if spec.header.activationMethod.Some? then spec.header.activationMethod.value
         else scorer.defaultActivationMethod]
      ensures fresh(ionTypes)
      ensures forall seg :: 0 <= seg < ionTypes.Length ==>
        ionTypes[seg] == scorer.ionTypesOf(charge, parentMass, seg)
      ensures spec.peaks == spec.ops.rank(FilterAll(spec.ops, old(spec.peaks), spec.header.precursorMass,
                                                    scorer.mme, scorer.precursorOFF(spec.header.charge)))
      ensures !scorer.applyDeconvolution ==> this.spec == spec
      ensures scorer.applyDeconvolution ==>
        && fresh(this.spec)
        && this.spec.header == spec.header && this.spec.ops == spec.ops
        && this.spec.peaks == spec.ops.deconvolute(spec.peaks, scorer.deconvolutionErrorTolerance)
      ensures partition == scorer.partitionOf(this.spec.header.charge, this.spec.header.precursorMass,
                                              scorer.numSegments - 1)
      ensures mainIon == scorer.mainIonType(partition)
      ensures probPeak == ProbPeak(|this.spec.peaks|, this.spec.header.peptideMass, scorer.mme.value)
    {
      this.scorer := scorer;
      var c := spec.header.charge;
      var pm := spec.header.precursorMass;
      charge := c;
      parentMass := pm;
      mme := scorer.mme;
      precursor := spec.header.precursorPeak;
      activationMethodArr :=
        [if spec.header.activationMethod.Some? then spec.header.activationMethod.value
         else scorer.defaultActivationMethod];
      scanNumArr := [spec.header.scanNum];

      var numSegments := scorer.numSegments;
      var types := new seq<IonType>[numSegments];
      for seg := 0 to numSegments
        invariant forall s :: 0 <= s < seg ==> types[s] == scorer.ionTypesOf(c, pm, s)
        modifies types
      {
        types[seg] := scorer.ionTypesOf(c, pm, seg);
      }
      ionTypes := types;
      ionTypeLists := types[..];

      // filter precursor peaks
      var offs := scorer.precursorOFF(spec.header.charge);
      for k := 0 to |offs|
        invariant spec.peaks == FilterAll(spec.ops, old(spec.peaks), pm, scorer.mme, offs[..k])
        modifies spec
      {
        assert offs[..k + 1][..k] == offs[..k];
        spec.FilterPrecursorPeaks(scorer.mme, offs[k].reducedCharge, offs[k].offset);
      }
      assert offs[..|offs|] == offs;
      spec.SetRanksOfPeaks();

      // deconvolute
      var s := spec;
      if scorer.applyDeconvolution {
        s := spec.GetDeconvolutedSpectrum(scorer.deconvolutionErrorTolerance);
      }

      // for edge scoring
      partition := scorer.partitionOf(s.header.charge, s.header.precursorMass, scorer.numSegments - 1);
      mainIon := scorer.mainIonType(scorer.partitionOf(s.header.charge, s.header.precursorMass,
                                                       scorer.numSegments - 1));
      probPeak := ProbPeak(s.Size(), s.header.peptideMass, scorer.mme.value);
      this.spec := s;
    }

    /** getMainIonDirection: whether the main ion of the last-segment partition is a prefix ion. */
    function MainIonIsPrefix(): (b: bool)
      requires MainIonOfPartition()
      ensures b <==> scorer.mainIonType(partition).kind == PrefixIon
    {
      mainIon.kind == PrefixIon
    }

    // ---------------------------------------------------------------------
    // The visiting order shared by all queries

    /** The orientation filter and the segment-membership filter of one ion. */
    predicate Passes(seg: int, ion: IonType, mass: real, isPrefix: bool)
    {
      && (if isPrefix then ion.kind == PrefixIon else ion.kind == SuffixIon)
      && scorer.segmentNum(scorer.ionMz(ion, mass), parentMass) == seg
    }

    // ---------------------------------------------------------------------
    // Node score

    /** The one contribution of an ion of segment seg: its rank score if a peak matches, else its missing-ion score. */
    function Term(seg: int, ion: IonType, mass: real): real
      reads spec
    {
      var part := scorer.partitionOf(charge, parentMass, seg);
      match spec.PeakByMass(scorer.ionMz(ion, mass), mme)
      case Some(p) => scorer.nodeScore(part, ion, p.rank)
      case None => scorer.missingIonScore(part, ion)
    }

    /** What one ion adds to the node score: its term if it passes both filters, nothing otherwise. */
    function IonScore(seg: int, ion: IonType, mass: real, isPrefix: bool): real
      reads spec
    {
      if Passes(seg, ion, mass, isPrefix) then Term(seg, ion, mass) else 0.0
    }

    /** What each ion of each segment adds to the node score at this mass and orientation. */
    ghost function ScoreTable(mass: real, isPrefix: bool): (t: seq<seq<real>>)
      reads spec
      ensures |t| == |ionTypeLists|
      ensures forall s :: 0 <= s < |t| ==> |t[s]| == |ionTypeLists[s]|
      ensures forall s, j :: 0 <= s < |t| && 0 <= j < |t[s]| ==>
        t[s][j] == IonScore(s, ionTypeLists[s][j], mass, isPrefix)
    {
      seq(|ionTypeLists|, s requires 0 <= s < |ionTypeLists| reads spec =>
        seq(|ionTypeLists[s]|, j requires 0 <= j < |ionTypeLists[s]| reads spec =>
          IonScore(s, ionTypeLists[s][j], mass, isPrefix)))
    }

    /** The node score computed by getNodeScore(float, boolean): every ion's contribution, added in loop order. */
    ghost function TotalScore(mass: real, isPrefix: bool): real
      reads spec
    {
      LoopOrder.Sum(LoopOrder.All(ScoreTable(mass, isPrefix)))
    }

    /**
     * One term per ion, in loop order: the j-th ion of segment s contributes
     * at its loop position exactly its rank score (matched peak) or its
     * missing-ion score (no peak) when it passes both filters, and 0 otherwise.
     */
    lemma NodeScoreTerm(mass: real, isPrefix: bool, s: nat, j: nat)
      requires s < |ionTypeLists| && j < |ionTypeLists[s]|
      ensures var t := ScoreTable(mass, isPrefix);
        var k := LoopOrder.Offset(t, s) + j;
        && k < |LoopOrder.All(t)|
        && LoopOrder.All(t)[k] ==
           if Passes(s, ionTypeLists[s][j], mass, isPrefix) then Term(s, ionTypeLists[s][j], mass) else 0.0
    {
      var t := ScoreTable(mass, isPrefix);
      LoopOrder.AllIndex(t, s, j);
      assert t[s][j] == IonScore(s, ionTypeLists[s][j], mass, isPrefix);
    }

    /** When no ion passes the orientation and segment filters, the node score is 0. */
    lemma NoPassingIonScoresZero(mass: real, isPrefix: bool)
      requires forall s, j :: 0 <= s < |ionTypeLists| && 0 <= j < |ionTypeLists[s]| ==>
        !Passes(s, ionTypeLists[s][j], mass, isPrefix)
      ensures TotalScore(mass, isPrefix) == 0.0
    {
      var t := ScoreTable(mass, isPrefix);
      LoopOrder.AllZero(t);
    }

    /**
     * Scenario: with one segment holding one prefix ion whose m/z falls in that
     * segment, the prefix node score is exactly one term, the ion's rank score
     * when a peak matches and its missing-ion score otherwise, and the suffix
     * node score is 0.
     */
    lemma SingleIonScore(ion: IonType, mass: real)
      requires ionTypeLists == [[ion]]
      requires ion.kind == PrefixIon
      requires scorer.segmentNum(scorer.ionMz(ion, mass), parentMass) == 0
      ensures TotalScore(mass, true) ==
        match spec.PeakByMass(scorer.ionMz(ion, mass), mme)
        case Some(p) => scorer.nodeScore(scorer.partitionOf(charge, parentMass, 0), ion, p.rank)
        case None => scorer.missingIonScore(scorer.partitionOf(charge, parentMass, 0), ion)
      ensures TotalScore(mass, false) == 0.0
    {
      var t := ScoreTable(mass, true);
      LoopOrder.SingleEntry(t);
      NoPassingIonScoresZero(mass, false);
    }

    /**
     * The body of getNodeScore's inner loop for one ion: the ion is skipped
     * unless it has the asked orientation and its m/z falls in the current
     * segment; otherwise its term is added.
     */
    method AddIonScore(score: real, segIndex: int, ion: IonType, nodeMass: real, isPrefix: bool)
      returns (next: real)
      ensures next == score + IonScore(segIndex, ion, nodeMass, isPrefix)
    {
      next := score;
      var theoMass: real;
      if isPrefix {
        if ion.kind == PrefixIon {
          theoMass := scorer.ionMz(ion, nodeMass);
        } else {
          return;
        }
      } else {
        if ion.kind == SuffixIon {
          theoMass := scorer.ionMz(ion, nodeMass);
        } else {
          return;
        }
      }
      var segNum := scorer.segmentNum(theoMass, parentMass);
      if segNum != segIndex {
        return;
      }
      var p := spec.PeakByMass(theoMass, mme);
      var part := scorer.partitionOf(charge, parentMass, segNum);
      if p.Some? {
        next := score + scorer.nodeScore(part, ion, p.value.rank);
      } else {
        next := score + scorer.missingIonScore(part, ion);
      }
    }

    /** getNodeScore(float, boolean). */
    method NodeScore(nodeMass: real, isPrefix: bool) returns (score: real)
      requires Valid()
      ensures score == TotalScore(nodeMass, isPrefix)
    {
      ghost var t := ScoreTable(nodeMass, isPrefix);
      score := 0.0;
      for segIndex := 0 to scorer.numSegments
        invariant score == LoopOrder.SumBefore(t, segIndex, 0)
      {
        for i := 0 to |ionTypes[segIndex]|
          invariant score == LoopOrder.SumBefore(t, segIndex, i)
        {
          var ion := ionTypes[segIndex][i];
          assert t[segIndex][i] == IonScore(segIndex, ion, nodeMass, isPrefix);
          score := AddIonScore(score, segIndex, ion, nodeMass, isPrefix);
        }
      }
      LoopOrder.SumBeforeIsSum(t, |t|, 0);
    }

    /** getNodeScore(T, boolean): the node score at the node's mass. */
    method NodeScoreOfNode(node: Node, isPrefix: bool) returns (score: real)
      requires Valid()
      ensures score == TotalScore(node.mass, isPrefix)
    {
      score := NodeScore(node.mass, isPrefix);
    }

    /** getNodeScore(T, T): prefix score of one node plus suffix score of the other, rounded. */
    method PairNodeScore(prm: Node, srm: Node) returns (r: int)
      requires Valid()
      ensures r == Round(TotalScore(prm.mass, true) + TotalScore(srm.mass, false))
    {
      var prefScore := NodeScore(prm.mass, true);
      var sufScore := NodeScore(srm.mass, false);
      r := Round(prefScore + sufScore);
    }

    // ---------------------------------------------------------------------
    // Node mass correction and edge score

    /**
     * getNodeMass: 0 for a terminus (nominal mass 0, no peak lookup), -1 when no
     * peak matches the main ion's m/z, otherwise the mass the matched peak implies.
     */
    function NodeMass(node: Node): (m: real)
      reads spec
      ensures node.nominalMass == 0 ==> m == 0.0
      ensures node.nominalMass != 0 ==>
        match spec.PeakByMass(scorer.ionMz(mainIon, node.mass), scorer.mme)
        case None => m == -1.0
        case Some(p) => m == scorer.ionMass(mainIon, p.mz)
    {
      if node.nominalMass == 0 then 0.0
      else
        var theoMass := scorer.ionMz(mainIon, node.mass);
        match spec.PeakByMass(theoMass, scorer.mme)
        case Some(p) => scorer.ionMass(mainIon, p.mz)
        case None => -1.0
    }

    /**
     * Round trip: when the main ion's mass function inverts its m/z function at
     * the node's mass and the matched peak sits exactly at the theoretical m/z,
     * the corrected mass is the node's own mass.
     */
    lemma NodeMassRoundTrip(node: Node, p: Peak)
      requires node.nominalMass != 0
      requires scorer.ionMass(mainIon, scorer.ionMz(mainIon, node.mass)) == node.mass
      requires spec.PeakByMass(scorer.ionMz(mainIon, node.mass), scorer.mme) == Some(p)
      requires p.mz == scorer.ionMz(mainIon, node.mass)
      ensures NodeMass(node) == node.mass
    {
    }

    /** The 2-bit ion-existence pattern: bit 0 for the current node, bit 1 for the previous one. */
    function ExistenceIndex(curNode: Node, prevNode: Node): (idx: int)
      reads spec
      ensures 0 <= idx <= 3
      ensures idx % 2 == 1 <==> NodeMass(curNode) >= 0.0
      ensures idx >= 2 <==> NodeMass(prevNode) >= 0.0
    {
      (if NodeMass(curNode) >= 0.0 then 1 else 0) + (if NodeMass(prevNode) >= 0.0 then 2 else 0)
    }

    /**
     * getEdgeScore: 0 when the scorer does not support edge scores; otherwise the
     * rounded existence score of the pattern, plus the mass-error score only when
     * both nodes have evidence.
     */
    function EdgeScore(curNode: Node, prevNode: Node, theoMass: real): (r: int)
      reads spec
      ensures !scorer.supportEdgeScores ==> r == 0
      ensures scorer.supportEdgeScores && ExistenceIndex(curNode, prevNode) != 3 ==>
        r == Round(scorer.ionExistenceScore(partition, ExistenceIndex(curNode, prevNode), probPeak))
      ensures scorer.supportEdgeScores && ExistenceIndex(curNode, prevNode) == 3 ==>
        r == Round(scorer.ionExistenceScore(partition, 3, probPeak)
                   + scorer.errorScore(partition, NodeMass(curNode) - NodeMass(prevNode) - theoMass))
    {
      if !scorer.supportEdgeScores then 0
      else
        var idx := ExistenceIndex(curNode, prevNode);
        var curNodeMass := NodeMass(curNode);
        var prevNodeMass := NodeMass(prevNode);
        var edgeScore := scorer.ionExistenceScore(partition, idx, probPeak);
        if idx == 3 then Round(edgeScore + scorer.errorScore(partition, curNodeMass - prevNodeMass - theoMass))
        else Round(edgeScore)
    }

    /**
     * The four existence patterns: only the current node present selects 1,
     * only the previous node 2, both 3 (the only case with an error term),
     * neither 0. A terminus node always counts as present.
     */
    lemma EdgeScoreByEvidence(curNode: Node, prevNode: Node, theoMass: real)
      requires scorer.supportEdgeScores
      ensures curNode.nominalMass == 0 ==> ExistenceIndex(curNode, prevNode) % 2 == 1
      ensures prevNode.nominalMass == 0 ==> ExistenceIndex(curNode, prevNode) >= 2
      ensures NodeMass(curNode) >= 0.0 && NodeMass(prevNode) < 0.0 ==>
        EdgeScore(curNode, prevNode, theoMass) == Round(scorer.ionExistenceScore(partition, 1, probPeak))
      ensures NodeMass(curNode) < 0.0 && NodeMass(prevNode) >= 0.0 ==>
        EdgeScore(curNode, prevNode, theoMass) == Round(scorer.ionExistenceScore(partition, 2, probPeak))
      ensures NodeMass(curNode) < 0.0 && NodeMass(prevNode) < 0.0 ==>
        EdgeScore(curNode, prevNode, theoMass) == Round(scorer.ionExistenceScore(partition, 0, probPeak))
      ensures NodeMass(curNode) >= 0.0 && NodeMass(prevNode) >= 0.0 ==>
        EdgeScore(curNode, prevNode, theoMass) ==
        Round(scorer.ionExistenceScore(partition, 3, probPeak)
              + scorer.errorScore(partition, NodeMass(curNode) - NodeMass(prevNode) - theoMass))
    {
    }
    // ---------------------------------------------------------------------
    // Explained ion current

    /** The intensity of an ion's matched peak, 0 when none matches. */
    function Current(ion: IonType, mass: real, tol: Tolerance): real
      reads spec
    {
      match spec.PeakByMass(scorer.ionMz(ion, mass), tol)
      case Some(p) => p.intensity
      case None => 0.0
    }

    /** What one ion adds to the explained current: its matched intensity if it passes both filters. */
    function IonCurrent(seg: int, ion: IonType, mass: real, isPrefix: bool, tol: Tolerance): real
      reads spec
    {
      if Passes(seg, ion, mass, isPrefix) then Current(ion, mass, tol) else 0.0
    }

    /** What each ion of each segment adds to the explained current. */
    ghost function CurrentTable(mass: real, isPrefix: bool, tol: Tolerance): (t: seq<seq<real>>)
      reads spec
      ensures |t| == |ionTypeLists|
      ensures forall s :: 0 <= s < |t| ==> |t[s]| == |ionTypeLists[s]|
      ensures forall s, j :: 0 <= s < |t| && 0 <= j < |t[s]| ==>
        t[s][j] == IonCurrent(s, ionTypeLists[s][j], mass, isPrefix, tol)
    {
      seq(|ionTypeLists|, s requires 0 <= s < |ionTypeLists| reads spec =>
        seq(|ionTypeLists[s]|, j requires 0 <= j < |ionTypeLists[s]| reads spec =>
          IonCurrent(s, ionTypeLists[s][j], mass, isPrefix, tol)))
    }

    /** The explained ion current computed by getExplainedIonCurrent. */
    ghost function TotalCurrent(mass: real, isPrefix: bool, tol: Tolerance): real
      reads spec
    {
      LoopOrder.Sum(LoopOrder.All(CurrentTable(mass, isPrefix, tol)))
    }

    /**
     * One term per ion, in loop order: the j-th ion of segment s contributes
     * at its loop position its matched intensity (0 with no matched peak) when
     * it passes both filters, and 0 otherwise.
     */
    lemma ExplainedCurrentTerm(mass: real, isPrefix: bool, tol: Tolerance, s: nat, j: nat)
      requires s < |ionTypeLists| && j < |ionTypeLists[s]|
      ensures var t := CurrentTable(mass, isPrefix, tol);
        var k := LoopOrder.Offset(t, s) + j;
        && k < |LoopOrder.All(t)|
        && LoopOrder.All(t)[k] ==
           if Passes(s, ionTypeLists[s][j], mass, isPrefix) then Current(ionTypeLists[s][j], mass, tol) else 0.0
    {
      var t := CurrentTable(mass, isPrefix, tol);
      LoopOrder.AllIndex(t, s, j);
      assert t[s][j] == IonCurrent(s, ionTypeLists[s][j], mass, isPrefix, tol);
    }

    /**
     * When matched intensities are non-negative, the explained current is
     * non-negative and at least the matched intensity of every ion that passes
     * both filters.
     */
    lemma ExplainedCurrentBounds(mass: real, isPrefix: bool, tol: Tolerance)
      requires forall s, j :: 0 <= s < |ionTypeLists| && 0 <= j < |ionTypeLists[s]| ==>
        Current(ionTypeLists[s][j], mass, tol) >= 0.0
      ensures TotalCurrent(mass, isPrefix, tol) >= 0.0
      ensures forall s, j ::
        0 <= s < |ionTypeLists| && 0 <= j < |ionTypeLists[s]| && Passes(s, ionTypeLists[s][j], mass, isPrefix) ==>
        Current(ionTypeLists[s][j], mass, tol) <= TotalCurrent(mass, isPrefix, tol)
    {
      var t := CurrentTable(mass, isPrefix, tol);
      assert forall s, j :: 0 <= s < |t| && 0 <= j < |t[s]| ==> t[s][j] >= 0.0 by {
        forall s, j | 0 <= s < |t| && 0 <= j < |t[s]| ensures t[s][j] >= 0.0 {
          assert t[s][j] == IonCurrent(s, ionTypeLists[s][j], mass, isPrefix, tol);
        }
      }
      LoopOrder.AllNonNegative(t);
      LoopOrder.SumBounds(LoopOrder.All(t));
      forall s, j | 0 <= s < |ionTypeLists| && 0 <= j < |ionTypeLists[s]| && Passes(s, ionTypeLists[s][j], mass, isPrefix)
        ensures Current(ionTypeLists[s][j], mass, tol) <= TotalCurrent(mass, isPrefix, tol)
      {
        ExplainedCurrentTerm(mass, isPrefix, tol, s, j);
      }
    }

    /**
     * The body of getExplainedIonCurrent's inner loop for one ion: skipped
     * unless it has the asked orientation and falls in the current segment;
     * otherwise a matched peak's intensity is added.
     */
    method AddIonCurrent(explained: real, segIndex: int, ion: IonType, residueMass: real, isPrefix: bool,
                         fragmentTolerance: Tolerance) returns (next: real)
      ensures next == explained + IonCurrent(segIndex, ion, residueMass, isPrefix, fragmentTolerance)
    {
      next := explained;
      var theoMass: real;
      if isPrefix {
        if ion.kind == PrefixIon {
          theoMass := scorer.ionMz(ion, residueMass);
        } else {
          return;
        }
      } else {
        if ion.kind == SuffixIon {
          theoMass := scorer.ionMz(ion, residueMass);
        } else {
          return;
        }
      }
      var segNum := scorer.segmentNum(theoMass, parentMass);
      if segNum != segIndex {
        return;
      }
      var p := spec.PeakByMass(theoMass, fragmentTolerance);
      if p.Some? {
        next := explained + p.value.intensity;
      }
    }

    /** getExplainedIonCurrent. */
    method ExplainedIonCurrent(residueMass: real, isPrefix: bool, fragmentTolerance: Tolerance)
      returns (explained: real)
      requires Valid()
      ensures explained == TotalCurrent(residueMass, isPrefix, fragmentTolerance)
    {
      ghost var t := CurrentTable(residueMass, isPrefix, fragmentTolerance);
      explained := 0.0;
      for segIndex := 0 to scorer.numSegments
        invariant explained == LoopOrder.SumBefore(t, segIndex, 0)
      {
        for i := 0 to |ionTypes[segIndex]|
          invariant explained == LoopOrder.SumBefore(t, segIndex, i)
        {
          var ion := ionTypes[segIndex][i];
          assert t[segIndex][i] == IonCurrent(segIndex, ion, residueMass, isPrefix, fragmentTolerance);
          explained := AddIonCurrent(explained, segIndex, ion, residueMass, isPrefix, fragmentTolerance);
        }
      }
      LoopOrder.SumBeforeIsSum(t, |t|, 0);
    }

    // ---------------------------------------------------------------------
    // Mass error of the most intense singly-charged match

    /**
     * One ion's entry in the scan: a charge-1 ion that passes both filters and
     * has a matched peak is a candidate keyed by the peak's intensity and
     * carrying its ppm error; every other ion is no candidate.
     */
    function ErrorEntry(seg: int, ion: IonType, mass: real, isPrefix: bool, tol: Tolerance): Option<(real, real)>
      reads spec
    {
      if ion.charge == 1 && Passes(seg, ion, mass, isPrefix) then
        match spec.PeakByMass(scorer.ionMz(ion, mass), tol)
        case Some(p) => Some((p.intensity, Ppm(p.mz, scorer.ionMz(ion, mass))))
        case None => None
      else None
    }

    /** The entry of each ion of each segment. */
    ghost function ErrorTable(mass: real, isPrefix: bool, tol: Tolerance): (t: seq<seq<Option<(real, real)>>>)
      reads spec
      ensures |t| == |ionTypeLists|
      ensures forall s :: 0 <= s < |t| ==> |t[s]| == |ionTypeLists[s]|
      ensures forall s, j :: 0 <= s < |t| && 0 <= j < |t[s]| ==>
        t[s][j] == ErrorEntry(s, ionTypeLists[s][j], mass, isPrefix, tol)
    {
      seq(|ionTypeLists|, s requires 0 <= s < |ionTypeLists| reads spec =>
        seq(|ionTypeLists[s]|, j requires 0 <= j < |ionTypeLists[s]| reads spec =>
          ErrorEntry(s, ionTypeLists[s][j], mass, isPrefix, tol)))
    }

    /** (ppm error, intensity) computed by getMassErrorWithIntensity, or None. */
    ghost function MassErrorOf(mass: real, isPrefix: bool, tol: Tolerance): Option<(real, real)>
      reads spec
    {
      var b := FirstMax.Scan(LoopOrder.All(ErrorTable(mass, isPrefix, tol)));
      if b.chosen.None? then None else Some((b.chosen.value, b.top))
    }

    /**
     * Over the entries in loop order: the mass error is absent exactly when no
     * candidate has a positive intensity; otherwise it is the ppm error of the
     * first candidate of greatest intensity, paired with that intensity, every
     * candidate is at most that intensity and every earlier one strictly less.
     */
    lemma MassErrorIsFirstMostIntense(mass: real, isPrefix: bool, tol: Tolerance)
      ensures var cs := LoopOrder.All(ErrorTable(mass, isPrefix, tol));
        && (MassErrorOf(mass, isPrefix, tol).None? <==>
            forall k :: 0 <= k < |cs| && cs[k].Some? ==> cs[k].value.0 <= 0.0)
        && (MassErrorOf(mass, isPrefix, tol).Some? ==>
            var r := MassErrorOf(mass, isPrefix, tol).value;
            && r.1 > 0.0
            && (forall k :: 0 <= k < |cs| && cs[k].Some? ==> cs[k].value.0 <= r.1)
            && exists k :: 0 <= k < |cs| && cs[k] == Some((r.1, r.0))
                 && forall j :: 0 <= j < k && cs[j].Some? ==> cs[j].value.0 < r.1)
    {
      FirstMax.ScanIsFirstMaximum(LoopOrder.All(ErrorTable(mass, isPrefix, tol)));
    }

    /**
     * Which ions are candidates, and where: the j-th ion of segment s sits at
     * its loop position, and is a candidate exactly when it has charge 1,
     * passes both filters and a peak matches it, keyed by that peak's
     * intensity and carrying its ppm error.
     */
    lemma MassErrorCandidate(mass: real, isPrefix: bool, tol: Tolerance, s: nat, j: nat)
      requires s < |ionTypeLists| && j < |ionTypeLists[s]|
      ensures var cs := LoopOrder.All(ErrorTable(mass, isPrefix, tol));
        var k := LoopOrder.Offset(ErrorTable(mass, isPrefix, tol), s) + j;
        var ion := ionTypeLists[s][j];
        && k < |cs|
        && (cs[k].Some? <==>
              ion.charge == 1 && Passes(s, ion, mass, isPrefix) && spec.PeakByMass(scorer.ionMz(ion, mass), tol).Some?)
        && (cs[k].Some? ==>
              var p := spec.PeakByMass(scorer.ionMz(ion, mass), tol).value;
              cs[k].value == (p.intensity, Ppm(p.mz, scorer.ionMz(ion, mass))))
    {
      LoopOrder.AllIndex(ErrorTable(mass, isPrefix, tol), s, j);
    }

    /**
     * The body of getMassErrorWithIntensity's inner loop for one ion: skipped
     * unless it has charge 1, the asked orientation and falls in the current
     * segment; a matched peak strictly more intense than the best so far
     * replaces the best error and intensity.
     */
    method ErrorStep(error: Option<real>, maxIntensity: real, segIndex: int, ion: IonType, residueMass: real,
                     isPrefix: bool, fragmentTolerance: Tolerance) returns (error': Option<real>, maxIntensity': real)
      ensures FirstMax.Best(error', maxIntensity') ==
        FirstMax.Step(FirstMax.Best(error, maxIntensity),
                      ErrorEntry(segIndex, ion, residueMass, isPrefix, fragmentTolerance))
    {
      error', maxIntensity' := error, maxIntensity;
      if ion.charge != 1 {
        return;
      }
      var theoMass: real;
      if isPrefix {
        if ion.kind == PrefixIon {
          theoMass := scorer.ionMz(ion, residueMass);
        } else {
          return;
        }
      } else {
        if ion.kind == SuffixIon {
          theoMass := scorer.ionMz(ion, residueMass);
        } else {
          return;
        }
      }
      var segNum := scorer.segmentNum(theoMass, parentMass);
      if segNum != segIndex {
        return;
      }
      var p := spec.PeakByMass(theoMass, fragmentTolerance);
      if p.Some? {
        var err := Ppm(p.value.mz, theoMass);
        var intensity := p.value.intensity;
        if intensity > maxIntensity {
          error' := Some(err);
          maxIntensity' := intensity;
        }
      }
    }

    /** getMassErrorWithIntensity. */
    method MassErrorWithIntensity(residueMass: real, isPrefix: bool, fragmentTolerance: Tolerance)
      returns (r: Option<(real, real)>)
      requires Valid()
      ensures r == MassErrorOf(residueMass, isPrefix, fragmentTolerance)
    {
      ghost var t := ErrorTable(residueMass, isPrefix, fragmentTolerance);
      var error: Option<real> := None;
      var maxIntensity := 0.0;
      for segIndex := 0 to scorer.numSegments
        invariant FirstMax.Best(error, maxIntensity) == LoopOrder.BestBefore(t, segIndex, 0)
      {
        for i := 0 to |ionTypes[segIndex]|
          invariant FirstMax.Best(error, maxIntensity) == LoopOrder.BestBefore(t, segIndex, i)
        {
          var ion := ionTypes[segIndex][i];
          error, maxIntensity := ErrorStep(error, maxIntensity, segIndex, ion, residueMass, isPrefix, fragmentTolerance);
        }
      }
      LoopOrder.BestBeforeIsScan(t, |t|, 0);
      if error.None? {
        r := None;
      } else {
        r := Some((error.value, maxIntensity));
      }
    }

    // ---------------------------------------------------------------------
    // Node mass and score

    /**
     * One ion's entry in the scan: a charge-1 ion that passes both filters and
     * has a matched peak is a candidate keyed by its rank score and carrying
     * the mass the peak implies; every other ion is no candidate.
     */
    function MassEntry(seg: int, ion: IonType, mass: real, isPrefix: bool): Option<(real, real)>
      reads spec
    {
      if ion.charge == 1 && Passes(seg, ion, mass, isPrefix) then
        match spec.PeakByMass(scorer.ionMz(ion, mass), mme)
        case Some(p) => Some((scorer.nodeScore(scorer.partitionOf(charge, parentMass, seg), ion, p.rank),
                              scorer.ionMass(ion, p.mz)))
        case None => None
      else None
    }

    /** The entry of each ion of each segment. */
    ghost function MassTable(mass: real, isPrefix: bool): (t: seq<seq<Option<(real, real)>>>)
      reads spec
      ensures |t| == |ionTypeLists|
      ensures forall s :: 0 <= s < |t| ==> |t[s]| == |ionTypeLists[s]|
      ensures forall s, j :: 0 <= s < |t| && 0 <= j < |t[s]| ==>
        t[s][j] == MassEntry(s, ionTypeLists[s][j], mass, isPrefix)
    {
      seq(|ionTypeLists|, s requires 0 <= s < |ionTypeLists| reads spec =>
        seq(|ionTypeLists[s]|, j requires 0 <= j < |ionTypeLists[s]| reads spec =>
          MassEntry(s, ionTypeLists[s][j], mass, isPrefix)))
    }

    /** The mass component computed by getNodeMassAndScore. */
    ghost function BestNodeMass(mass: real, isPrefix: bool): Option<real>
      reads spec
    {
      FirstMax.Scan(LoopOrder.All(MassTable(mass, isPrefix))).chosen
    }

    /**
     * Over the entries in loop order: the mass component is absent exactly
     * when no candidate has a positive score; otherwise it is the mass carried
     * by a candidate whose score is positive, at least every candidate's
     * score, and strictly greater than every earlier candidate's.
     */
    lemma BestNodeMassIsFirstBestScore(mass: real, isPrefix: bool)
      ensures var cs := LoopOrder.All(MassTable(mass, isPrefix));
        && (BestNodeMass(mass, isPrefix).None? <==>
            forall k :: 0 <= k < |cs| && cs[k].Some? ==> cs[k].value.0 <= 0.0)
        && (BestNodeMass(mass, isPrefix).Some? ==>
            exists k :: 0 <= k < |cs| && cs[k].Some? && cs[k].value.1 == BestNodeMass(mass, isPrefix).value
              && cs[k].value.0 > 0.0
              && (forall j :: 0 <= j < |cs| && cs[j].Some? ==> cs[j].value.0 <= cs[k].value.0)
              && (forall j :: 0 <= j < k && cs[j].Some? ==> cs[j].value.0 < cs[k].value.0))
    {
      FirstMax.ScanIsFirstMaximum(LoopOrder.All(MassTable(mass, isPrefix)));
    }

    /**
     * Which ions are candidates, and where: the j-th ion of segment s sits at
     * its loop position, and is a candidate exactly when it has charge 1,
     * passes both filters and a peak matches it; its key is then the very
     * term it adds to the node score.
     */
    lemma NodeMassCandidate(mass: real, isPrefix: bool, s: nat, j: nat)
      requires s < |ionTypeLists| && j < |ionTypeLists[s]|
      ensures var cs := LoopOrder.All(MassTable(mass, isPrefix));
        var k := LoopOrder.Offset(MassTable(mass, isPrefix), s) + j;
        var ion := ionTypeLists[s][j];
        && k < |cs|
        && (cs[k].Some? <==>
              ion.charge == 1 && Passes(s, ion, mass, isPrefix) && spec.PeakByMass(scorer.ionMz(ion, mass), mme).Some?)
        && (cs[k].Some? ==>
              && cs[k].value.0 == IonScore(s, ion, mass, isPrefix)
              && cs[k].value.1 == scorer.ionMass(ion, spec.PeakByMass(scorer.ionMz(ion, mass), mme).value.mz))
    {
      LoopOrder.AllIndex(MassTable(mass, isPrefix), s, j);
    }

    /**
     * The body of getNodeMassAndScore's inner loop for one ion: skipped unless
     * it has the asked orientation and falls in the current segment; a matched
     * peak adds its rank score and, for a charge-1 ion scoring strictly above
     * the best so far, replaces the best mass; a missing peak adds the
     * missing-ion score.
     */
    method MassAndScoreStep(nodeMass: Option<real>, curBestScore: real, nodeScore: real, segIndex: int,
                            ion: IonType, residueMass: real, isPrefix: bool)
      returns (nodeMass': Option<real>, curBestScore': real, nodeScore': real)
      ensures FirstMax.Best(nodeMass', curBestScore') ==
        FirstMax.Step(FirstMax.Best(nodeMass, curBestScore), MassEntry(segIndex, ion, residueMass, isPrefix))
      ensures nodeScore' == nodeScore + IonScore(segIndex, ion, residueMass, isPrefix)
    {
      nodeMass', curBestScore', nodeScore' := nodeMass, curBestScore, nodeScore;
      var theoMass: real;
      if isPrefix {
        if ion.kind == PrefixIon {
          theoMass := scorer.ionMz(ion, residueMass);
        } else {
          return;
        }
      } else {
        if ion.kind == SuffixIon {
          theoMass := scorer.ionMz(ion, residueMass);
        } else {
          return;
        }
      }
      var segNum := scorer.segmentNum(theoMass, parentMass);
      if segNum != segIndex {
        return;
      }
      var p := spec.PeakByMass(theoMass, mme);
      var part := scorer.partitionOf(charge, parentMass, segNum);
      if p.Some? {
        var score := scorer.nodeScore(part, ion, p.value.rank);
        if ion.charge == 1 && score > curBestScore {
          nodeMass' := Some(scorer.ionMass(ion, p.value.mz));
          curBestScore' := score;
        }
        nodeScore' := nodeScore + score;
      } else {
        nodeScore' := nodeScore + scorer.missingIonScore(part, ion);
      }
    }

    /**
     * The inner loop of getNodeMassAndScore over the ion types of one segment:
     * from the state the outer loop holds at the start of the segment to the
     * state it holds at the start of the next.
     */
    method SegmentMassAndScore(segIndex: int, residueMass: real, isPrefix: bool,
                               nodeMass: Option<real>, curBestScore: real, nodeScore: real)
      returns (nodeMass': Option<real>, curBestScore': real, nodeScore': real)
      requires Valid() && 0 <= segIndex < ionTypes.Length
      requires FirstMax.Best(nodeMass, curBestScore) == LoopOrder.BestBefore(MassTable(residueMass, isPrefix), segIndex, 0)
      requires nodeScore == LoopOrder.SumBefore(ScoreTable(residueMass, isPrefix), segIndex, 0)
      ensures FirstMax.Best(nodeMass', curBestScore') ==
        LoopOrder.BestBefore(MassTable(residueMass, isPrefix), segIndex + 1, 0)
      ensures nodeScore' == LoopOrder.SumBefore(ScoreTable(residueMass, isPrefix), segIndex + 1, 0)
    {
      ghost var mt := MassTable(residueMass, isPrefix);
      ghost var st := ScoreTable(residueMass, isPrefix);
      nodeMass', curBestScore', nodeScore' := nodeMass, curBestScore, nodeScore;
      for i := 0 to |ionTypes[segIndex]|
        invariant FirstMax.Best(nodeMass', curBestScore') == LoopOrder.BestBefore(mt, segIndex, i)
        invariant nodeScore' == LoopOrder.SumBefore(st, segIndex, i)
      {
        var ion := ionTypes[segIndex][i];
        assert mt[segIndex][i] == MassEntry(segIndex, ion, residueMass, isPrefix);
        assert st[segIndex][i] == IonScore(segIndex, ion, residueMass, isPrefix);
        nodeMass', curBestScore', nodeScore' :=
          MassAndScoreStep(nodeMass', curBestScore', nodeScore', segIndex, ion, residueMass, isPrefix);
      }
    }

    /**
     * getNodeMassAndScore: the best-evidence corrected mass, and a score equal
     * to getNodeScore's at the same mass.
     */
    method NodeMassAndScore(residueMass: real, isPrefix: bool) returns (r: (Option<real>, real))
      requires Valid()
      ensures r.0 == BestNodeMass(residueMass, isPrefix)
      ensures r.1 == TotalScore(residueMass, isPrefix)
    {
      ghost var mt := MassTable(residueMass, isPrefix);
      ghost var st := ScoreTable(residueMass, isPrefix);
      var nodeMass: Option<real> := None;
      var nodeScore := 0.0;
      var curBestScore := 0.0;
      for segIndex := 0 to scorer.numSegments
        invariant FirstMax.Best(nodeMass, curBestScore) == LoopOrder.BestBefore(mt, segIndex, 0)
        invariant nodeScore == LoopOrder.SumBefore(st, segIndex, 0)
      {
        nodeMass, curBestScore, nodeScore :=
          SegmentMassAndScore(segIndex, residueMass, isPrefix, nodeMass, curBestScore, nodeScore);
      }
      LoopOrder.BestBeforeIsScan(mt, |mt|, 0);
      LoopOrder.SumBeforeIsSum(st, |st|, 0);
      r := (nodeMass, nodeScore);
    }
  }
}
