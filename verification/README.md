# MS-GF+ scored spectrum and spectrum file formats, in Dafny

This project models two pieces of MS-GF+, a peptide identification engine for tandem mass spectra:

- **`NewScoredSpectrum`** binds one spectrum to one pretrained rank scorer.
  - Construction preprocesses the spectrum once:
    - precursor-peak filtering, once per registered precursor offset
    - re-ranking of the peaks
    - optional deconvolution
    - choice of the last-segment partition and its main ion
    - the background peak probability `probPeak`
  - The context then answers the queries of the de novo / database search graph:
    - node score
    - two-sided node score
    - edge score
    - corrected node mass
    - explained ion current
    - the mass error of the most intense singly-charged match
    - the best-evidence node mass together with the node score
- **`SpecFileFormat`** is the fixed table of seven spectrum file formats, each with its suffix, PSI-MS accession and PSI-MS name. A file's format is found by a case-insensitive ends-with test of its name against each suffix, in table order.

## Layout

- `wrappers.dfy`: `Option`.
- `spectrum.dfy` (module `Spectra`): the spectrum as the scorer sees it.
  - `Spectrum` is a class whose peak list the preprocessing replaces in place.
  - The peak-list algorithms (tolerance lookup, precursor filter, ranking, deconvolution) are functions carried in `PeakOps`.
- `rank_scorer.dfy` (module `RankScorers`): the trained scorer as a value of functions.
  - Ion types per segment, partitions, rank/missing/existence/error score tables, flags, tolerance.
  - An ion type's m/z and mass arithmetic.
- `first_max.dfy` (module `FirstMax`): the "keep the first strictly greater" scan used by two of the queries, with its characterisation.
- `loop_order.dfy` (module `LoopOrder`): per-segment tables walked in the order of the queries' two nested loops, plus the running sums and running bests those loops hold.
- `scored_spectrum.dfy` (module `ScoredSpectra`): the class `NewScoredSpectrum`.
  - Each loop query is a method proved equal to a fold over a per-segment table, in loop order.
  - Lemmas then state what that fold means.
- `spec_file_format.dfy` (module `SpecFileFormats`): the format table, the lookup and the static initialiser.

### How the model reads the Java

- The getters at NewScoredSpectrum.java lines 67-73, 109-127 and 320-322 are the class's `const` fields: `precursor`, `activationMethodArr`, `scorer`, `partition`, `probPeak`, `mainIon`, `scanNumArr`. The orientation of the main ion is `MainIonIsPrefix`.
- `null` results become `Option`. Java `float` becomes `real`.
- `getNodeMass` keeps the code's sentinel `-1` for "no evidence" rather than an absent value.
- `getMassErrorWithIntensity` yields no result in two cases:
  - no singly-charged ion matches a peak;
  - every matched intensity is at most 0 (the strict `>` against a best intensity that starts at 0).

## Model

| member | source | states |
|---|---|---|
| ScoredSpectra.NewScoredSpectrum.constructor | src/main/java/edu/ucsd/msjava/msscorer/NewScoredSpectrum.java:23-65 | ion types cached per segment from the original charge and parent mass; the caller's peaks filtered once per precursor offset, in order, then re-ranked; deconvolution yields a fresh spectrum with the same header; partition, main ion and probPeak come from the final spectrum; activation method falls back to the scorer's default |
| ScoredSpectra.FilterAllConcat | src/main/java/edu/ucsd/msjava/msscorer/NewScoredSpectrum.java:45-46 | the preprocessing FilterAll applies the offset entries one after another: filtering by one list and then another is filtering by both in turn |
| ScoredSpectra.NewScoredSpectrum.MainIonIsPrefix | src/main/java/edu/ucsd/msjava/msscorer/NewScoredSpectrum.java:125-127 | true iff the ion the scorer designates for the last-segment partition is a prefix ion |
| ScoredSpectra.ProbPeak | src/main/java/edu/ucsd/msjava/msscorer/NewScoredSpectrum.java:57-62 | probPeak is strictly positive; times max(bins, 1) it gives the peak count, with an empty spectrum counted as one peak |
| Spectra.Spectrum.FilterPrecursorPeaks | src/main/java/edu/ucsd/msjava/msscorer/NewScoredSpectrum.java:45-46 | one precursor-offset filter replaces the peak list in place |
| Spectra.Spectrum.SetRanksOfPeaks | src/main/java/edu/ucsd/msjava/msscorer/NewScoredSpectrum.java:47 | re-ranking replaces the peak list in place |
| Spectra.Spectrum.GetDeconvolutedSpectrum | src/main/java/edu/ucsd/msjava/msscorer/NewScoredSpectrum.java:50-51 | deconvolution returns a new spectrum and leaves the original untouched |
| ScoredSpectra.Round | src/main/java/edu/ucsd/msjava/msscorer/NewScoredSpectrum.java:78 | the result is the integer nearest to the argument, halves rounded up |
| ScoredSpectra.NewScoredSpectrum.PairNodeScore | src/main/java/edu/ucsd/msjava/msscorer/NewScoredSpectrum.java:75-79 | two-sided score = round(prefix node score + suffix node score) |
| ScoredSpectra.NewScoredSpectrum.NodeScoreOfNode | src/main/java/edu/ucsd/msjava/msscorer/NewScoredSpectrum.java:146-148 | a node's score is the node score at the node's mass |
| ScoredSpectra.NewScoredSpectrum.NodeScore | src/main/java/edu/ucsd/msjava/msscorer/NewScoredSpectrum.java:150-182 | the loop result is the sum, in loop order, of every ion's contribution |
| ScoredSpectra.NewScoredSpectrum.AddIonScore | src/main/java/edu/ucsd/msjava/msscorer/NewScoredSpectrum.java:154-178 | an ion of the wrong orientation or of another segment adds nothing; otherwise it adds its rank score for a matched peak, else its missing-ion score |
| ScoredSpectra.NewScoredSpectrum.NodeScoreTerm | src/main/java/edu/ucsd/msjava/msscorer/NewScoredSpectrum.java:152-179 | one term per ion at that ion's loop position: its rank or missing-ion score when both filters pass, 0 otherwise |
| ScoredSpectra.NewScoredSpectrum.NoPassingIonScoresZero | src/main/java/edu/ucsd/msjava/msscorer/NewScoredSpectrum.java:155-170 | when no ion passes the orientation and segment filters, the node score is 0 |
| ScoredSpectra.NewScoredSpectrum.SingleIonScore | src/main/java/edu/ucsd/msjava/msscorer/NewScoredSpectrum.java:150-182 | with one prefix ion in one segment, the prefix score is exactly that ion's rank or missing-ion score, and the suffix score is 0 |
| ScoredSpectra.NewScoredSpectrum.NodeMass | src/main/java/edu/ucsd/msjava/msscorer/NewScoredSpectrum.java:135-144 | 0 for a terminus (nominal mass 0); -1 when no peak matches the main ion; otherwise the mass the matched peak implies |
| ScoredSpectra.NewScoredSpectrum.NodeMassRoundTrip | src/main/java/edu/ucsd/msjava/msscorer/NewScoredSpectrum.java:138-141 | a peak sitting exactly at the main ion's m/z gives back the node's own mass when the ion's mass and m/z functions are inverse |
| ScoredSpectra.NewScoredSpectrum.ExistenceIndex | src/main/java/edu/ucsd/msjava/msscorer/NewScoredSpectrum.java:85-91 | the index lies in 0..3; bit 0 is set iff the current node has a non-negative mass, bit 1 iff the previous node has |
| ScoredSpectra.NewScoredSpectrum.EdgeScore | src/main/java/edu/ucsd/msjava/msscorer/NewScoredSpectrum.java:81-107 | 0 without edge-score support; otherwise the rounded existence score, with the error score of the mass difference added only at index 3 |
| ScoredSpectra.NewScoredSpectrum.EdgeScoreByEvidence | src/main/java/edu/ucsd/msjava/msscorer/NewScoredSpectrum.java:81-107 | the four presence patterns select indices 1, 2, 3 and 0; only both-present carries the error term; a terminus node, current or previous, always counts as present |
| ScoredSpectra.NewScoredSpectrum.ExplainedIonCurrent | src/main/java/edu/ucsd/msjava/msscorer/NewScoredSpectrum.java:184-213 | the loop result is the sum, in loop order, of every passing ion's matched intensity under the caller's tolerance |
| ScoredSpectra.NewScoredSpectrum.AddIonCurrent | src/main/java/edu/ucsd/msjava/msscorer/NewScoredSpectrum.java:188-209 | a filtered-out ion adds nothing; a passing ion adds its matched peak's intensity, or nothing without a match |
| ScoredSpectra.NewScoredSpectrum.ExplainedCurrentTerm | src/main/java/edu/ucsd/msjava/msscorer/NewScoredSpectrum.java:186-210 | one term per ion at its loop position: its matched intensity when both filters pass, 0 otherwise |
| ScoredSpectra.NewScoredSpectrum.ExplainedCurrentBounds | src/main/java/edu/ucsd/msjava/msscorer/NewScoredSpectrum.java:184-213 | with non-negative intensities, the explained current is non-negative and at least every passing ion's matched intensity |
| ScoredSpectra.Ppm | src/main/java/edu/ucsd/msjava/msscorer/NewScoredSpectrum.java:248 | error times theoretical m/z equals the m/z difference times 10^6; an exact match has error 0 |
| ScoredSpectra.NewScoredSpectrum.MassErrorWithIntensity | src/main/java/edu/ucsd/msjava/msscorer/NewScoredSpectrum.java:215-273 | the loop result is the first-strict-maximum scan, in loop order, of the candidates' (intensity, ppm error) |
| ScoredSpectra.NewScoredSpectrum.ErrorStep | src/main/java/edu/ucsd/msjava/msscorer/NewScoredSpectrum.java:224-261 | one ion is one scan step: only a charge-1, passing, matched ion with strictly greater intensity replaces the best |
| ScoredSpectra.NewScoredSpectrum.MassErrorCandidate | src/main/java/edu/ucsd/msjava/msscorer/NewScoredSpectrum.java:224-252 | an ion is a candidate iff it has charge 1, passes both filters and matches a peak; its key is the intensity and its payload the ppm error |
| ScoredSpectra.NewScoredSpectrum.MassErrorIsFirstMostIntense | src/main/java/edu/ucsd/msjava/msscorer/NewScoredSpectrum.java:255-272 | no result iff no candidate has positive intensity; otherwise the result is the error of the first candidate of greatest intensity, paired with that intensity |
| ScoredSpectra.NewScoredSpectrum.NodeMassAndScore | src/main/java/edu/ucsd/msjava/msscorer/NewScoredSpectrum.java:275-318 | the score equals the node score at the same mass; the mass is the first-strict-maximum scan of the charge-1 candidates' (rank score, implied mass) |
| ScoredSpectra.NewScoredSpectrum.SegmentMassAndScore | src/main/java/edu/ucsd/msjava/msscorer/NewScoredSpectrum.java:281-315 | the inner loop carries the running best and running sum from the start of one segment to the start of the next |
| ScoredSpectra.NewScoredSpectrum.MassAndScoreStep | src/main/java/edu/ucsd/msjava/msscorer/NewScoredSpectrum.java:282-314 | one ion adds its node-score term; a charge-1 matched ion scoring strictly above the best replaces the best mass |
| ScoredSpectra.NewScoredSpectrum.NodeMassCandidate | src/main/java/edu/ucsd/msjava/msscorer/NewScoredSpectrum.java:300-309 | an ion is a candidate iff it has charge 1, passes both filters and matches a peak; its key is the very term it adds to the node score |
| ScoredSpectra.NewScoredSpectrum.BestNodeMassIsFirstBestScore | src/main/java/edu/ucsd/msjava/msscorer/NewScoredSpectrum.java:303-309 | no mass iff no candidate scores above 0; otherwise the mass of the first candidate with the greatest positive score |
| FirstMax.ScanIsFirstMaximum | src/main/java/edu/ucsd/msjava/msscorer/NewScoredSpectrum.java:255-261 | the scan keeps a non-negative best that bounds every key; it chooses nothing iff no key is positive; otherwise it chooses the payload of the first key equal to the best |
| LoopOrder.SumBeforeIsSum | src/main/java/edu/ucsd/msjava/msscorer/NewScoredSpectrum.java:152-180 | the running sum of the nested loops equals the sum of the entries visited so far |
| LoopOrder.BestBeforeIsScan | src/main/java/edu/ucsd/msjava/msscorer/NewScoredSpectrum.java:222-264 | the running best of the nested loops equals the scan of the entries visited so far |
| LoopOrder.AllIndex | src/main/java/edu/ucsd/msjava/msscorer/NewScoredSpectrum.java:152-153 | the j-th ion of segment s is visited after every ion of earlier segments and the first j of its own |
| LoopOrder.OffsetStep | src/main/java/edu/ucsd/msjava/msscorer/NewScoredSpectrum.java:152-153 | segment s occupies the next |t[s]| positions after the earlier segments, and the segments together fill loop order |
| LoopOrder.Locate | src/main/java/edu/ucsd/msjava/msscorer/NewScoredSpectrum.java:152-153 | every position in loop order belongs to some ion j of some segment s |
| LoopOrder.PositionsDistinct | src/main/java/edu/ucsd/msjava/msscorer/NewScoredSpectrum.java:152-153 | no two ions share a position, so each ion is visited exactly once |
| LoopOrder.SumBounds | src/main/java/edu/ucsd/msjava/msscorer/NewScoredSpectrum.java:208-209 | a sum of non-negative values is non-negative and at least each of them |
| SpecFileFormats.ToLowerChar | src/main/java/edu/ucsd/msjava/msutil/SpecFileFormat.java:122 | an upper-case ASCII letter becomes its lower-case partner; lower-case letters and non-letters are unchanged |
| SpecFileFormats.ToLower | src/main/java/edu/ucsd/msjava/msutil/SpecFileFormat.java:122 | same length, lowercased character by character |
| SpecFileFormats.ToLowerIdempotent | src/main/java/edu/ucsd/msjava/msutil/SpecFileFormat.java:122 | lowercasing twice is lowercasing once |
| SpecFileFormats.GetSpecFileFormat | src/main/java/edu/ucsd/msjava/msutil/SpecFileFormat.java:120-132 | None iff no format's lowercased suffix ends the lowercased name; otherwise the first such format of the table |
| SpecFileFormats.FirstMatch | src/main/java/edu/ucsd/msjava/msutil/SpecFileFormat.java:123-131 | None iff no format matches; otherwise a matching format with no earlier format matching |
| SpecFileFormats.BuildFormatList | src/main/java/edu/ucsd/msjava/msutil/SpecFileFormat.java:135-152 | the static block builds MGF, mzXML, mzML, MS2, PKL, mzData, dta.txt in that order, and their suffixes do not overlap |
| SpecFileFormats.LowerSuffixes | src/main/java/edu/ucsd/msjava/msutil/SpecFileFormat.java:136-142 | the lowercased suffixes are ".mgf", ".mzxml", ".mzml", ".ms2", ".pkl", ".mzdata" and "_dta.txt" |
| SpecFileFormats.KeyOfFormat | src/main/java/edu/ucsd/msjava/msutil/SpecFileFormat.java:136-142 | each suffix has at least three characters, and its last three, lowercased, are the listed key |
| SpecFileFormats.EndsWithKey | src/main/java/edu/ucsd/msjava/msutil/SpecFileFormat.java:127 | a case-insensitive ends-with match against a suffix of three or more characters fixes the name's last three lowercased characters |
| SpecFileFormats.FormatSuffixesDoNotOverlap | src/main/java/edu/ucsd/msjava/msutil/SpecFileFormat.java:136-142 | no lowercased suffix of the table ends another's |
| SpecFileFormats.AtMostOneMatch | src/main/java/edu/ucsd/msjava/msutil/SpecFileFormat.java:123-129 | at most one format of the table matches any file name |
| SpecFileFormats.GetSpecFileFormatIsTheMatch | src/main/java/edu/ucsd/msjava/msutil/SpecFileFormat.java:120-132 | the lookup yields f iff f is in the table and matches, whatever the table order; it yields None iff no format matches |
| SpecFileFormats.CaseInsensitive | src/main/java/edu/ucsd/msjava/msutil/SpecFileFormat.java:122 | names differing only in letter case have the same format |
| SpecFileFormats.MzXMLInAnyCase | src/main/java/edu/ucsd/msjava/msutil/SpecFileFormat.java:137 | names ending ".MZXML", ".mzxml" or ".mzXML" are all mzXML files |
| SpecFileFormats.DtaTxtInAnyCase | src/main/java/edu/ucsd/msjava/msutil/SpecFileFormat.java:142 | a name ending "_DTA.TXT" is a PNNL dta.txt file |
| SpecFileFormats.NoMatchForUnknownEnding | src/main/java/edu/ucsd/msjava/msutil/SpecFileFormat.java:131 | a name whose last three lowercased characters are no suffix's yields None |
| SpecFileFormats.RawFileHasNoFormat | src/main/java/edu/ucsd/msjava/msutil/SpecFileFormat.java:131 | "x.raw" yields None |
| SpecFileFormats.AccessorValues | src/main/java/edu/ucsd/msjava/msutil/SpecFileFormat.java:35-43 | getPSIAccession and getPSIName return the constructor's values (MGF "MS:1001062" / "Mascot MGF file", mzML "MS:1000584" / "mzML file"); every accession starts "MS:" |

## Left out

- `getSpecMap` and `getSpecItr` (SpecFileFormat.java lines 53-118) are not modelled. They open files and build parsers, which is I/O outside this model.
- src/misc/CountID.java is not part of this model. It is a command-line tool that reads result files.
- The spectrum's own algorithms are abstract functions in `PeakOps`. These are peak lookup by mass and tolerance, precursor filtering, ranking and deconvolution. So two claims about preprocessing depend on those algorithms and are not stated: that the order of the offset filters does not matter, and that preprocessing a spectrum twice gives the same spectrum.
- The scorer's trained tables and an ion type's m/z and mass arithmetic are abstract functions in `RankScorer`. So, for example, the claim that a matched peak scores higher than a missing one depends on the trained values and is not stated.
- Spectra.Spectrum.GetDeconvolutedSpectrum: assumes that deconvolution keeps the spectrum's header (charge, precursor and peptide mass, scan number, activation method).
- Spectra.Spectrum.PeakByMass: `Spectrum.getPeakByMass` is not part of this model. It is the abstract `PeakOps.peakByMass` applied to the current peak list, and nothing is stated about which peak it picks or how the tolerance is applied.
- Java `float` arithmetic is modelled on exact reals, with no rounding, overflow, infinity or NaN.
- Round: does not model Math.round's clamping to the 32-bit `int` range.
- Ppm: returns 0 when the theoretical m/z is 0, where Java's float division gives infinity or NaN.
- ScoredSpectra.NewScoredSpectrum.constructor: requires a positive model tolerance. With a zero tolerance, Java's division would make the bin count infinite.
- `getSpecDataType().getActivationMethod()` is collapsed into one scorer field, `defaultActivationMethod`.
- The commented-out debug code (NewScoredSpectrum.java lines 97-105 and 253-270) is not modelled.
- ToLower: lowercases ASCII letters only. Java's locale-dependent Unicode lowercasing is not modelled.
- The `FileFormat` superclass is not part of this model. Each format has exactly one suffix, so the loop over `getSuffixes()` at SpecFileFormat.java line 125 runs once per format.
- Concurrent sharing of a constructed context is not modelled. The context's fields are `const`, but the state the queries read is not frozen:
  - Without deconvolution, the context holds the caller's spectrum, as NewScoredSpectrum.java line 64 stores the caller's reference. Its peak list stays mutable, so a later filter or re-rank by the caller changes every query's answer, as in the Java.
  - The elements of the `ionTypes` array can still be assigned. Only the `Valid()` precondition of the queries ties them to the lists cached at construction.
