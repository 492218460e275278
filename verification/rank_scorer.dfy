/**
 * The pretrained statistical scorer queried by the scoring context, and the
 * ion types and partitions it is made of. Its tables and the ion arithmetic
 * are not part of this model: they are functions carried in `RankScorer`.
 */
module RankScorers {
  import opened Spectra

  /** The two fragment-ion families: N-terminal (prefix) and C-terminal (suffix). */
  datatype IonKind = PrefixIon | SuffixIon

  /** A fragment-ion type: family, charge and mass offset. */
  datatype IonType = IonType(kind: IonKind, charge: int, offset: real)

  /** A statistical bucket selected by charge, parent mass and segment. */
  datatype Partition = Partition(charge: int, parentMass: real, segNum: int)

  /** One precursor-offset-frequency entry: peaks near precursor/reducedCharge + offset are noise. */
  datatype PrecursorOffset = PrecursorOffset(reducedCharge: int, offset: real)

  /**
   * The scorer's interface as the scoring context uses it.
   * `ionMz(ion, mass)` and `ionMass(ion, mz)` stand for IonType.getMz and IonType.getMass.
   */
  datatype RankScorer = RankScorer(
    mme: Tolerance,
    numSegments: nat,
    ionTypesOf: (int, real, int) -> seq<IonType>,
    partitionOf: (int, real, int) -> Partition,
    segmentNum: (real, real) -> int,
    mainIonType: Partition -> IonType,
    nodeScore: (Partition, IonType, int) -> real,
    missingIonScore: (Partition, IonType) -> real,
    ionExistenceScore: (Partition, int, real) -> real,
    errorScore: (Partition, real) -> real,
    supportEdgeScores: bool,
    applyDeconvolution: bool,
    deconvolutionErrorTolerance: real,
    precursorOFF: int -> seq<PrecursorOffset>,
    defaultActivationMethod: ActivationMethod,
    ionMz: (IonType, real) -> real,
    ionMass: (IonType, real) -> real)
}
