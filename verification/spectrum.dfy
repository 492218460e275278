/**
 * The spectrum consumed by the scoring context. Only its boundary is modelled:
 * the peak list is a sequence that the preprocessing methods replace, and the
 * peak-list algorithms themselves (precursor filtering, ranking, deconvolution,
 * tolerance lookup) are abstract functions carried in `PeakOps`.
 */
module Spectra {
  import opened Wrappers

  /** One observed peak: mass-to-charge, intensity and intensity rank. */
  datatype Peak = Peak(mz: real, intensity: real, rank: int)

  /** A mass tolerance; `value` is in Da or in ppm. */
  datatype Tolerance = Tolerance(value: real, isPpm: bool)

  /** The fragmentation method recorded for a spectrum (CID, ETD, HCD, ...). */
  datatype ActivationMethod = ActivationMethod(name: string)

  /** Scalar metadata of a spectrum, kept by every preprocessing step. */
  datatype SpectrumHeader = SpectrumHeader(
    charge: int,
    precursorMass: real,
    peptideMass: real,
    precursorPeak: Peak,
    scanNum: int,
    activationMethod: Option<ActivationMethod>)

  /**
   * The spectrum's own algorithms, which are not part of this model:
   * `peakByMass(peaks, mass, tol)` is the peak of least error within `tol` of `mass`,
   * `filterPrecursor(peaks, precursorMass, tol, reducedCharge, offset)` removes
   * peaks near a precursor offset, `rank` recomputes intensity ranks and
   * `deconvolute(peaks, tol)` merges isotope and charge duplicates.
   */
  datatype PeakOps = PeakOps(
    peakByMass: (seq<Peak>, real, Tolerance) -> Option<Peak>,
    filterPrecursor: (seq<Peak>, real, Tolerance, int, real) -> seq<Peak>,
    rank: seq<Peak> -> seq<Peak>,
    deconvolute: (seq<Peak>, real) -> seq<Peak>)

  class Spectrum {
    const header: SpectrumHeader
    const ops: PeakOps
    var peaks: seq<Peak>

    constructor (header: SpectrumHeader, ops: PeakOps, peaks: seq<Peak>)
      ensures this.header == header && this.ops == ops && this.peaks == peaks
    {
      this.header := header;
      this.ops := ops;
      this.peaks := peaks;
    }

    /** Number of peaks. */
    function Size(): nat
      reads this
    {
      |peaks|
    }

    /** The peak matching `mass` within `tol`, or None. */
    function PeakByMass(mass: real, tol: Tolerance): Option<Peak>
      reads this
    {
      ops.peakByMass(peaks, mass, tol)
    }

    /** Removes the peaks explained by one precursor offset, in place. */
    method FilterPrecursorPeaks(tol: Tolerance, reducedCharge: int, offset: real)
      modifies this
      ensures peaks == ops.filterPrecursor(old(peaks), header.precursorMass, tol, reducedCharge, offset)
    {
      peaks := ops.filterPrecursor(peaks, header.precursorMass, tol, reducedCharge, offset);
    }

    /** Recomputes the intensity ranks of the current peaks, in place. */
    method SetRanksOfPeaks()
      modifies this
      ensures peaks == ops.rank(old(peaks))
    {
      peaks := ops.rank(peaks);
    }

    /** A new spectrum with the same header whose peaks are deconvoluted; this one is unchanged. */
    method GetDeconvolutedSpectrum(tol: real) returns (d: Spectrum)
      ensures fresh(d)
      ensures d.header == header && d.ops == ops && d.peaks == ops.deconvolute(peaks, tol)
    {
      d := new Spectrum(header, ops, ops.deconvolute(peaks, tol));
    }
  }
}
