/**
 * Spectrum file formats (SpecFileFormat): a fixed, ordered table of seven
 * formats, each with one file-name suffix, a PSI-MS accession and a PSI-MS
 * name, and the lookup of a file's format by a case-insensitive ends-with
 * test of its name against each suffix in table order.
 */
module SpecFileFormats {
  import opened Wrappers

  /** One format: the suffix given to the constructor, and the two PSI-MS values its accessors return. */
  datatype SpecFileFormat = SpecFileFormat(suffix: string, psiAccession: string, psiName: string)

  const MGF := SpecFileFormat(".mgf", "MS:1001062", "Mascot MGF file")
  const MZXML := SpecFileFormat(".mzXML", "MS:1000566", "ISB mzXML file")
  const MZML := SpecFileFormat(".mzML", "MS:1000584", "mzML file")
  const MS2 := SpecFileFormat(".ms2", "MS:1001466", "MS2 file")
  const PKL := SpecFileFormat(".pkl", "MS:1000565", "Micromass PKL file")
  const MZDATA := SpecFileFormat(".mzData", "MS:1000564", "PSI mzData file")
  const DTA_TXT := SpecFileFormat("_dta.txt", "MS:XXXXXXX", "PNNL dta.txt file")

  /** The format list in the order the lookup searches it. */
  const Formats: seq<SpecFileFormat> := [MGF, MZXML, MZML, MS2, PKL, MZDATA, DTA_TXT]

  /** String.toLowerCase on one character, restricted to ASCII letters. */
  function ToLowerChar(c: char): (r: char)
    ensures !('A' <= r <= 'Z')
    ensures 'a' <= c <= 'z' || !('A' <= c <= 'Z') ==> r == c
    ensures 'A' <= c <= 'Z' ==> r == (c as int - 'A' as int + 'a' as int) as char
  {
    if 'A' <= c <= 'Z' then (c as int - 'A' as int + 'a' as int) as char else c
  }

  /** String.toLowerCase, restricted to ASCII letters. */
  function ToLower(s: string): (r: string)
    ensures |r| == |s|
    ensures forall i :: 0 <= i < |s| ==> r[i] == ToLowerChar(s[i])
  {
    seq(|s|, i requires 0 <= i < |s| => ToLowerChar(s[i]))
  }

  /** Lowercasing twice is lowercasing once. */
  lemma ToLowerIdempotent(s: string)
    ensures ToLower(ToLower(s)) == ToLower(s)
  {
    assert forall i :: 0 <= i < |s| ==> ToLowerChar(ToLowerChar(s[i])) == ToLowerChar(s[i]);
  }

  /** Two strings that differ at most in the case of ASCII letters. */
  predicate SameIgnoringCase(a: string, b: string)
  {
    |a| == |b| && forall i :: 0 <= i < |a| ==> ToLowerChar(a[i]) == ToLowerChar(b[i])
  }

  lemma ToLowerOfSameIgnoringCase(a: string, b: string)
    requires SameIgnoringCase(a, b)
    ensures ToLower(a) == ToLower(b)
  {
  }

  /** String.endsWith. */
  predicate EndsWith(s: string, suffix: string)
  {
    |suffix| <= |s| && s[|s| - |suffix|..] == suffix
  }

  /** Two suffixes of one string: the shorter is a suffix of the longer. */
  lemma EndsWithBoth(s: string, a: string, b: string)
    requires EndsWith(s, a) && EndsWith(s, b) && |a| <= |b|
    ensures EndsWith(b, a)
  {
    assert b[|b| - |a|..] == s[|s| - |a|..];
  }

  /** Whether a format's lowercased suffix ends the (already lowercased) file name. */
  predicate Matches(lowerName: string, f: SpecFileFormat)
  {
    EndsWith(lowerName, ToLower(f.suffix))
  }

  /**
   * The search of getSpecFileFormat over a list: the first format whose
   * lowercased suffix ends the lowercased name, or None when there is none.
   */
  function FirstMatch(lowerName: string, fs: seq<SpecFileFormat>): (r: Option<SpecFileFormat>)
    ensures r.None? <==> forall i :: 0 <= i < |fs| ==> !Matches(lowerName, fs[i])
    ensures r.Some? ==>
      exists i :: 0 <= i < |fs| && fs[i] == r.value && Matches(lowerName, fs[i])
        && forall j :: 0 <= j < i ==> !Matches(lowerName, fs[j])
  {
    if fs == [] then None
    else if Matches(lowerName, fs[0]) then Some(fs[0])
    else
      var r := FirstMatch(lowerName, fs[1..]);
      assert forall i :: 0 < i < |fs| ==> fs[i] == fs[1..][i - 1];
      r
  }

  /** getSpecFileFormat: the format of a file name, or None (null) when no suffix matches. */
  function GetSpecFileFormat(specFileName: string): (r: Option<SpecFileFormat>)
    ensures r.None? <==> forall i :: 0 <= i < |Formats| ==> !Matches(ToLower(specFileName), Formats[i])
    ensures r.Some? ==>
      exists i :: 0 <= i < |Formats| && Formats[i] == r.value && Matches(ToLower(specFileName), Formats[i])
        && forall j :: 0 <= j < i ==> !Matches(ToLower(specFileName), Formats[j])
  {
    FirstMatch(ToLower(specFileName), Formats)
  }

  /** The static initialiser: the list is built by appending the seven formats in order. */
  method BuildFormatList() returns (list: seq<SpecFileFormat>)
    ensures list == Formats
    ensures NoSuffixOverlap(list)
  {
    list := [];
    list := list + [MGF];
    list := list + [MZXML];
    list := list + [MZML];
    list := list + [MS2];
    list := list + [PKL];
    list := list + [MZDATA];
    list := list + [DTA_TXT];
    FormatSuffixesDoNotOverlap();
  }

  /** No lowercased suffix of one format ends the lowercased suffix of another. */
  predicate NoSuffixOverlap(fs: seq<SpecFileFormat>)
  {
    forall i, j :: 0 <= i < |fs| && 0 <= j < |fs| && i != j ==>
      !EndsWith(ToLower(fs[j].suffix), ToLower(fs[i].suffix))
  }

  /** The lowercased suffixes of the table, in order. */
  lemma LowerSuffixes()
    ensures ToLower(MGF.suffix) == ".mgf"
    ensures ToLower(MZXML.suffix) == ".mzxml"
    ensures ToLower(MZML.suffix) == ".mzml"
    ensures ToLower(MS2.suffix) == ".ms2"
    ensures ToLower(PKL.suffix) == ".pkl"
    ensures ToLower(MZDATA.suffix) == ".mzdata"
    ensures ToLower(DTA_TXT.suffix) == "_dta.txt"
  {
  }

  /** The last three characters of a string, lowercased. */
  function Key(s: string): (char, char, char)
    requires |s| >= 3
  {
    (ToLowerChar(s[|s| - 3]), ToLowerChar(s[|s| - 2]), ToLowerChar(s[|s| - 1]))
  }

  /** The keys of the seven suffixes, in table order. */
  const SuffixKeys: seq<(char, char, char)> :=
    [('m', 'g', 'f'), ('x', 'm', 'l'), ('z', 'm', 'l'), ('m', 's', '2'), ('p', 'k', 'l'), ('a', 't', 'a'), ('t', 'x', 't')]

  lemma SuffixKeysDistinct()
    ensures forall i, j :: 0 <= i < |SuffixKeys| && 0 <= j < |SuffixKeys| && i != j ==> SuffixKeys[i] != SuffixKeys[j]
  {
  }

  /** Each format's suffix has the key listed at its position. */
  lemma KeyOfFormat(i: nat)
    requires i < |Formats|
    ensures |Formats[i].suffix| >= 3 && Key(Formats[i].suffix) == SuffixKeys[i]
  {
  }

  /** A name whose lowercased form ends with a lowercased suffix of three or more characters shares its key. */
  lemma EndsWithKey(s: string, t: string)
    requires |t| >= 3 && EndsWith(ToLower(s), ToLower(t))
    ensures Key(s) == Key(t)
  {
    var ls, lt := ToLower(s), ToLower(t);
    var tail := ls[|ls| - |lt|..];
    assert tail == lt;
    assert ls[|ls| - 1] == tail[|lt| - 1];
    assert ls[|ls| - 2] == tail[|lt| - 2];
    assert ls[|ls| - 3] == tail[|lt| - 3];
  }

  /**
   * The seven lowercased suffixes do not overlap: none is a suffix of
   * another, since their last three characters already differ.
   */
  lemma FormatSuffixesDoNotOverlap()
    ensures NoSuffixOverlap(Formats)
  {
    forall i, j | 0 <= i < |Formats| && 0 <= j < |Formats| && i != j
      ensures !EndsWith(ToLower(Formats[j].suffix), ToLower(Formats[i].suffix))
    {
      KeyOfFormat(i);
      KeyOfFormat(j);
      SuffixKeysDistinct();
      if EndsWith(ToLower(Formats[j].suffix), ToLower(Formats[i].suffix)) {
        EndsWithKey(Formats[j].suffix, Formats[i].suffix);
      }
    }
  }

  /** Because the suffixes do not overlap, at most one format of the table matches any file name. */
  lemma AtMostOneMatch(specFileName: string, i: nat, j: nat)
    requires i < |Formats| && j < |Formats|
    requires Matches(ToLower(specFileName), Formats[i]) && Matches(ToLower(specFileName), Formats[j])
    ensures i == j
  {
    var n := ToLower(specFileName);
    var a := ToLower(Formats[i].suffix);
    var b := ToLower(Formats[j].suffix);
    FormatSuffixesDoNotOverlap();
    if i != j {
      if |a| <= |b| {
        EndsWithBoth(n, a, b);
      } else {
        EndsWithBoth(n, b, a);
      }
    }
  }

  /**
   * The lookup does not depend on the table order: a file name yields a
   * format exactly when that format is in the table and its lowercased
   * suffix ends the lowercased name, and yields None exactly when no format
   * of the table matches.
   */
  lemma GetSpecFileFormatIsTheMatch(specFileName: string, f: SpecFileFormat)
    ensures GetSpecFileFormat(specFileName) == Some(f) <==>
      f in Formats && Matches(ToLower(specFileName), f)
    ensures GetSpecFileFormat(specFileName).None? <==>
      forall g :: g in Formats ==> !Matches(ToLower(specFileName), g)
  {
    var n := ToLower(specFileName);
    var r := GetSpecFileFormat(specFileName);
    if f in Formats && Matches(n, f) {
      var j :| 0 <= j < |Formats| && Formats[j] == f;
      assert r.Some?;
      var i :| 0 <= i < |Formats| && Formats[i] == r.value && Matches(n, Formats[i]);
      AtMostOneMatch(specFileName, i, j);
    }
    if forall g :: g in Formats ==> !Matches(n, g) {
      assert forall i :: 0 <= i < |Formats| ==> Formats[i] in Formats;
    }
  }

  /** File names that differ only in ASCII letter case have the same format. */
  lemma CaseInsensitive(a: string, b: string)
    requires SameIgnoringCase(a, b)
    ensures GetSpecFileFormat(a) == GetSpecFileFormat(b)
  {
    ToLowerOfSameIgnoringCase(a, b);
  }

  /** Any file name ending in ".mzXML", in any letter case, is an mzXML file: "a.MZXML", "a.mzxml", "a.mzXML". */
  lemma MzXMLInAnyCase(stem: string)
    ensures GetSpecFileFormat(stem + ".MZXML") == Some(MZXML)
    ensures GetSpecFileFormat(stem + ".mzxml") == Some(MZXML)
    ensures GetSpecFileFormat(stem + ".mzXML") == Some(MZXML)
  {
    LowerSuffixes();
    assert ToLower(stem + ".MZXML") == ToLower(stem) + ".mzxml";
    assert ToLower(stem + ".mzxml") == ToLower(stem) + ".mzxml";
    assert ToLower(stem + ".mzXML") == ToLower(stem) + ".mzxml";
    GetSpecFileFormatIsTheMatch(stem + ".MZXML", MZXML);
    GetSpecFileFormatIsTheMatch(stem + ".mzxml", MZXML);
    GetSpecFileFormatIsTheMatch(stem + ".mzXML", MZXML);
  }

  /** A name ending in "_DTA.TXT" is a PNNL dta.txt file, although ".txt" alone names no format. */
  lemma DtaTxtInAnyCase(stem: string)
    ensures GetSpecFileFormat(stem + "_DTA.TXT") == Some(DTA_TXT)
  {
    LowerSuffixes();
    assert ToLower(stem + "_DTA.TXT") == ToLower(stem) + "_dta.txt";
    GetSpecFileFormatIsTheMatch(stem + "_DTA.TXT", DTA_TXT);
  }

  /** A name whose last three characters, lowercased, are the key of no suffix names no format. */
  lemma NoMatchForUnknownEnding(specFileName: string)
    requires |specFileName| >= 3 && Key(specFileName) !in SuffixKeys
    ensures GetSpecFileFormat(specFileName) == None
  {
    forall i | 0 <= i < |Formats| ensures !Matches(ToLower(specFileName), Formats[i]) {
      KeyOfFormat(i);
      if Matches(ToLower(specFileName), Formats[i]) {
        EndsWithKey(specFileName, Formats[i].suffix);
      }
    }
  }

  /** "x.raw" names no spectrum file. */
  lemma RawFileHasNoFormat()
    ensures GetSpecFileFormat("x.raw") == None
  {
    assert Key("x.raw") == ('r', 'a', 'w');
    NoMatchForUnknownEnding("x.raw");
  }

  /** getPSIAccession and getPSIName return the values each format was built with. */
  lemma AccessorValues()
    ensures MGF.psiAccession == "MS:1001062" && MGF.psiName == "Mascot MGF file"
    ensures MZML.psiAccession == "MS:1000584" && MZML.psiName == "mzML file"
    ensures forall f :: f in Formats ==> f.psiAccession[..3] == "MS:"
  {
  }
}
