/** The set of file paths one simulation run reads and writes: the inputs as
    given, and seven outputs that share one stem and differ in extension. */
module PathDict {
  import opened Strings
  import opened Values
  import opened Paths

  predicate IsKeywordChar(c: char)
  {
    ('A' <= c <= 'Z') || ('0' <= c <= '9')
  }

  /** The random draw behind a generated keyword: five characters from
      `A-Z0-9`. */
  type KeywordDraw = s: string | |s| == 5 && forall i :: 0 <= i < |s| ==> IsKeywordChar(s[i])
    witness "AAAAA"

  /** The paths of a run, keyed as in the source's dictionary. */
  datatype PathSet = PathSet(
    pdbFile: string,
    metadataParamsFile: string,
    crdFile: string,
    mrcFile: string,
    logFile: string,
    inpFile: string,
    h5File: string,
    starFile: string,
    defocusFile: string)

  /** The keyword appended to the pdb stem: the caller's, else `_` and the
      drawn characters. */
  function Keyword(keyword: Option<string>, draw: KeywordDraw): (r: string)
    ensures keyword.Some? ==> r == keyword.value
    ensures keyword.None? ==> |r| == 6 && r[0] == '_' && forall i :: 1 <= i < 6 ==> IsKeywordChar(r[i])
  {
    if keyword.Some? then keyword.value else "_" + draw
  }

  /** The stem shared by every output file. */
  function SharedStem(pdbFile: string, keyword: Option<string>, draw: KeywordDraw): string
  {
    Stem(pdbFile) + Keyword(keyword, draw)
  }

  /** The output directory: the caller's, else the pdb file's parent. */
  function OutputDir(pdbFile: string, outputDir: Option<string>): (r: string)
    ensures outputDir.Some? ==> r == outputDir.value
    ensures outputDir.None? ==> r == Parent(pdbFile)
  {
    if outputDir.Some? then outputDir.value else Parent(pdbFile)
  }

  predicate EndsWith(s: string, tail: string)
  {
    |tail| <= |s| && s[|s| - |tail|..] == tail
  }

  /** `str(Path(dir, base + ext))`. */
  function OutputPath(dir: string, base: string, ext: string): (r: string)
    ensures EndsWith(r, base + ext)
  {
    JoinPath(dir, base + ext)
  }

  /** Builds the run's paths; the random keyword is the drawn `draw`. Every
      output is the shared stem plus its extension, in the output directory;
      the defocus file adds `_defocus` to the stem. */
  function GeneratePathDict(pdbFile: string, metadataParamsFile: string, outputDir: Option<string>,
                            keyword: Option<string>, draw: KeywordDraw): (r: PathSet)
    ensures r.pdbFile == pdbFile && r.metadataParamsFile == metadataParamsFile
    ensures var dir := OutputDir(pdbFile, outputDir);
            var stem := SharedStem(pdbFile, keyword, draw);
            && r.crdFile == JoinPath(dir, stem + ".txt")
            && r.mrcFile == JoinPath(dir, stem + ".mrc")
            && r.logFile == JoinPath(dir, stem + ".log")
            && r.inpFile == JoinPath(dir, stem + ".inp")
            && r.h5File == JoinPath(dir, stem + ".h5")
            && r.starFile == JoinPath(dir, stem + ".star")
            && r.defocusFile == JoinPath(dir, stem + "_defocus" + ".txt")
  {
    RunPaths(pdbFile, metadataParamsFile, OutputDir(pdbFile, outputDir), SharedStem(pdbFile, keyword, draw))
  }

  /** The paths of a run once its output directory and shared stem are
      fixed. */
  function RunPaths(pdbFile: string, metadataParamsFile: string, dir: string, stem: string): PathSet
  {
    PathSet(
      pdbFile,
      metadataParamsFile,
      OutputPath(dir, stem, ".txt"),
      OutputPath(dir, stem, ".mrc"),
      OutputPath(dir, stem, ".log"),
      OutputPath(dir, stem, ".inp"),
      OutputPath(dir, stem, ".h5"),
      OutputPath(dir, stem, ".star"),
      OutputPath(dir, stem + "_defocus", ".txt"))
  }

  /** The extension of output `k` of the path set, in field order. */
  function OutputExtension(k: nat): string
    requires k < 7
  {
    if k == 0 then ".txt" else if k == 1 then ".mrc" else if k == 2 then ".log"
    else if k == 3 then ".inp" else if k == 4 then ".h5" else if k == 5 then ".star"
    else ".txt"
  }

  /** The base name of output `k`: the shared stem, with `_defocus` added for
      the defocus file. */
  function OutputBase(stem: string, k: nat): string
  {
    if k == 6 then stem + "_defocus" else stem
  }

  /** The seven outputs of one stem in one directory, in field order. */
  function Outputs(dir: string, stem: string): (r: seq<string>)
    ensures |r| == 7
    ensures forall k :: 0 <= k < 7 ==> r[k] == OutputPath(dir, OutputBase(stem, k), OutputExtension(k))
  {
    seq(7, k requires 0 <= k < 7 => OutputPath(dir, OutputBase(stem, k), OutputExtension(k)))
  }

  /** A stem, like the name it comes from, holds no separator. */
  lemma StemNoSeparator(p: string)
    ensures NoSeparator(Stem(p))
  {
    var stem := Stem(p);
    forall i | 0 <= i < |stem| ensures stem[i] != '/' {
      assert stem[i] == (stem + Suffix(p))[i];
    }
  }

  /** The file `base + ext` in `dir` has suffix `ext` and stem `base`. */
  lemma OutputFile(dir: string, base: string, ext: string)
    requires base != [] && NoSeparator(base) && IsExtension(ext)
    ensures Suffix(OutputPath(dir, base, ext)) == ext && Stem(OutputPath(dir, base, ext)) == base
  {
    NamedFile(dir, base, ext);
  }

  /** The shared stem of a caller keyword without separators, or of a drawn
      one, holds no separator. */
  lemma SharedStemNoSeparator(pdbFile: string, keyword: Option<string>, draw: KeywordDraw)
    requires keyword.Some? ==> NoSeparator(keyword.value)
    ensures NoSeparator(SharedStem(pdbFile, keyword, draw))
    ensures NoSeparator(SharedStem(pdbFile, keyword, draw) + "_defocus")
  {
    var stem := SharedStem(pdbFile, keyword, draw);
    StemNoSeparator(pdbFile);
    var kw := Keyword(keyword, draw);
    assert NoSeparator(kw);
    forall i | 0 <= i < |stem| ensures stem[i] != '/' {
      if i < |Stem(pdbFile)| {
        assert stem[i] == Stem(pdbFile)[i];
      } else {
        assert stem[i] == kw[i - |Stem(pdbFile)|];
      }
    }
    forall i | 0 <= i < |stem + "_defocus"| ensures (stem + "_defocus")[i] != '/' {
      if i < |stem| {
        assert (stem + "_defocus")[i] == stem[i];
      }
    }
  }

  /** The extensions of the outputs are well-formed, and the ones that are
      checked are already in lower case. */
  lemma OutputExtensions()
    ensures IsExtension(".txt") && IsExtension(".mrc") && IsExtension(".log")
    ensures IsExtension(".inp") && IsExtension(".h5") && IsExtension(".star")
    ensures Lower(".txt") == ".txt" && Lower(".inp") == ".inp"
  {
    LowerOfLowercase(".txt");
    LowerOfLowercase(".inp");
  }

  /** When the shared stem is a non-empty file name, each output carries the
      extension its consumer expects: the coordinate and defocus files pass
      the `.txt` check and the input file passes the `.inp` check. */
  lemma PathSetExtensions(pdbFile: string, metadataParamsFile: string, outputDir: Option<string>,
                          keyword: Option<string>, draw: KeywordDraw)
    requires SharedStem(pdbFile, keyword, draw) != []
    requires keyword.Some? ==> NoSeparator(keyword.value)
    ensures var r := GeneratePathDict(pdbFile, metadataParamsFile, outputDir, keyword, draw);
            && Suffix(r.crdFile) == ".txt" && Suffix(r.mrcFile) == ".mrc"
            && Suffix(r.logFile) == ".log" && Suffix(r.inpFile) == ".inp"
            && Suffix(r.h5File) == ".h5" && Suffix(r.starFile) == ".star"
            && Suffix(r.defocusFile) == ".txt"
            && Stem(r.crdFile) == SharedStem(pdbFile, keyword, draw)
            && Stem(r.defocusFile) == SharedStem(pdbFile, keyword, draw) + "_defocus"
            && CheckExtension(r.crdFile, TxtTypes).Ok?
            && CheckExtension(r.defocusFile, TxtTypes).Ok?
            && CheckExtension(r.inpFile, InpTypes).Ok?
  {
    var dir := OutputDir(pdbFile, outputDir);
    var stem := SharedStem(pdbFile, keyword, draw);
    SharedStemNoSeparator(pdbFile, keyword, draw);
    OutputExtensions();
    OutputFile(dir, stem, ".txt");
    OutputFile(dir, stem, ".mrc");
    OutputFile(dir, stem, ".log");
    OutputFile(dir, stem, ".inp");
    OutputFile(dir, stem, ".h5");
    OutputFile(dir, stem, ".star");
    OutputFile(dir, stem + "_defocus", ".txt");
  }

  /** What output `k`'s file name adds to the shared stem. */
  function OutputTail(k: nat): string
    requires k < 7
  {
    if k == 6 then "_defocus.txt" else OutputExtension(k)
  }

  /** The second characters of the tails, `t m l i h s d`, are all
      different. */
  lemma OutputTailsDiffer(i: nat, j: nat)
    requires i < j < 7
    ensures |OutputTail(i)| >= 2 && |OutputTail(j)| >= 2 && OutputTail(i)[1] != OutputTail(j)[1]
  {
  }

  /** Output `k`'s file name is the shared stem followed by its tail. */
  lemma OutputName(stem: string, k: nat)
    requires k < 7
    ensures OutputBase(stem, k) + OutputExtension(k) == stem + OutputTail(k)
  {
    if k == 6 {
      assert stem + "_defocus" + ".txt" == stem + ("_defocus" + ".txt");
      assert "_defocus" + ".txt" == "_defocus.txt";
    }
  }

  /** The seven outputs of one stem in one directory are different paths,
      whatever the stem and the directory. */
  lemma OutputsDistinct(dir: string, stem: string)
    ensures forall i, j :: 0 <= i < j < 7 ==> Outputs(dir, stem)[i] != Outputs(dir, stem)[j]
  {
    var outputs := Outputs(dir, stem);
    forall i, j | 0 <= i < j < 7 ensures outputs[i] != outputs[j] {
      OutputName(stem, i);
      OutputName(stem, j);
      OutputTailsDiffer(i, j);
      var a := stem + OutputTail(i);
      var b := stem + OutputTail(j);
      assert a != b by {
        if |a| == |b| {
          assert a[|stem| + 1] != b[|stem| + 1];
        }
      }
      JoinPathInjective(dir, a, b);
    }
  }

  /** The outputs of a run, in field order, are the seven outputs of its
      shared stem in its output directory, and they are different files. */
  lemma RunPathsDistinct(pdbFile: string, metadataParamsFile: string, dir: string, stem: string)
    ensures var r := RunPaths(pdbFile, metadataParamsFile, dir, stem);
            var outputs := [r.crdFile, r.mrcFile, r.logFile, r.inpFile, r.h5File, r.starFile, r.defocusFile];
            && outputs == Outputs(dir, stem)
            && forall i, j :: 0 <= i < j < |outputs| ==> outputs[i] != outputs[j]
  {
    OutputsDistinct(dir, stem);
  }

  /** The seven outputs of a run are seven different files, whatever the pdb
      path, the keyword and the output directory. */
  lemma PathSetDistinct(pdbFile: string, metadataParamsFile: string, outputDir: Option<string>,
                        keyword: Option<string>, draw: KeywordDraw)
    ensures var r := GeneratePathDict(pdbFile, metadataParamsFile, outputDir, keyword, draw);
            var outputs := [r.crdFile, r.mrcFile, r.logFile, r.inpFile, r.h5File, r.starFile, r.defocusFile];
            forall i, j :: 0 <= i < j < |outputs| ==> outputs[i] != outputs[j]
  {
    RunPathsDistinct(pdbFile, metadataParamsFile, OutputDir(pdbFile, outputDir), SharedStem(pdbFile, keyword, draw));
  }
}
