/** The defocus distribution file handed to the simulator: a banner, a line
    giving the number of samples and columns, then one sample per line. */
module DefocusFile {
  import opened Strings
  import opened Values
  import opened Paths

  const Banner: string := "# File created by TEM-simulator, version 1.3."

  /** The second line: the number of samples, then the single column. */
  function CountLine(n: nat): string
  {
    NatToString(n) + " 1"
  }

  /** `str()` of each sample, in order. */
  function Rendered(distribution: seq<Value>): (r: seq<string>)
    ensures |r| == |distribution|
    ensures forall i :: 0 <= i < |distribution| ==> r[i] == Render(distribution[i])
  {
    seq(|distribution|, i requires 0 <= i < |distribution| => Render(distribution[i]))
  }

  /** The lines of the file written for `distribution`. */
  function DefocusFileLines(distribution: seq<Value>): seq<string>
  {
    [Banner, CountLine(|distribution|)] + Rendered(distribution)
  }

  /** Writes the file at `path`, returning its lines; a path that does not
      end in `.txt` (in any case) is refused before anything is written. */
  method WriteDefocusFile(path: string, distribution: seq<Value>) returns (r: Result<seq<string>>)
    ensures r.Ok? <==> AllowedSuffix(path, TxtTypes)
    ensures r.Err? ==> r.error == ExtensionMismatch(path, TxtTypes)
    ensures r.Ok? ==> r.value == DefocusFileLines(distribution)
  {
    var check := CheckExtension(path, TxtTypes);
    if check.Err? {
      return Err(check.error);
    }
    var lines := [Banner, CountLine(|distribution|)];
    var i := 0;
    while i < |distribution|
      invariant 0 <= i <= |distribution|
      invariant |lines| == i + 2
      invariant lines[0] == Banner && lines[1] == CountLine(|distribution|)
      invariant forall k :: 0 <= k < i ==> lines[k + 2] == Render(distribution[k])
    {
      lines := lines + [Render(distribution[i])];
      i := i + 1;
    }
    return Ok(lines);
  }

  /** Reads a defocus file back: the samples' text, provided the banner is
      there and the count line announces exactly the lines that follow. */
  function ReadDefocusFile(lines: seq<string>): (r: Option<seq<string>>)
    ensures r.Some? ==> |lines| >= 2 && lines[0] == Banner && r.value == lines[2..]
  {
    if |lines| >= 2 && lines[0] == Banner && |lines[1]| >= 2
       && lines[1][|lines[1]| - 2..] == " 1"
       && AllDigits(lines[1][..|lines[1]| - 2])
       && ParseNat(lines[1][..|lines[1]| - 2]) == |lines| - 2
    then Some(lines[2..])
    else None
  }

  /** The file holds `len(distribution) + 2` lines: the banner, the count,
      then every sample in input order. */
  lemma DefocusFileShape(distribution: seq<Value>)
    ensures |DefocusFileLines(distribution)| == |distribution| + 2
    ensures DefocusFileLines(distribution)[0] == Banner
    ensures DefocusFileLines(distribution)[1] == NatToString(|distribution|) + " 1"
    ensures forall i :: 0 <= i < |distribution| ==>
              DefocusFileLines(distribution)[i + 2] == Render(distribution[i])
  {
  }

  /** Reading the written file gives back the samples, and its count line
      agrees with their number. */
  lemma DefocusFileRoundTrip(distribution: seq<Value>)
    ensures ReadDefocusFile(DefocusFileLines(distribution)) == Some(Rendered(distribution))
  {
    var lines := DefocusFileLines(distribution);
    var count := NatToString(|distribution|);
    assert lines[1] == count + " 1";
    assert lines[1][..|lines[1]| - 2] == count;
    assert lines[1][|lines[1]| - 2..] == " 1";
    ParseNatToString(|distribution|);
    assert lines[2..] == Rendered(distribution);
  }
}
