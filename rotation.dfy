/** Reading particle rotations back from the coordinate file the simulator
    writes: four header lines, then one row of angles per particle. */
module Rotation {
  import opened Strings
  import opened Values
  import opened Paths

  /** Number of header lines before the first particle. */
  const HeaderLines: nat := 4

  /** The rows of a coordinate file's lines: the whitespace-separated fields
      of every line after the header. Fields stay text; their conversion to
      floating point is not modelled. */
  function RotationRows(lines: seq<string>): (r: seq<seq<string>>)
    ensures |r| == if |lines| > HeaderLines then |lines| - HeaderLines else 0
    ensures forall k :: 0 <= k < |r| ==> r[k] == Words(lines[k + HeaderLines])
  {
    if |lines| <= HeaderLines then []
    else seq(|lines| - HeaderLines, k requires 0 <= k < |lines| - HeaderLines => Words(lines[k + HeaderLines]))
  }

  /** Reads the rows from the lines of the file at `path`, skipping the
      header; a path not ending in `.txt` is refused before the file is read. */
  method RetrieveRotationMetadata(path: string, lines: seq<string>) returns (r: Result<seq<seq<string>>>)
    ensures r.Ok? <==> AllowedSuffix(path, TxtTypes)
    ensures r.Err? ==> r.error == ExtensionMismatch(path, TxtTypes)
    ensures r.Ok? ==> r.value == RotationRows(lines)
  {
    var check := CheckExtension(path, TxtTypes);
    if check.Err? {
      return Err(check.error);
    }
    var rows: seq<seq<string>> := [];
    for i := 0 to |lines|
      invariant |rows| == if i > HeaderLines then i - HeaderLines else 0
      invariant forall k :: 0 <= k < |rows| ==> rows[k] == Words(lines[k + HeaderLines])
    {
      if i >= HeaderLines {
        rows := rows + [Words(lines[i])];
      }
    }
    return Ok(rows);
  }

  /** The header's content never reaches the result. */
  lemma HeaderIgnored(a: seq<string>, b: seq<string>)
    requires |a| >= HeaderLines && |b| >= HeaderLines && a[HeaderLines..] == b[HeaderLines..]
    ensures RotationRows(a) == RotationRows(b)
  {
    assert |a| == |b| by {
      assert |a[HeaderLines..]| == |b[HeaderLines..]|;
    }
    forall k | 0 <= k < |RotationRows(a)| ensures RotationRows(a)[k] == RotationRows(b)[k] {
      assert a[k + HeaderLines] == a[HeaderLines..][k] == b[HeaderLines..][k] == b[k + HeaderLines];
    }
  }

  /** One more particle line after a complete header gives one more row, its
      fields; every row's fields are non-empty and free of whitespace. */
  lemma RowPerParticle(lines: seq<string>, line: string)
    requires |lines| >= HeaderLines
    ensures RotationRows(lines + [line]) == RotationRows(lines) + [Words(line)]
    ensures forall k, w :: 0 <= k < |RotationRows(lines)| && 0 <= w < |RotationRows(lines)[k]| ==>
              IsWord(RotationRows(lines)[k][w])
  {
    var longer := lines + [line];
    assert longer[|lines|] == line;
    forall k | 0 <= k < |RotationRows(lines)| ensures RotationRows(longer)[k] == RotationRows(lines)[k] {
      assert longer[k + HeaderLines] == lines[k + HeaderLines];
    }
  }
}
