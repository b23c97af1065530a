/** The metadata rows the dataset generator collects for its STAR file: one
    row per projection of a batch, appended in place to the caller's list. */
module Catalogue {
  import opened Strings
  import opened Values

  /** One cell of a row. Numeric payloads are opaque: `Scaled` stands for
      `1e4 * v` (micrometres to ångströms) and `Radians` for `np.radians(v)`. */
  datatype Cell =
    | ImageName(name: string)
    | Scalar(v: Value)
    | Scaled(v: Value)
    | Radians(v: Value)

  /** Per-projection parameters of one batch: name to tensor of values. An
      empty map is a dictionary that tests false (no shift, no CTF). */
  type Tensors = map<string, seq<Value>>

  /** The dataset generator's fixed parameters that the rows use. */
  datatype DatasetConfig = DatasetConfig(
    batchSize: nat,
    kv: Value,
    pixelSize: Value,
    cs: Value,
    amplitudeContrast: Value,
    bFactor: Value)

  /** The caller-owned list of rows. */
  class DataList {
    var rows: seq<seq<Cell>>

    constructor (initial: seq<seq<Cell>>)
      ensures rows == initial
    {
      rows := initial;
    }
  }

  /** `str(idx).zfill(3) + "@" + str(iterations).zfill(4) + ".mrcs"`. */
  function ImageNameOf(idx: int, iterations: int): (r: string)
    ensures |r| >= 13 && r[|r| - 5..] == ".mrcs"
  {
    ZFill(IntToString(idx), 3) + "@" + ZFill(IntToString(iterations), 4) + ".mrcs"
  }

  /** `tensors[key][num].item()`. */
  function Item(tensors: Tensors, key: string, num: nat): (r: Result<Value>)
    ensures r.Ok? <==> key in tensors && num < |tensors[key]|
    ensures r.Ok? ==> r.value == tensors[key][num]
    ensures key !in tensors ==> r == Err(KeyError(key))
  {
    if key !in tensors then Err(KeyError(key))
    else if num < |tensors[key]| then Ok(tensors[key][num])
    else Err(IndexError(num))
  }

  predicate HasItem(tensors: Tensors, key: string, num: nat)
  {
    key in tensors && num < |tensors[key]|
  }

  /** Every tensor that row `num` reads has an entry at `num`. */
  predicate RowAvailable(num: nat, rotation: Tensors, ctf: Tensors, shift: Tensors)
  {
    && HasItem(rotation, "relion_angle_rot", num)
    && HasItem(rotation, "relion_angle_tilt", num)
    && HasItem(rotation, "relion_angle_psi", num)
    && (|shift| > 0 ==> HasItem(shift, "shift_x", num) && HasItem(shift, "shift_y", num))
    && (|ctf| > 0 ==> && HasItem(ctf, "defocus_u", num) && HasItem(ctf, "defocus_v", num)
                      && HasItem(ctf, "defocus_angle", num))
  }

  /** Row `num`: image name, the three RELION angles, the shift when there
      is one, the CTF (scaled defoci and the angle in radians) when there is
      one, then the five fixed parameters. */
  function CatalogueRow(num: nat, iterations: int, rotation: Tensors, ctf: Tensors, shift: Tensors,
                        config: DatasetConfig): (r: Result<seq<Cell>>)
    ensures r.Ok? <==> RowAvailable(num, rotation, ctf, shift)
  {
    var rot :- Item(rotation, "relion_angle_rot", num);
    var tilt :- Item(rotation, "relion_angle_tilt", num);
    var psi :- Item(rotation, "relion_angle_psi", num);
    var head := [ImageName(ImageNameOf(num, iterations)), Scalar(rot), Scalar(tilt), Scalar(psi)];
    var shifted :-
      if |shift| > 0 then
        var x :- Item(shift, "shift_x", num);
        var y :- Item(shift, "shift_y", num);
        Ok([Scalar(x), Scalar(y)])
      else Ok([]);
    var optics :-
      if |ctf| > 0 then
        var u :- Item(ctf, "defocus_u", num);
        var v :- Item(ctf, "defocus_v", num);
        var angle :- Item(ctf, "defocus_angle", num);
        Ok([Scaled(u), Scaled(v), Radians(angle)])
      else Ok([]);
    Ok(head + shifted + optics
       + [Scalar(config.kv), Scalar(config.pixelSize), Scalar(config.cs),
          Scalar(config.amplitudeContrast), Scalar(config.bFactor)])
  }

  /** Rows `0 .. n-1` of a batch. */
  function Rows(n: nat, iterations: int, rotation: Tensors, ctf: Tensors, shift: Tensors,
                config: DatasetConfig): (r: seq<seq<Cell>>)
    requires forall k :: 0 <= k < n ==> RowAvailable(k, rotation, ctf, shift)
    ensures |r| == n
    ensures forall k :: 0 <= k < n ==> r[k] == CatalogueRow(k, iterations, rotation, ctf, shift, config).value
  {
    seq(n, k requires 0 <= k < n => CatalogueRow(k, iterations, rotation, ctf, shift, config).value)
  }

  /** Appends one row per projection of the batch to `dataList` and returns
      the same list. A tensor that is missing or shorter than the batch
      raises at the first row that needs it, after the rows before it have
      been appended. */
  method StarfileAppendTemSimulatorData(dataList: DataList, rotation: Tensors, ctf: Tensors,
                                        shift: Tensors, iterations: int, config: DatasetConfig)
    returns (r: Result<DataList>)
    modifies dataList
    ensures r.Ok? <==> forall k :: 0 <= k < config.batchSize ==> RowAvailable(k, rotation, ctf, shift)
    ensures r.Ok? ==> r.value == dataList
    ensures r.Ok? ==> dataList.rows == old(dataList.rows) + Rows(config.batchSize, iterations, rotation, ctf, shift, config)
    ensures r.Err? ==>
              exists n :: 0 <= n < config.batchSize && !RowAvailable(n, rotation, ctf, shift)
                && (forall k :: 0 <= k < n ==> RowAvailable(k, rotation, ctf, shift))
                && r.error == CatalogueRow(n, iterations, rotation, ctf, shift, config).error
                && dataList.rows == old(dataList.rows) + Rows(n, iterations, rotation, ctf, shift, config)
  {
    var num := 0;
    while num < config.batchSize
      invariant 0 <= num <= config.batchSize
      invariant forall k :: 0 <= k < num ==> RowAvailable(k, rotation, ctf, shift)
      invariant dataList.rows == old(dataList.rows) + Rows(num, iterations, rotation, ctf, shift, config)
    {
      var row := CatalogueRow(num, iterations, rotation, ctf, shift, config);
      if row.Err? {
        return Err(row.error);
      }
      RowsSnoc(num, iterations, rotation, ctf, shift, config);
      dataList.rows := dataList.rows + [row.value];
      num := num + 1;
    }
    return Ok(dataList);
  }

  /** One more row extends the rows by that row. */
  lemma RowsSnoc(n: nat, iterations: int, rotation: Tensors, ctf: Tensors, shift: Tensors,
                 config: DatasetConfig)
    requires forall k :: 0 <= k <= n ==> RowAvailable(k, rotation, ctf, shift)
    ensures Rows(n + 1, iterations, rotation, ctf, shift, config)
            == Rows(n, iterations, rotation, ctf, shift, config)
               + [CatalogueRow(n, iterations, rotation, ctf, shift, config).value]
  {
  }

  /** A row has 4 + 2 (with a shift) + 3 (with a CTF) + 5 cells; it starts
      with the image name and the three angles and ends with the five fixed
      parameters. */
  lemma RowLayout(num: nat, iterations: int, rotation: Tensors, ctf: Tensors, shift: Tensors,
                  config: DatasetConfig)
    requires RowAvailable(num, rotation, ctf, shift)
    ensures var row := CatalogueRow(num, iterations, rotation, ctf, shift, config).value;
            && |row| == 4 + (if |shift| > 0 then 2 else 0) + (if |ctf| > 0 then 3 else 0) + 5
            && row[..4] == [ImageName(ImageNameOf(num, iterations)),
                            Scalar(rotation["relion_angle_rot"][num]),
                            Scalar(rotation["relion_angle_tilt"][num]),
                            Scalar(rotation["relion_angle_psi"][num])]
            && row[|row| - 5..] == [Scalar(config.kv), Scalar(config.pixelSize), Scalar(config.cs),
                                    Scalar(config.amplitudeContrast), Scalar(config.bFactor)]
            && (|shift| > 0 ==> row[4..6] == [Scalar(shift["shift_x"][num]), Scalar(shift["shift_y"][num])])
            && (|ctf| > 0 ==> row[|row| - 8..|row| - 5] == [Scaled(ctf["defocus_u"][num]), Scaled(ctf["defocus_v"][num]),
                                                          Radians(ctf["defocus_angle"][num])])
  {
  }

  /** For an index below 1000 and an iteration below 10000 the image name is
      13 characters, `@` at position 3, `.mrcs` at the end, and both numbers
      read back from their zero-padded fields. */
  lemma ImageNameRoundTrip(idx: nat, iterations: nat)
    requires idx < 1000 && iterations < 10000
    ensures var name := ImageNameOf(idx, iterations);
            && |name| == 13 && name[3] == '@' && name[8..] == ".mrcs"
            && AllDigits(name[..3]) && ParseNat(name[..3]) == idx
            && AllDigits(name[4..8]) && ParseNat(name[4..8]) == iterations
  {
    assert Power10(3) == 1000 && Power10(4) == 10000;
    ZFillNatRoundTrip(idx, 3);
    ZFillNatRoundTrip(iterations, 4);
    var name := ImageNameOf(idx, iterations);
    var a := ZFill(IntToString(idx), 3);
    var b := ZFill(IntToString(iterations), 4);
    assert name == a + "@" + b + ".mrcs";
    assert name[..3] == a;
    assert name[4..8] == b;
  }

  /** For any index and iteration, the image name is the zero-padded
      index, then `@` and the rest; the padded index is all digits and reads
      back as the index, since `zfill` never truncates. */
  lemma ImageNameIndex(idx: nat, iterations: int)
    ensures var prefix := ZFill(NatToString(idx), 3);
            && AllDigits(prefix) && ParseNat(prefix) == idx
            && |prefix| < |ImageNameOf(idx, iterations)|
            && ImageNameOf(idx, iterations)[..|prefix|] == prefix
            && ImageNameOf(idx, iterations)[|prefix|] == '@'
  {
    ZFillNatReadsBack(idx, 3);
    var prefix := ZFill(NatToString(idx), 3);
    assert IntToString(idx) == NatToString(idx);
    NameFields(prefix, ZFill(IntToString(iterations), 4));
  }

  /** Where the fields of `a + "@" + b + ".mrcs"` sit. */
  lemma NameFields(a: string, b: string)
    ensures var name := a + "@" + b + ".mrcs";
            && |name| == |a| + |b| + 6
            && name[..|a|] == a && name[|a|] == '@'
            && name[|a| + 1..|a| + 1 + |b|] == b
  {
    var name := a + "@" + b + ".mrcs";
    assert name == a + ("@" + b + ".mrcs");
    assert name[|a| + 1..|a| + 1 + |b|] == ("@" + b + ".mrcs")[1..1 + |b|];
  }

  /** Whatever the index, the name ends with '@', the zero-padded iteration
      count and ".mrcs", and that field reads back as the count (for every
      count, not only those that fit in four digits). */
  lemma ImageNameIteration(idx: int, iterations: nat)
    ensures var field := ZFill(NatToString(iterations), 4);
            var name := ImageNameOf(idx, iterations);
            && AllDigits(field) && ParseNat(field) == iterations
            && |name| >= |field| + 9
            && name[|name| - 5 - |field|..|name| - 5] == field
            && name[|name| - 6 - |field|] == '@'
  {
    ZFillNatReadsBack(iterations, 4);
    var prefix := ZFill(IntToString(idx), 3);
    var field := ZFill(NatToString(iterations), 4);
    var name := ImageNameOf(idx, iterations);
    assert name == prefix + "@" + field + ".mrcs";
    assert name[|name| - 5 - |field|..|name| - 5] == field;
  }

  /** Distinct projections of one batch get distinct image names, however
      large the batch and the iteration count. */
  lemma ImageNamesDistinct(i: nat, j: nat, iterations: int)
    requires i != j
    ensures ImageNameOf(i, iterations) != ImageNameOf(j, iterations)
  {
    ImageNameIndex(i, iterations);
    ImageNameIndex(j, iterations);
  }
}
