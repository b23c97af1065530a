/** Grouping an already-parsed configuration into one ordered list of values
    per subsystem, as the legacy configuration reader does. */
module Classifier {
  import opened Values
  import opened Paths

  /** The fixed key order of each subsystem. The beam list asks for
      `electron_dose_e_nm2`, a key the builder never reads (it reads
      `electron_dose_e_per_nm2`); that spelling is kept. */
  const MolecularModelKeys: seq<string> := ["voxel_size_nm", "particle_name", "particle_mrcout"]
  const SpecimenGridKeys: seq<string> :=
    ["hole_diameter_nm", "hole_thickness_center_nm", "hole_thickness_edge_nm", "particle_slice_pad"]
  const BeamKeys: seq<string> :=
    ["voltage_kv", "energy_spread_v", "electron_dose_e_nm2", "electron_dose_std_e_per_nm2"]
  const OpticsKeys: seq<string> :=
    ["magnification", "spherical_aberration_mm", "chromatic_aberration_mm", "aperture_diameter_um",
     "focal_length_mm", "aperture_angle_mrad", "defocus_um", "defocus_syst_error_um",
     "defocus_nonsyst_error_um", "optics_defocusout"]
  const DetectorKeys: seq<string> :=
    ["detector_nx_px", "detector_ny_px", "detector_pixel_size_um", "average_gain_count_per_electron",
     "noise", "detector_q_efficiency", "mtf_params"]

  /** The grouped parameters, one list per subsystem. */
  datatype Classified = Classified(
    molecularModel: seq<Value>,
    specimenGrid: seq<Value>,
    beam: seq<Value>,
    optics: seq<Value>,
    detector: seq<Value>)

  /** `[section.get(key) for key in order]`. */
  function OrderedParams(section: Section, order: seq<string>): (r: seq<Value>)
    ensures |r| == |order|
    ensures forall i :: 0 <= i < |order| ==> r[i] == Get(section, order[i])
  {
    seq(|order|, i requires 0 <= i < |order| => Get(section, order[i]))
  }

  /** `values` holds the section's value (or None) for each key of `order`. */
  predicate ListedInOrder(section: Section, order: seq<string>, values: seq<Value>)
  {
    |values| == |order| && forall i :: 0 <= i < |order| ==> values[i] == Get(section, order[i])
  }

  /** The detector list: its six scalar parameters in schema order, then the
      first five items of `mtf_params`. */
  predicate DetectorFlattened(section: Section, values: seq<Value>)
  {
    && |values| == 11
    && ListedInOrder(section, DetectorKeys[..6], values[..6])
    && forall i :: 0 <= i < 5 ==> Index(Get(section, "mtf_params"), i) == Ok(values[6 + i])
  }

  predicate HasSections(raw: Config)
  {
    && "molecular_model" in raw && "specimen_grid_params" in raw && "beam_parameters" in raw
    && "optics_parameters" in raw && "detector_parameters" in raw
  }

  /** Every section is there and `mtf_params` has a fifth item. */
  predicate Classifiable(raw: Config)
  {
    HasSections(raw) && Index(Get(raw["detector_parameters"], "mtf_params"), 4).Ok?
  }

  /** `c` is the grouping of `raw`. */
  predicate ClassifiedFrom(raw: Config, c: Classified)
    requires HasSections(raw)
  {
    && ListedInOrder(raw["molecular_model"], MolecularModelKeys, c.molecularModel)
    && ListedInOrder(raw["specimen_grid_params"], SpecimenGridKeys, c.specimenGrid)
    && ListedInOrder(raw["beam_parameters"], BeamKeys, c.beam)
    && ListedInOrder(raw["optics_parameters"], OpticsKeys, c.optics)
    && DetectorFlattened(raw["detector_parameters"], c.detector)
  }

  /** What `mtf_params[i]` raises for the first index that fails: the value
      cannot be indexed, or it has fewer than five items. */
  function MtfError(mtf: Value): Error
  {
    match mtf
    case List(items) => IndexError(|items|)
    case Text(s) => IndexError(|s|)
    case _ => NotSubscriptable(mtf)
  }

  /** The error raised for a configuration that cannot be grouped: the first
      missing section in schema order, else the failing `mtf_params` index. */
  function ClassifyError(raw: Config): Error
  {
    if "molecular_model" !in raw then KeyError("molecular_model")
    else if "specimen_grid_params" !in raw then KeyError("specimen_grid_params")
    else if "beam_parameters" !in raw then KeyError("beam_parameters")
    else if "optics_parameters" !in raw then KeyError("optics_parameters")
    else if "detector_parameters" !in raw then KeyError("detector_parameters")
    else MtfError(Get(raw["detector_parameters"], "mtf_params"))
  }

  /** Flattens the detector's ordered parameters: the six scalars, then
      `mtf_params[0]` to `mtf_params[4]`. */
  method FlattenDetector(section: Section) returns (r: Result<seq<Value>>)
    ensures r.Ok? <==> Index(Get(section, "mtf_params"), 4).Ok?
    ensures r.Ok? ==> DetectorFlattened(section, r.value)
    ensures r.Err? ==> r.error == MtfError(Get(section, "mtf_params"))
  {
    var ordered := OrderedParams(section, DetectorKeys);
    var flattened: seq<Value> := [];
    for i := 0 to 6
      invariant flattened == ordered[..i]
    {
      flattened := flattened + [ordered[i]];
    }
    var mtf := ordered[6];
    for i := 0 to 5
      invariant |flattened| == 6 + i
      invariant flattened[..6] == ordered[..6]
      invariant forall k :: 0 <= k < i ==> Index(mtf, k) == Ok(flattened[6 + k])
    {
      var item := Index(mtf, i);
      if item.Err? {
        assert i > 0 ==> Index(mtf, i - 1).Ok?;
        return Err(item.error);
      }
      flattened := flattened + [item.value];
    }
    return Ok(flattened);
  }

  /** Groups the parameters of every subsystem; a missing section raises
      KeyError and a short or unindexable `mtf_params` raises on indexing. */
  method ClassifyInputConfig(raw: Config) returns (r: Result<Classified>)
    ensures r.Ok? <==> Classifiable(raw)
    ensures r.Ok? ==> ClassifiedFrom(raw, r.value)
    ensures r.Err? ==> r.error == ClassifyError(raw)
  {
    if "molecular_model" !in raw {
      return Err(KeyError("molecular_model"));
    }
    var molecularModel := OrderedParams(raw["molecular_model"], MolecularModelKeys);
    if "specimen_grid_params" !in raw {
      return Err(KeyError("specimen_grid_params"));
    }
    var specimenGrid := OrderedParams(raw["specimen_grid_params"], SpecimenGridKeys);
    if "beam_parameters" !in raw {
      return Err(KeyError("beam_parameters"));
    }
    var beam := OrderedParams(raw["beam_parameters"], BeamKeys);
    if "optics_parameters" !in raw {
      return Err(KeyError("optics_parameters"));
    }
    var optics := OrderedParams(raw["optics_parameters"], OpticsKeys);
    if "detector_parameters" !in raw {
      return Err(KeyError("detector_parameters"));
    }
    var detector :- FlattenDetector(raw["detector_parameters"]);
    return Ok(Classified(molecularModel, specimenGrid, beam, optics, detector));
  }

  /** Loads the configuration at `path` (already parsed into `raw`) and groups
      it; a path not ending in `.yaml` or `.yml` is refused first. */
  method ConfigFromYaml(path: string, raw: Config) returns (r: Result<Classified>)
    ensures !AllowedSuffix(path, ConfigYamlTypes) ==> r == Err(ExtensionMismatch(path, ConfigYamlTypes))
    ensures r.Ok? <==> AllowedSuffix(path, ConfigYamlTypes) && Classifiable(raw)
    ensures r.Ok? ==> ClassifiedFrom(raw, r.value)
    ensures AllowedSuffix(path, ConfigYamlTypes) && r.Err? ==> r.error == ClassifyError(raw)
  {
    var check := CheckExtension(path, ConfigYamlTypes);
    if check.Err? {
      return Err(check.error);
    }
    r := ClassifyInputConfig(raw);
  }

  /** The lists have 3, 4, 4, 10 and 11 entries, and an absent non-MTF key
      gives None in its slot, in every list. */
  lemma ClassifiedShape(raw: Config, c: Classified)
    requires HasSections(raw) && ClassifiedFrom(raw, c)
    ensures |c.molecularModel| == 3 && |c.specimenGrid| == 4 && |c.beam| == 4
    ensures |c.optics| == 10 && |c.detector| == 11
    ensures forall i :: 0 <= i < 3 && MolecularModelKeys[i] !in raw["molecular_model"] ==> c.molecularModel[i] == Null
    ensures forall i :: 0 <= i < 4 && SpecimenGridKeys[i] !in raw["specimen_grid_params"] ==> c.specimenGrid[i] == Null
    ensures forall i :: 0 <= i < 4 && BeamKeys[i] !in raw["beam_parameters"] ==> c.beam[i] == Null
    ensures forall i :: 0 <= i < 10 && OpticsKeys[i] !in raw["optics_parameters"] ==> c.optics[i] == Null
    ensures forall i :: 0 <= i < 6 && DetectorKeys[i] !in raw["detector_parameters"] ==> c.detector[i] == Null
  {
    assert ListedInOrder(raw["detector_parameters"], DetectorKeys[..6], c.detector[..6]);
    forall i | 0 <= i < 6 ensures c.detector[i] == Get(raw["detector_parameters"], DetectorKeys[i]) {
      assert c.detector[i] == c.detector[..6][i];
    }
  }

  /** A configuration is grouped in exactly one way. */
  lemma ClassifiedUnique(raw: Config, c1: Classified, c2: Classified)
    requires HasSections(raw) && ClassifiedFrom(raw, c1) && ClassifiedFrom(raw, c2)
    ensures c1 == c2
  {
    assert c1.molecularModel == c2.molecularModel;
    assert c1.specimenGrid == c2.specimenGrid;
    assert c1.beam == c2.beam;
    assert c1.optics == c2.optics;
    assert c1.detector[..6] == c2.detector[..6];
    forall i | 6 <= i < 11 ensures c1.detector[i] == c2.detector[i] {
      assert Index(Get(raw["detector_parameters"], "mtf_params"), i - 6) == Ok(c1.detector[i]);
    }
    assert c1.detector == c2.detector;
  }

  /** When `mtf_params` is a list, the detector list ends with its first
      five items. */
  lemma MtfItemsLast(raw: Config, c: Classified, items: seq<Value>)
    requires HasSections(raw) && ClassifiedFrom(raw, c)
    requires Get(raw["detector_parameters"], "mtf_params") == List(items)
    ensures |items| >= 5 && c.detector[6..] == items[..5]
  {
    assert Index(List(items), 4).Ok?;
    forall i | 0 <= i < 5 ensures c.detector[6..][i] == items[i] {
      assert Index(List(items), i) == Ok(c.detector[6 + i]);
    }
  }
}
