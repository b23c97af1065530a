/** The parameter-dictionary builder (`populate_tem_input_parameter_dict`):
    from the parsed YAML configuration, the run's file paths and the caller's
    overrides, the sections of settings the TEM simulator reads. Each
    dictionary section becomes a record; a field the source sets to `None`
    is `Null` (or `None` where it holds a path). */
module TemInputs {
  import opened Strings
  import opened Values
  import opened Paths

  /** `int(1e10)`, the upper end (inclusive) of the random seed draw. */
  const MaxSeed: int := 10_000_000_000

  /** A value `random.randint(0, int(1e10))` can return. */
  type SeedDraw = x: int | 0 <= x <= MaxSeed

  datatype SimulationSection = SimulationSection(seed: Value, logFile: string)

  datatype NoiseSection = NoiseSection(signalToNoise: Option<Value>, signalToNoiseDb: Option<Value>)

  datatype SampleSection = SampleSection(diameter: Value, thicknessCenter: Value, thicknessEdge: Value)

  /** The two volume-map output files, written together or not at all. */
  datatype MapFiles = MapFiles(re: string, im: string)

  datatype ParticleSection = ParticleSection(name: Value, voxelSize: Value, pdbFile: string, mapFiles: Option<MapFiles>)

  datatype ParticleSetSection = ParticleSetSection(name: Value, crdFile: string)

  datatype BeamSection = BeamSection(voltage: Value, spread: Value, dosePerIm: Value, doseSd: Value)

  datatype OpticsSection = OpticsSection(
    magnification: Value, cs: Value, cc: Value, aperture: Value, focalLength: Value,
    condApAngle: Value, defocusFileOut: Value, defocusNominal: Value,
    defocusSystError: Value, defocusNonsystError: Value,
    genDefocus: string, defocusFileIn: Option<string>)

  datatype DetectorSection = DetectorSection(
    mtfA: Value, detPixX: Value, detPixY: Value, pixelSize: Value, gain: Value,
    useQuantization: Value, dqe: Value, mtfB: Value, mtfC: Value, mtfAlpha: Value,
    mtfBeta: Value, imageFileOut: string)

  datatype GeometrySection = GeometrySection(nTilts: Value)

  /** What the `try` block managed to copy from `ctf_parameters` before the
      first missing key. */
  datatype CtfSection = CtfSection(distributionType: Option<Value>, distributionParameters: Option<Value>)

  datatype TemInputs = TemInputs(
    simulation: SimulationSection, noise: NoiseSection, sample: SampleSection,
    particle: ParticleSection, particleset: ParticleSetSection, beam: BeamSection,
    optics: OpticsSection, detector: DetectorSection, geometry: GeometrySection,
    ctf: CtfSection)

  /** `parameters[section][key]` when it exists. */
  function Optional(cfg: Config, section: string, key: string): (r: Option<Value>)
    ensures r.Some? <==> Has(cfg, section, key)
    ensures r.Some? ==> r.value == cfg[section][key]
  {
    if Has(cfg, section, key) then Some(cfg[section][key]) else None
  }

  /** The volume-map file names derived from `particle_mrcout`: the text
      before the first ".mrc", then "_real.mrc" and "_imag.mrc". */
  function MapFileNames(mrcout: Value): (r: Result<MapFiles>)
    ensures r.Ok? <==> mrcout.Text?
  {
    if mrcout.Text? then
      var key := PrefixBefore(mrcout.s, ".mrc");
      Ok(MapFiles(key + "_real.mrc", key + "_imag.mrc"))
    else Err(NoSplit(mrcout))
  }

  predicate SampleComplete(cfg: Config)
  {
    && Has(cfg, "specimen_grid_params", "hole_diameter_nm")
    && Has(cfg, "specimen_grid_params", "hole_thickness_center_nm")
    && Has(cfg, "specimen_grid_params", "hole_thickness_edge_nm")
  }

  predicate ParticleComplete(cfg: Config)
  {
    && Has(cfg, "molecular_model", "particle_name")
    && Has(cfg, "molecular_model", "voxel_size_nm")
    && (Has(cfg, "molecular_model", "particle_mrcout") ==> cfg["molecular_model"]["particle_mrcout"].Text?)
  }

  predicate BeamComplete(cfg: Config, dose: Value)
  {
    && Has(cfg, "beam_parameters", "voltage_kv")
    && Has(cfg, "beam_parameters", "energy_spread_v")
    && (dose == Null ==> Has(cfg, "beam_parameters", "electron_dose_e_per_nm2"))
    && Has(cfg, "beam_parameters", "electron_dose_std_e_per_nm2")
  }

  predicate OpticsKeysComplete(cfg: Config)
  {
    && Has(cfg, "optics_parameters", "magnification")
    && Has(cfg, "optics_parameters", "spherical_aberration_mm")
    && Has(cfg, "optics_parameters", "chromatic_aberration_mm")
    && Has(cfg, "optics_parameters", "aperture_diameter_um")
    && Has(cfg, "optics_parameters", "focal_length_mm")
    && Has(cfg, "optics_parameters", "aperture_angle_mrad")
    && Has(cfg, "optics_parameters", "defocus_syst_error_um")
    && Has(cfg, "optics_parameters", "defocus_nonsyst_error_um")
  }

  /** `mtf_params` is there and has at least five entries. */
  predicate MtfComplete(cfg: Config)
  {
    Has(cfg, "detector_parameters", "mtf_params") && Index(cfg["detector_parameters"]["mtf_params"], 4).Ok?
  }

  predicate DetectorComplete(cfg: Config, noise: Value)
  {
    && Has(cfg, "detector_parameters", "detector_nx_px")
    && Has(cfg, "detector_parameters", "detector_ny_px")
    && Has(cfg, "detector_parameters", "detector_pixel_size_um")
    && Has(cfg, "detector_parameters", "average_gain_count_per_electron")
    && (noise == Null ==> Has(cfg, "detector_parameters", "noise"))
    && Has(cfg, "detector_parameters", "detector_q_efficiency")
    && MtfComplete(cfg)
  }

  /** Everything the builder reads without a fallback is there and of a
      usable kind; `dose` and `noise`, when given, excuse their YAML
      counterparts. */
  predicate Complete(cfg: Config, dose: Value, noise: Value)
  {
    && SampleComplete(cfg)
    && ParticleComplete(cfg)
    && BeamComplete(cfg, dose)
    && OpticsKeysComplete(cfg)
    && DetectorComplete(cfg, noise)
    && Has(cfg, "geometry_parameters", "n_samples")
  }

  /** The sample section holds the configured hole diameter and the centre
      and edge thicknesses, each in its own field. */
  predicate SampleFrom(cfg: Config, s: SampleSection)
  {
    && SampleComplete(cfg)
    && s.diameter == cfg["specimen_grid_params"]["hole_diameter_nm"]
    && s.thicknessCenter == cfg["specimen_grid_params"]["hole_thickness_center_nm"]
    && s.thicknessEdge == cfg["specimen_grid_params"]["hole_thickness_edge_nm"]
  }

  /** The particle section holds the configured name and voxel size, the
      run's pdb file, and the map names derived from `particle_mrcout` when
      it is configured. */
  predicate ParticleFrom(cfg: Config, pdbFile: string, p: ParticleSection)
  {
    && ParticleComplete(cfg)
    && p.name == cfg["molecular_model"]["particle_name"]
    && p.voxelSize == cfg["molecular_model"]["voxel_size_nm"]
    && p.pdbFile == pdbFile
    && (Has(cfg, "molecular_model", "particle_mrcout") ==>
          p.mapFiles == Some(MapFileNames(cfg["molecular_model"]["particle_mrcout"]).value))
    && (!Has(cfg, "molecular_model", "particle_mrcout") ==> p.mapFiles == None)
  }

  /** The beam section holds the configured voltage, energy spread and dose
      deviation, and the caller's dose, else the configured one. */
  predicate BeamFrom(cfg: Config, dose: Value, b: BeamSection)
  {
    && BeamComplete(cfg, dose)
    && b.voltage == cfg["beam_parameters"]["voltage_kv"]
    && b.spread == cfg["beam_parameters"]["energy_spread_v"]
    && (dose != Null ==> b.dosePerIm == dose)
    && (dose == Null ==> b.dosePerIm == cfg["beam_parameters"]["electron_dose_e_per_nm2"])
    && b.doseSd == cfg["beam_parameters"]["electron_dose_std_e_per_nm2"]
  }

  /** The optics section, up to the CTF decision, holds the configured
      magnification, aberrations, aperture, focal length, aperture angle,
      defocus output and defocus errors, and the nominal defocus. */
  predicate OpticsFrom(cfg: Config, o: OpticsSection)
  {
    && OpticsKeysComplete(cfg)
    && o.magnification == cfg["optics_parameters"]["magnification"]
    && o.cs == cfg["optics_parameters"]["spherical_aberration_mm"]
    && o.cc == cfg["optics_parameters"]["chromatic_aberration_mm"]
    && o.aperture == cfg["optics_parameters"]["aperture_diameter_um"]
    && o.focalLength == cfg["optics_parameters"]["focal_length_mm"]
    && o.condApAngle == cfg["optics_parameters"]["aperture_angle_mrad"]
    && (Has(cfg, "optics_parameters", "optics_defocusout") ==>
          o.defocusFileOut == cfg["optics_parameters"]["optics_defocusout"])
    && (!Has(cfg, "optics_parameters", "optics_defocusout") ==> o.defocusFileOut == Null)
    && NominalDefocus(cfg) == Ok(o.defocusNominal)
    && o.defocusSystError == cfg["optics_parameters"]["defocus_syst_error_um"]
    && o.defocusNonsystError == cfg["optics_parameters"]["defocus_nonsyst_error_um"]
  }

  /** Item `k` of the configured `mtf_params`. */
  function MtfItem(cfg: Config, k: nat): Value
    requires MtfComplete(cfg) && k < 5
  {
    Index(cfg["detector_parameters"]["mtf_params"], k).value
  }

  /** The detector section holds the configured size, pixel size, gain and
      efficiency, MTF items 1 to 4, the caller's noise setting (else the
      configured one), the nominal defocus as first MTF parameter, and the
      image file. */
  predicate DetectorFrom(cfg: Config, noise: Value, mtfA: Value, mrcFile: string, d: DetectorSection)
  {
    && DetectorComplete(cfg, noise)
    && d.mtfA == mtfA
    && d.detPixX == cfg["detector_parameters"]["detector_nx_px"]
    && d.detPixY == cfg["detector_parameters"]["detector_ny_px"]
    && d.pixelSize == cfg["detector_parameters"]["detector_pixel_size_um"]
    && d.gain == cfg["detector_parameters"]["average_gain_count_per_electron"]
    && (noise != Null ==> d.useQuantization == noise)
    && (noise == Null ==> d.useQuantization == cfg["detector_parameters"]["noise"])
    && d.dqe == cfg["detector_parameters"]["detector_q_efficiency"]
    && d.mtfB == MtfItem(cfg, 1) && d.mtfC == MtfItem(cfg, 2)
    && d.mtfAlpha == MtfItem(cfg, 3) && d.mtfBeta == MtfItem(cfg, 4)
    && d.imageFileOut == mrcFile
  }

  function BuildSample(cfg: Config): (r: Result<SampleSection>)
    ensures r.Ok? <==> SampleComplete(cfg)
    ensures r.Ok? ==> SampleFrom(cfg, r.value)
  {
    var diameter :- Lookup(cfg, "specimen_grid_params", "hole_diameter_nm");
    var center :- Lookup(cfg, "specimen_grid_params", "hole_thickness_center_nm");
    var edge :- Lookup(cfg, "specimen_grid_params", "hole_thickness_edge_nm");
    Ok(SampleSection(diameter, center, edge))
  }

  function BuildParticle(cfg: Config, pdbFile: string): (r: Result<ParticleSection>)
    ensures r.Ok? <==> ParticleComplete(cfg)
    ensures r.Ok? ==> ParticleFrom(cfg, pdbFile, r.value)
  {
    var name :- Lookup(cfg, "molecular_model", "particle_name");
    var voxel :- Lookup(cfg, "molecular_model", "voxel_size_nm");
    if Has(cfg, "molecular_model", "particle_mrcout") then
      var files :- MapFileNames(cfg["molecular_model"]["particle_mrcout"]);
      Ok(ParticleSection(name, voxel, pdbFile, Some(files)))
    else
      Ok(ParticleSection(name, voxel, pdbFile, None))
  }

  function BuildBeam(cfg: Config, dose: Value): (r: Result<BeamSection>)
    ensures r.Ok? <==> BeamComplete(cfg, dose)
    ensures r.Ok? ==> BeamFrom(cfg, dose, r.value)
  {
    var voltage :- Lookup(cfg, "beam_parameters", "voltage_kv");
    var spread :- Lookup(cfg, "beam_parameters", "energy_spread_v");
    var perIm :- if dose != Null then Ok(dose) else Lookup(cfg, "beam_parameters", "electron_dose_e_per_nm2");
    var sd :- Lookup(cfg, "beam_parameters", "electron_dose_std_e_per_nm2");
    Ok(BeamSection(voltage, spread, perIm, sd))
  }

  /** The nominal defocus: `defocus_um` when given, else the first MTF
      parameter. */
  function NominalDefocus(cfg: Config): (r: Result<Value>)
    ensures MtfComplete(cfg) ==> r.Ok?
    ensures Has(cfg, "optics_parameters", "defocus_um") ==> r == Ok(cfg["optics_parameters"]["defocus_um"])
    ensures !Has(cfg, "optics_parameters", "defocus_um") && r.Ok? ==>
              Has(cfg, "detector_parameters", "mtf_params") && Index(cfg["detector_parameters"]["mtf_params"], 0) == r
  {
    if Has(cfg, "optics_parameters", "defocus_um") then Ok(cfg["optics_parameters"]["defocus_um"])
    else
      var mtf :- Lookup(cfg, "detector_parameters", "mtf_params");
      Index(mtf, 0)
  }

  /** The optics section up to the CTF decision (`gen_defocus` and
      `defocus_file_in` are filled in afterwards). */
  function BuildOptics(cfg: Config): (r: Result<OpticsSection>)
    ensures r.Ok? ==> OpticsFrom(cfg, r.value)
    ensures OpticsKeysComplete(cfg) && MtfComplete(cfg) ==> r.Ok?
  {
    var magnification :- Lookup(cfg, "optics_parameters", "magnification");
    var cs :- Lookup(cfg, "optics_parameters", "spherical_aberration_mm");
    var cc :- Lookup(cfg, "optics_parameters", "chromatic_aberration_mm");
    var aperture :- Lookup(cfg, "optics_parameters", "aperture_diameter_um");
    var focal :- Lookup(cfg, "optics_parameters", "focal_length_mm");
    var angle :- Lookup(cfg, "optics_parameters", "aperture_angle_mrad");
    var out := if Has(cfg, "optics_parameters", "optics_defocusout")
               then cfg["optics_parameters"]["optics_defocusout"] else Null;
    var nominal :- NominalDefocus(cfg);
    var syst :- Lookup(cfg, "optics_parameters", "defocus_syst_error_um");
    var nonsyst :- Lookup(cfg, "optics_parameters", "defocus_nonsyst_error_um");
    Ok(OpticsSection(magnification, cs, cc, aperture, focal, angle, out, nominal, syst, nonsyst, "", None))
  }

  function BuildDetector(cfg: Config, noise: Value, mtfA: Value, mrcFile: string): (r: Result<DetectorSection>)
    ensures r.Ok? <==> DetectorComplete(cfg, noise)
    ensures r.Ok? ==> DetectorFrom(cfg, noise, mtfA, mrcFile, r.value)
  {
    var nx :- Lookup(cfg, "detector_parameters", "detector_nx_px");
    var ny :- Lookup(cfg, "detector_parameters", "detector_ny_px");
    var pixel :- Lookup(cfg, "detector_parameters", "detector_pixel_size_um");
    var gain :- Lookup(cfg, "detector_parameters", "average_gain_count_per_electron");
    var quantization :- if noise != Null then Ok(noise) else Lookup(cfg, "detector_parameters", "noise");
    var dqe :- Lookup(cfg, "detector_parameters", "detector_q_efficiency");
    var mtf :- Lookup(cfg, "detector_parameters", "mtf_params");
    var b :- Index(mtf, 1);
    var c :- Index(mtf, 2);
    var alpha :- Index(mtf, 3);
    var beta :- Index(mtf, 4);
    Ok(DetectorSection(mtfA, nx, ny, pixel, gain, quantization, dqe, b, c, alpha, beta, mrcFile))
  }

  /** The `ctf` section: `distribution_type`, then `distribution_parameters`,
      each copied only if every key before it was found. */
  function BuildCtf(cfg: Config): (r: CtfSection)
    ensures r.distributionType == Optional(cfg, "ctf_parameters", "distribution_type")
    ensures r.distributionParameters.Some? <==> HasCtfBlock(cfg)
    ensures r.distributionParameters.Some? ==>
              r.distributionParameters.value == cfg["ctf_parameters"]["distribution_parameters"]
  {
    var dtype := Optional(cfg, "ctf_parameters", "distribution_type");
    CtfSection(dtype, if dtype.Some? then Optional(cfg, "ctf_parameters", "distribution_parameters") else None)
  }

  /** True when the configuration holds a full CTF distribution block. */
  predicate HasCtfBlock(cfg: Config)
  {
    Has(cfg, "ctf_parameters", "distribution_type") && Has(cfg, "ctf_parameters", "distribution_parameters")
  }

  /** The optics and detector sections together, with the CTF decision
      applied to the optics: both share one nominal defocus, and the
      defocus-file input is used exactly when a full CTF block exists. */
  function BuildOpticsAndDetector(cfg: Config, noise: Value, mrcFile: string, defocusFile: string)
    : (r: Result<(OpticsSection, DetectorSection)>)
    ensures r.Ok? <==> OpticsKeysComplete(cfg) && DetectorComplete(cfg, noise)
    ensures r.Ok? ==> r.value.0.defocusNominal == r.value.1.mtfA
    ensures r.Ok? ==> OpticsFrom(cfg, r.value.0)
    ensures r.Ok? ==> DetectorFrom(cfg, noise, r.value.0.defocusNominal, mrcFile, r.value.1)
    ensures r.Ok? && HasCtfBlock(cfg) ==> r.value.0.genDefocus == "no" && r.value.0.defocusFileIn == Some(defocusFile)
    ensures r.Ok? && !HasCtfBlock(cfg) ==> r.value.0.genDefocus == "yes" && r.value.0.defocusFileIn == None
    ensures r.Ok? ==> r.value.1.imageFileOut == mrcFile
    ensures r.Ok? && noise != Null ==> r.value.1.useQuantization == noise
    ensures r.Ok? && noise == Null ==> r.value.1.useQuantization == cfg["detector_parameters"]["noise"]
  {
    var optics :- BuildOptics(cfg);
    var detector :- BuildDetector(cfg, noise, optics.defocusNominal, mrcFile);
    var fromFile := BuildCtf(cfg).distributionParameters.Some?;
    Ok((optics.(genDefocus := if fromFile then "no" else "yes",
                defocusFileIn := if fromFile then Some(defocusFile) else None),
        detector))
  }

  /** `populate_tem_input_parameter_dict`. `cfg` is the YAML already loaded
      from `path`; `drawnSeed` is what `random.randint(0, int(1e10))` returns
      when the configuration has no seed. */
  function PopulateTemInputs(
    path: string, cfg: Config, mrcFile: string, pdbFile: string, crdFile: string,
    logFile: string, defocusFile: string, dose: Value, noise: Value, drawnSeed: SeedDraw
  ): (r: Result<TemInputs>)
    // the extension check comes first, and the dictionary is built exactly
    // when every mandatory key is present
    ensures !AllowedSuffix(path, YamlTypes) ==> r == Err(ExtensionMismatch(path, YamlTypes))
    ensures r.Ok? <==> AllowedSuffix(path, YamlTypes) && Complete(cfg, dose, noise)
    // seed: the configured one, else the random draw
    ensures r.Ok? && Has(cfg, "miscellaneous", "seed") ==> r.value.simulation.seed == cfg["miscellaneous"]["seed"]
    ensures r.Ok? && !Has(cfg, "miscellaneous", "seed") ==>
              r.value.simulation.seed.Int? && 0 <= r.value.simulation.seed.i <= MaxSeed
    // caller overrides win over the YAML
    ensures r.Ok? && dose != Null ==> r.value.beam.dosePerIm == dose
    ensures r.Ok? && dose == Null ==> r.value.beam.dosePerIm == cfg["beam_parameters"]["electron_dose_e_per_nm2"]
    ensures r.Ok? && noise != Null ==> r.value.detector.useQuantization == noise
    ensures r.Ok? && noise == Null ==> r.value.detector.useQuantization == cfg["detector_parameters"]["noise"]
    // one nominal defocus feeds both optics and the detector's first MTF slot
    ensures r.Ok? ==> r.value.optics.defocusNominal == r.value.detector.mtfA
    ensures r.Ok? && Has(cfg, "optics_parameters", "defocus_um") ==>
              r.value.optics.defocusNominal == cfg["optics_parameters"]["defocus_um"]
    ensures r.Ok? && !Has(cfg, "optics_parameters", "defocus_um") ==>
              Index(cfg["detector_parameters"]["mtf_params"], 0) == Ok(r.value.optics.defocusNominal)
    // CTF branching
    ensures r.Ok? && HasCtfBlock(cfg) ==>
              r.value.optics.genDefocus == "no" && r.value.optics.defocusFileIn == Some(defocusFile)
              && r.value.ctf.distributionType.Some? && r.value.ctf.distributionParameters.Some?
    ensures r.Ok? && !HasCtfBlock(cfg) ==>
              r.value.optics.genDefocus == "yes" && r.value.optics.defocusFileIn == None
              && r.value.ctf.distributionParameters == None
    // optional fields fall back to the "omit" marker
    ensures r.Ok? ==> (r.value.particle.mapFiles.Some? <==> Has(cfg, "molecular_model", "particle_mrcout"))
    ensures r.Ok? && !Has(cfg, "optics_parameters", "optics_defocusout") ==> r.value.optics.defocusFileOut == Null
    ensures r.Ok? ==> (r.value.noise.signalToNoise.Some? <==> Has(cfg, "noise_parameters", "signal_to_noise"))
    ensures r.Ok? ==> (r.value.noise.signalToNoiseDb.Some? <==> Has(cfg, "noise_parameters", "signal_to_noise_db"))
    // the run's own files are passed through
    ensures r.Ok? ==> r.value.simulation.logFile == logFile && r.value.particle.pdbFile == pdbFile
                      && r.value.particleset.crdFile == crdFile && r.value.detector.imageFileOut == mrcFile
    // every other configured value lands unchanged in its own field
    ensures r.Ok? ==> ConfiguredValuesKept(cfg, dose, noise, pdbFile, mrcFile, r.value)
  {
    var _ :- CheckExtension(path, YamlTypes);
    var seed := if Has(cfg, "miscellaneous", "seed") then cfg["miscellaneous"]["seed"] else Int(drawnSeed);
    var noiseSection := NoiseSection(Optional(cfg, "noise_parameters", "signal_to_noise"),
                                     Optional(cfg, "noise_parameters", "signal_to_noise_db"));
    var sample :- BuildSample(cfg);
    var particle :- BuildParticle(cfg, pdbFile);
    var beam :- BuildBeam(cfg, dose);
    var od :- BuildOpticsAndDetector(cfg, noise, mrcFile, defocusFile);
    var nTilts :- Lookup(cfg, "geometry_parameters", "n_samples");
    Ok(TemInputs(SimulationSection(seed, logFile), noiseSection, sample, particle,
                 ParticleSetSection(particle.name, crdFile), beam, od.0, od.1,
                 GeometrySection(nTilts), BuildCtf(cfg)))
  }

  /** Every section of `t` holds the configured values in the fields the
      builder copies them to (the caller's dose and noise win when given). */
  predicate ConfiguredValuesKept(cfg: Config, dose: Value, noise: Value, pdbFile: string, mrcFile: string,
                                 t: TemInputs)
  {
    && (Has(cfg, "miscellaneous", "seed") ==> t.simulation.seed == cfg["miscellaneous"]["seed"])
    && SampleFrom(cfg, t.sample)
    && ParticleFrom(cfg, pdbFile, t.particle)
    && t.particleset.name == cfg["molecular_model"]["particle_name"]
    && BeamFrom(cfg, dose, t.beam)
    && OpticsFrom(cfg, t.optics)
    && DetectorFrom(cfg, noise, t.optics.defocusNominal, mrcFile, t.detector)
    && Has(cfg, "geometry_parameters", "n_samples")
    && t.geometry.nTilts == cfg["geometry_parameters"]["n_samples"]
    && t.noise.signalToNoise == Optional(cfg, "noise_parameters", "signal_to_noise")
    && t.noise.signalToNoiseDb == Optional(cfg, "noise_parameters", "signal_to_noise_db")
    && t.ctf == BuildCtf(cfg)
  }

  /** The volume-map names keep exactly the part of `particle_mrcout` before
      its first ".mrc": a prefix with no ".mrc" starting inside it, followed
      by ".mrc" unless it is the whole value. */
  lemma {:induction false} MapFileNaming(mrcout: string)
    ensures MapFileNames(Text(mrcout)).Ok?
    ensures var files := MapFileNames(Text(mrcout)).value;
            exists key :: key <= mrcout
                       && (forall j :: 0 <= j < |key| ==> !OccursAt(mrcout, ".mrc", j))
                       && (|key| < |mrcout| ==> OccursAt(mrcout, ".mrc", |key|))
                       && (|key| == |mrcout| ==> forall j :: 0 <= j ==> !OccursAt(mrcout, ".mrc", j))
                       && files == MapFiles(key + "_real.mrc", key + "_imag.mrc")
  {
    var key := PrefixBefore(mrcout, ".mrc");
    assert MapFileNames(Text(mrcout)).value == MapFiles(key + "_real.mrc", key + "_imag.mrc");
  }

  /** In `base + ".mrc"`, where `base` holds no ".mrc", the first ".mrc"
      is the final one: ".mrc" cannot overlap itself, its only '.' being
      its first character. */
  lemma NoEarlierMrc(base: string, j: int)
    requires forall i :: 0 <= i ==> !OccursAt(base, ".mrc", i)
    requires 0 <= j < |base|
    ensures !OccursAt(base + ".mrc", ".mrc", j)
  {
    var s := base + ".mrc";
    if j + 4 <= |base| {
      assert s[j..j + 4] == base[j..j + 4];
      assert !OccursAt(base, ".mrc", j);
    } else if j + 4 <= |s| {
      var d := |base| - j;
      assert s[j..j + 4][d] == s[|base|] == '.';
      assert ".mrc"[d] != '.';
    }
  }

  /** A name ending in ".mrc" and holding no other ".mrc" loses exactly that
      ending: "vol.mrc" becomes "vol_real.mrc" and "vol_imag.mrc". */
  lemma MapFileNamingOfMrc(base: string)
    requires forall j :: 0 <= j ==> !OccursAt(base, ".mrc", j)
    ensures MapFileNames(Text(base + ".mrc")) == Ok(MapFiles(base + "_real.mrc", base + "_imag.mrc"))
  {
    var s := base + ".mrc";
    assert OccursAt(s, ".mrc", |base|) by { assert s[|base|..|base| + 4] == ".mrc"; }
    var key := PrefixBefore(s, ".mrc");
    assert |key| >= |base| by {
      if |key| < |base| {
        NoEarlierMrc(base, |key|);
      }
    }
    assert key == s[..|key|] == base;
  }
}
