/** What the builder decides, as it appears in the `.inp` file the writer
    produces from the builder's result. */
module Pipeline {
  import opened Values
  import opened TemInputs
  import opened InpFile

  /** The dose and quantization settings of the inputs are lines of the
      written file. */
  lemma DoseAndQuantizationLines(inpPath: string, t: TemInputs)
    requires WriteInpFile(inpPath, t).Ok?
    ensures EntryText(Entry("dose_per_im", Render(t.beam.dosePerIm))) in WriteInpFile(inpPath, t).value
    ensures EntryText(Entry("use_quantization", Render(t.detector.useQuantization))) in WriteInpFile(inpPath, t).value
  {
    var file := InpSections(t).value;
    SectionsAt(t);
    assert BeamSectionOf(t.beam).entries[3] == Entry("dose_per_im", Render(t.beam.dosePerIm));
    assert DetectorSectionOf(t.detector).entries[4] == Entry("use_quantization", Render(t.detector.useQuantization));
    EntryLineWritten(file, 5, BeamSectionOf(t.beam).entries[3]);
    EntryLineWritten(file, 7, DetectorSectionOf(t.detector).entries[4]);
  }

  /** The defocus generation flag is a line of the written file, and so is the
      defocus file to read exactly when the inputs name one. */
  lemma DefocusLines(inpPath: string, t: TemInputs)
    requires WriteInpFile(inpPath, t).Ok?
    ensures EntryText(Entry("gen_defocus", t.optics.genDefocus)) in WriteInpFile(inpPath, t).value
    ensures t.optics.defocusFileIn.Some? ==>
              EntryText(Entry("defocus_file_in", t.optics.defocusFileIn.value)) in WriteInpFile(inpPath, t).value
    ensures t.optics.defocusFileIn.None? ==> "defocus_file_in" !in Keys(InpSections(t).value)
  {
    var file := InpSections(t).value;
    SectionsAt(t);
    var optics := OpticsSectionOf(t.optics);
    assert optics.entries[6] == Entry("gen_defocus", t.optics.genDefocus);
    EntryLineWritten(file, 6, optics.entries[6]);
    if t.optics.defocusFileIn.Some? {
      assert optics.entries[|optics.entries| - 1] == Entry("defocus_file_in", t.optics.defocusFileIn.value);
      EntryLineWritten(file, 6, optics.entries[|optics.entries| - 1]);
    } else {
      InpLayout(inpPath, t);
      NoDefocusFileInKey(t.particle.mapFiles.Some?, t.optics.defocusFileOut != Null);
    }
  }

  /** The lines whose values never change: the simulator generates
      micrographs from a pdb source, reads the particle coordinates from a
      file, generates an untilted tilt series without geometry errors, and
      generates the dose. */
  lemma FixedLines(inpPath: string, t: TemInputs)
    requires WriteInpFile(inpPath, t).Ok?
    ensures EntryText(Entry("generate_micrographs", "yes")) in WriteInpFile(inpPath, t).value
    ensures EntryText(Entry("source", "pdb")) in WriteInpFile(inpPath, t).value
    ensures EntryText(Entry("particle_coords", "file")) in WriteInpFile(inpPath, t).value
    ensures EntryText(Entry("gen_tilt_data", "yes")) in WriteInpFile(inpPath, t).value
    ensures EntryText(Entry("tilt_axis", "0")) in WriteInpFile(inpPath, t).value
    ensures EntryText(Entry("theta_start", "0")) in WriteInpFile(inpPath, t).value
    ensures EntryText(Entry("theta_incr", "0")) in WriteInpFile(inpPath, t).value
    ensures EntryText(Entry("geom_errors", "none")) in WriteInpFile(inpPath, t).value
    ensures EntryText(Entry("gen_dose", "yes")) in WriteInpFile(inpPath, t).value
  {
    SectionsAt(t);
    var geometry := GeometrySectionOf(t.geometry);
    EntryWritten(inpPath, t, 0, SimulationSectionOf(t.simulation), 0);
    EntryWritten(inpPath, t, 2, ParticleSectionOf(t.particle), 0);
    EntryWritten(inpPath, t, 3, ParticleSetSectionOf(t.particleset), 1);
    EntryWritten(inpPath, t, 4, geometry, 0);
    EntryWritten(inpPath, t, 4, geometry, 1);
    EntryWritten(inpPath, t, 4, geometry, 3);
    EntryWritten(inpPath, t, 4, geometry, 4);
    EntryWritten(inpPath, t, 4, geometry, 5);
    EntryWritten(inpPath, t, 5, BeamSectionOf(t.beam), 2);
  }

  /** The coordinate file and the image output are lines of the written
      file. */
  lemma RunFileLines(inpPath: string, t: TemInputs)
    requires WriteInpFile(inpPath, t).Ok?
    ensures EntryText(Entry("coord_file_in", t.particleset.crdFile)) in WriteInpFile(inpPath, t).value
    ensures EntryText(Entry("image_file_out", t.detector.imageFileOut)) in WriteInpFile(inpPath, t).value
  {
    SectionsAt(t);
    var detector := DetectorSectionOf(t.detector);
    EntryWritten(inpPath, t, 3, ParticleSetSectionOf(t.particleset), 2);
    EntryWritten(inpPath, t, 7, detector, |detector.entries| - 1);
  }

  /** The caller's dose and noise overrides, when given, are the file's
      `dose_per_im` and `use_quantization`; otherwise the configured values
      are. */
  lemma OverridesReachFile(path: string, cfg: Config, mrcFile: string, pdbFile: string, crdFile: string,
                           logFile: string, defocusFile: string, dose: Value, noise: Value,
                           drawnSeed: SeedDraw, inpPath: string)
    requires PopulateTemInputs(path, cfg, mrcFile, pdbFile, crdFile, logFile, defocusFile, dose, noise, drawnSeed).Ok?
    requires WriteInpFile(inpPath, PopulateTemInputs(path, cfg, mrcFile, pdbFile, crdFile, logFile, defocusFile,
                                                     dose, noise, drawnSeed).value).Ok?
    ensures var lines := WriteInpFile(inpPath, PopulateTemInputs(path, cfg, mrcFile, pdbFile, crdFile, logFile,
                                                                 defocusFile, dose, noise, drawnSeed).value).value;
            && (dose != Null ==> EntryText(Entry("dose_per_im", Render(dose))) in lines)
            && (dose == Null ==> ConfigLine(cfg, "beam_parameters", "electron_dose_e_per_nm2", "dose_per_im") in lines)
            && (noise != Null ==> EntryText(Entry("use_quantization", Render(noise))) in lines)
            && (noise == Null ==> ConfigLine(cfg, "detector_parameters", "noise", "use_quantization") in lines)
  {
    var t := PopulateTemInputs(path, cfg, mrcFile, pdbFile, crdFile, logFile, defocusFile, dose, noise, drawnSeed).value;
    DoseAndQuantizationLines(inpPath, t);
  }

  /** With a full CTF block the file reads the given defocus file instead of
      generating defocus values; without one it generates them and names no
      defocus input. */
  lemma CtfBranchReachesFile(path: string, cfg: Config, mrcFile: string, pdbFile: string, crdFile: string,
                             logFile: string, defocusFile: string, dose: Value, noise: Value,
                             drawnSeed: SeedDraw, inpPath: string)
    requires PopulateTemInputs(path, cfg, mrcFile, pdbFile, crdFile, logFile, defocusFile, dose, noise, drawnSeed).Ok?
    requires WriteInpFile(inpPath, PopulateTemInputs(path, cfg, mrcFile, pdbFile, crdFile, logFile, defocusFile,
                                                     dose, noise, drawnSeed).value).Ok?
    ensures var t := PopulateTemInputs(path, cfg, mrcFile, pdbFile, crdFile, logFile, defocusFile, dose, noise,
                                       drawnSeed).value;
            var lines := WriteInpFile(inpPath, t).value;
            && (HasCtfBlock(cfg) ==> EntryText(Entry("gen_defocus", "no")) in lines
                                     && EntryText(Entry("defocus_file_in", defocusFile)) in lines)
            && (!HasCtfBlock(cfg) ==> EntryText(Entry("gen_defocus", "yes")) in lines
                                      && "defocus_file_in" !in Keys(InpSections(t).value))
  {
    var t := PopulateTemInputs(path, cfg, mrcFile, pdbFile, crdFile, logFile, defocusFile, dose, noise, drawnSeed).value;
    DefocusLines(inpPath, t);
  }

  /** The run's coordinate file and image output, as passed to the builder,
      are lines of the written file. */
  lemma RunFilesReachFile(path: string, cfg: Config, mrcFile: string, pdbFile: string, crdFile: string,
                          logFile: string, defocusFile: string, dose: Value, noise: Value,
                          drawnSeed: SeedDraw, inpPath: string)
    requires PopulateTemInputs(path, cfg, mrcFile, pdbFile, crdFile, logFile, defocusFile, dose, noise, drawnSeed).Ok?
    requires WriteInpFile(inpPath, PopulateTemInputs(path, cfg, mrcFile, pdbFile, crdFile, logFile, defocusFile,
                                                     dose, noise, drawnSeed).value).Ok?
    ensures var lines := WriteInpFile(inpPath, PopulateTemInputs(path, cfg, mrcFile, pdbFile, crdFile, logFile,
                                                                 defocusFile, dose, noise, drawnSeed).value).value;
            && EntryText(Entry("coord_file_in", crdFile)) in lines
            && EntryText(Entry("image_file_out", mrcFile)) in lines
  {
    var t := PopulateTemInputs(path, cfg, mrcFile, pdbFile, crdFile, logFile, defocusFile, dose, noise, drawnSeed).value;
    RunFileLines(inpPath, t);
  }

  /** No key of a file without a defocus input is `defocus_file_in` (a
      helper of `DefocusLines`). */
  lemma NoDefocusFileInKey(mapFiles: bool, defocusOut: bool)
    ensures "defocus_file_in" !in ExpectedKeys(mapFiles, defocusOut, false)
  {
  }

  /** The line `inpKey = str(parameters[section][key])`. */
  function ConfigLine(cfg: Config, section: string, key: string, inpKey: string): string
    requires Has(cfg, section, key)
  {
    EntryText(Entry(inpKey, Render(cfg[section][key])))
  }

  /** Every entry of section `i` is a line of the written file. */
  lemma SectionWritten(inpPath: string, t: TemInputs, i: nat)
    requires WriteInpFile(inpPath, t).Ok? && i < |InpSections(t).value|
    ensures forall k :: 0 <= k < |InpSections(t).value[i].entries| ==>
              EntryText(InpSections(t).value[i].entries[k]) in WriteInpFile(inpPath, t).value
  {
    var file := InpSections(t).value;
    forall k | 0 <= k < |file[i].entries| ensures EntryText(file[i].entries[k]) in WriteInpFile(inpPath, t).value {
      EntryLineWritten(file, i, file[i].entries[k]);
    }
  }

  /** Entry `k` of section `i` is a line of the written file. */
  lemma EntryWritten(inpPath: string, t: TemInputs, i: nat, section: InpSection, k: nat)
    requires WriteInpFile(inpPath, t).Ok?
    requires i < |InpSections(t).value| && InpSections(t).value[i] == section && k < |section.entries|
    ensures EntryText(section.entries[k]) in WriteInpFile(inpPath, t).value
  {
    EntryLineWritten(InpSections(t).value, i, section.entries[k]);
  }

  /** The configured seed, when there is one, and the run's log file are
      lines of the simulation section. */
  lemma SimulationValuesWritten(cfg: Config, inpPath: string, t: TemInputs)
    requires Has(cfg, "miscellaneous", "seed") ==> t.simulation.seed == cfg["miscellaneous"]["seed"]
    requires WriteInpFile(inpPath, t).Ok?
    ensures Has(cfg, "miscellaneous", "seed") ==>
              ConfigLine(cfg, "miscellaneous", "seed", "rand_seed") in WriteInpFile(inpPath, t).value
    ensures EntryText(Entry("log_file", t.simulation.logFile)) in WriteInpFile(inpPath, t).value
  {
    SectionsAt(t);
    var simulation := SimulationSectionOf(t.simulation);
    EntryWritten(inpPath, t, 0, simulation, 1);
    EntryWritten(inpPath, t, 0, simulation, 2);
  }

  /** The three configured grid sizes are written in decimal under
      `diameter`, `thickness_edge` and `thickness_center`. */
  lemma SampleValuesWritten(cfg: Config, inpPath: string, t: TemInputs)
    requires SampleFrom(cfg, t.sample)
    requires WriteInpFile(inpPath, t).Ok?
    ensures var grid := cfg["specimen_grid_params"];
            && FormatD(grid["hole_diameter_nm"]).Ok?
            && FormatD(grid["hole_thickness_edge_nm"]).Ok?
            && FormatD(grid["hole_thickness_center_nm"]).Ok?
            && EntryText(Entry("diameter", FormatD(grid["hole_diameter_nm"]).value)) in WriteInpFile(inpPath, t).value
            && EntryText(Entry("thickness_edge", FormatD(grid["hole_thickness_edge_nm"]).value))
                 in WriteInpFile(inpPath, t).value
            && EntryText(Entry("thickness_center", FormatD(grid["hole_thickness_center_nm"]).value))
                 in WriteInpFile(inpPath, t).value
  {
    SectionsAt(t);
    var sample := SampleSectionOf(t.sample).value;
    EntryWritten(inpPath, t, 1, sample, 0);
    EntryWritten(inpPath, t, 1, sample, 1);
    EntryWritten(inpPath, t, 1, sample, 2);
  }

  /** The configured particle name titles the particle section and is the
      particle type; the voxel size, the pdb file and, when
      `particle_mrcout` is configured, the derived map names are lines. */
  lemma ParticleValuesWritten(cfg: Config, pdbFile: string, inpPath: string, t: TemInputs)
    requires ParticleFrom(cfg, pdbFile, t.particle)
    requires t.particleset.name == cfg["molecular_model"]["particle_name"]
    requires WriteInpFile(inpPath, t).Ok?
    ensures HeaderText("particle " + Render(cfg["molecular_model"]["particle_name"])) in WriteInpFile(inpPath, t).value
    ensures ConfigLine(cfg, "molecular_model", "voxel_size_nm", "voxel_size") in WriteInpFile(inpPath, t).value
    ensures EntryText(Entry("pdb_file_in", pdbFile)) in WriteInpFile(inpPath, t).value
    ensures ConfigLine(cfg, "molecular_model", "particle_name", "particle_type") in WriteInpFile(inpPath, t).value
    ensures Has(cfg, "molecular_model", "particle_mrcout") ==>
              var files := MapFileNames(cfg["molecular_model"]["particle_mrcout"]).value;
              && EntryText(Entry("map_file_re_out", files.re)) in WriteInpFile(inpPath, t).value
              && EntryText(Entry("map_file_im_out", files.im)) in WriteInpFile(inpPath, t).value
  {
    SectionsAt(t);
    HeaderLineWritten(InpSections(t).value, 2);
    var particle := ParticleSectionOf(t.particle);
    EntryWritten(inpPath, t, 2, particle, 1);
    EntryWritten(inpPath, t, 2, particle, 2);
    if t.particle.mapFiles.Some? {
      EntryWritten(inpPath, t, 2, particle, 3);
      EntryWritten(inpPath, t, 2, particle, 4);
    }
    EntryWritten(inpPath, t, 3, ParticleSetSectionOf(t.particleset), 0);
  }

  /** The configured number of samples is the number of tilts. */
  lemma GeometryValuesWritten(cfg: Config, inpPath: string, t: TemInputs)
    requires Has(cfg, "geometry_parameters", "n_samples")
    requires t.geometry.nTilts == cfg["geometry_parameters"]["n_samples"]
    requires WriteInpFile(inpPath, t).Ok?
    ensures ConfigLine(cfg, "geometry_parameters", "n_samples", "ntilts") in WriteInpFile(inpPath, t).value
  {
    SectionsAt(t);
    EntryWritten(inpPath, t, 4, GeometrySectionOf(t.geometry), 2);
  }

  /** The configured voltage, energy spread and dose deviation are lines of
      the beam section. */
  lemma BeamValuesWritten(cfg: Config, dose: Value, inpPath: string, t: TemInputs)
    requires BeamFrom(cfg, dose, t.beam)
    requires WriteInpFile(inpPath, t).Ok?
    ensures ConfigLine(cfg, "beam_parameters", "voltage_kv", "acc_voltage") in WriteInpFile(inpPath, t).value
    ensures ConfigLine(cfg, "beam_parameters", "energy_spread_v", "energy_spread") in WriteInpFile(inpPath, t).value
    ensures ConfigLine(cfg, "beam_parameters", "electron_dose_std_e_per_nm2", "dose_sd") in WriteInpFile(inpPath, t).value
  {
    SectionsAt(t);
    var beam := BeamSectionOf(t.beam);
    EntryWritten(inpPath, t, 5, beam, 0);
    EntryWritten(inpPath, t, 5, beam, 1);
    EntryWritten(inpPath, t, 5, beam, 4);
  }

  /** The optics section's value lines, in terms of the inputs. */
  lemma OpticsLines(inpPath: string, t: TemInputs)
    requires WriteInpFile(inpPath, t).Ok?
    ensures EntryText(Entry("magnification", Render(t.optics.magnification))) in WriteInpFile(inpPath, t).value
    ensures EntryText(Entry("cs", Render(t.optics.cs))) in WriteInpFile(inpPath, t).value
    ensures EntryText(Entry("cc", Render(t.optics.cc))) in WriteInpFile(inpPath, t).value
    ensures EntryText(Entry("aperture", Render(t.optics.aperture))) in WriteInpFile(inpPath, t).value
    ensures EntryText(Entry("focal_length", Render(t.optics.focalLength))) in WriteInpFile(inpPath, t).value
    ensures EntryText(Entry("cond_ap_angle", Render(t.optics.condApAngle))) in WriteInpFile(inpPath, t).value
    ensures EntryText(Entry("defocus_nominal", Render(t.optics.defocusNominal))) in WriteInpFile(inpPath, t).value
    ensures EntryText(Entry("defocus_syst_error", Render(t.optics.defocusSystError))) in WriteInpFile(inpPath, t).value
    ensures EntryText(Entry("defocus_syst_error", Render(t.optics.defocusNonsystError))) in WriteInpFile(inpPath, t).value
    ensures t.optics.defocusFileOut != Null ==>
              EntryText(Entry("defocus_file_out", Render(t.optics.defocusFileOut))) in WriteInpFile(inpPath, t).value
  {
    SectionsAt(t);
    var optics := OpticsSectionOf(t.optics);
    EntryWritten(inpPath, t, 6, optics, 0);
    EntryWritten(inpPath, t, 6, optics, 1);
    EntryWritten(inpPath, t, 6, optics, 2);
    EntryWritten(inpPath, t, 6, optics, 3);
    EntryWritten(inpPath, t, 6, optics, 4);
    EntryWritten(inpPath, t, 6, optics, 5);
    EntryWritten(inpPath, t, 6, optics, 7);
    EntryWritten(inpPath, t, 6, optics, 8);
    EntryWritten(inpPath, t, 6, optics, 9);
    if t.optics.defocusFileOut != Null {
      EntryWritten(inpPath, t, 6, optics, 10);
    }
  }

  /** The configured magnification, aberrations, aperture, focal length and
      aperture angle are lines of the optics section, each under its
      simulator key. */
  lemma OpticsValuesWritten(cfg: Config, inpPath: string, t: TemInputs)
    requires OpticsFrom(cfg, t.optics)
    requires WriteInpFile(inpPath, t).Ok?
    ensures ConfigLine(cfg, "optics_parameters", "magnification", "magnification") in WriteInpFile(inpPath, t).value
    ensures ConfigLine(cfg, "optics_parameters", "spherical_aberration_mm", "cs") in WriteInpFile(inpPath, t).value
    ensures ConfigLine(cfg, "optics_parameters", "chromatic_aberration_mm", "cc") in WriteInpFile(inpPath, t).value
    ensures ConfigLine(cfg, "optics_parameters", "aperture_diameter_um", "aperture") in WriteInpFile(inpPath, t).value
    ensures ConfigLine(cfg, "optics_parameters", "focal_length_mm", "focal_length") in WriteInpFile(inpPath, t).value
    ensures ConfigLine(cfg, "optics_parameters", "aperture_angle_mrad", "cond_ap_angle") in WriteInpFile(inpPath, t).value
  {
    OpticsLines(inpPath, t);
  }

  /** The configured defocus values are lines of the optics section: the
      nominal defocus when `defocus_um` is set, both errors (the
      nonsystematic one under `defocus_syst_error` too), and the defocus
      output when configured to something other than None. */
  lemma DefocusValuesWritten(cfg: Config, inpPath: string, t: TemInputs)
    requires OpticsFrom(cfg, t.optics)
    requires WriteInpFile(inpPath, t).Ok?
    ensures Has(cfg, "optics_parameters", "defocus_um") ==>
              ConfigLine(cfg, "optics_parameters", "defocus_um", "defocus_nominal") in WriteInpFile(inpPath, t).value
    ensures ConfigLine(cfg, "optics_parameters", "defocus_syst_error_um", "defocus_syst_error")
              in WriteInpFile(inpPath, t).value
    ensures ConfigLine(cfg, "optics_parameters", "defocus_nonsyst_error_um", "defocus_syst_error")
              in WriteInpFile(inpPath, t).value
    ensures Has(cfg, "optics_parameters", "optics_defocusout") && cfg["optics_parameters"]["optics_defocusout"] != Null ==>
              ConfigLine(cfg, "optics_parameters", "optics_defocusout", "defocus_file_out")
                in WriteInpFile(inpPath, t).value
  {
    OpticsLines(inpPath, t);
  }

  /** The detector section's value lines, in terms of the inputs. */
  lemma DetectorLines(inpPath: string, t: TemInputs)
    requires WriteInpFile(inpPath, t).Ok?
    ensures EntryText(Entry("det_pix_x", Render(t.detector.detPixX))) in WriteInpFile(inpPath, t).value
    ensures EntryText(Entry("det_pix_y", Render(t.detector.detPixY))) in WriteInpFile(inpPath, t).value
    ensures EntryText(Entry("pixel_size", Render(t.detector.pixelSize))) in WriteInpFile(inpPath, t).value
    ensures EntryText(Entry("gain", Render(t.detector.gain))) in WriteInpFile(inpPath, t).value
    ensures EntryText(Entry("dqe", Render(t.detector.dqe))) in WriteInpFile(inpPath, t).value
    ensures EntryText(Entry("mtf_a", Render(t.detector.mtfA))) in WriteInpFile(inpPath, t).value
    ensures EntryText(Entry("mtf_b", Render(t.detector.mtfB))) in WriteInpFile(inpPath, t).value
    ensures EntryText(Entry("mtf_c", Render(t.detector.mtfC))) in WriteInpFile(inpPath, t).value
    ensures EntryText(Entry("mtf_alpha", Render(t.detector.mtfAlpha))) in WriteInpFile(inpPath, t).value
    ensures EntryText(Entry("mtf_beta", Render(t.detector.mtfBeta))) in WriteInpFile(inpPath, t).value
  {
    SectionsAt(t);
    var detector := DetectorSectionOf(t.detector);
    EntryWritten(inpPath, t, 7, detector, 0);
    EntryWritten(inpPath, t, 7, detector, 1);
    EntryWritten(inpPath, t, 7, detector, 2);
    EntryWritten(inpPath, t, 7, detector, 3);
    EntryWritten(inpPath, t, 7, detector, 5);
    EntryWritten(inpPath, t, 7, detector, 6);
    EntryWritten(inpPath, t, 7, detector, 7);
    EntryWritten(inpPath, t, 7, detector, 8);
    EntryWritten(inpPath, t, 7, detector, 9);
    EntryWritten(inpPath, t, 7, detector, 10);
  }

  /** The configured detector values and MTF items 1 to 4 are lines of the
      detector section, and `mtf_a` is the nominal defocus. */
  lemma DetectorValuesWritten(cfg: Config, noise: Value, mrcFile: string, inpPath: string, t: TemInputs)
    requires DetectorFrom(cfg, noise, t.optics.defocusNominal, mrcFile, t.detector)
    requires WriteInpFile(inpPath, t).Ok?
    ensures ConfigLine(cfg, "detector_parameters", "detector_nx_px", "det_pix_x") in WriteInpFile(inpPath, t).value
    ensures ConfigLine(cfg, "detector_parameters", "detector_ny_px", "det_pix_y") in WriteInpFile(inpPath, t).value
    ensures ConfigLine(cfg, "detector_parameters", "detector_pixel_size_um", "pixel_size") in WriteInpFile(inpPath, t).value
    ensures ConfigLine(cfg, "detector_parameters", "average_gain_count_per_electron", "gain") in WriteInpFile(inpPath, t).value
    ensures ConfigLine(cfg, "detector_parameters", "detector_q_efficiency", "dqe") in WriteInpFile(inpPath, t).value
    ensures EntryText(Entry("mtf_a", Render(t.optics.defocusNominal))) in WriteInpFile(inpPath, t).value
    ensures EntryText(Entry("mtf_b", Render(MtfItem(cfg, 1)))) in WriteInpFile(inpPath, t).value
    ensures EntryText(Entry("mtf_c", Render(MtfItem(cfg, 2)))) in WriteInpFile(inpPath, t).value
    ensures EntryText(Entry("mtf_alpha", Render(MtfItem(cfg, 3)))) in WriteInpFile(inpPath, t).value
    ensures EntryText(Entry("mtf_beta", Render(MtfItem(cfg, 4)))) in WriteInpFile(inpPath, t).value
  {
    DetectorLines(inpPath, t);
  }
}
