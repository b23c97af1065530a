/** The `.inp` writer (`write_tem_inputs_to_inp_file`): the simulator's input
    file as a sequence of sections, each a `=== title ===` header followed by
    `key = value` lines, and its rendering as text lines. */
module InpFile {
  import opened Strings
  import opened Values
  import opened Paths
  import opened TemInputs

  datatype Entry = Entry(key: string, value: string)

  datatype InpSection = InpSection(title: string, entries: seq<Entry>)

  function HeaderText(title: string): string
  {
    "=== " + title + " ==="
  }

  function EntryText(e: Entry): string
  {
    e.key + " = " + e.value
  }

  /** The text lines of a section: its header, then its entries in order. */
  function SectionLines(s: InpSection): (r: seq<string>)
    ensures |r| == 1 + |s.entries|
    ensures r[0] == HeaderText(s.title)
    ensures forall j :: 0 <= j < |s.entries| ==> r[1 + j] == EntryText(s.entries[j])
  {
    [HeaderText(s.title)] + seq(|s.entries|, j requires 0 <= j < |s.entries| => EntryText(s.entries[j]))
  }

  /** The text lines of a whole file, section after section (each line is
      written with a trailing newline). */
  function FileLines(file: seq<InpSection>): seq<string>
  {
    if file == [] then [] else SectionLines(file[0]) + FileLines(file[1..])
  }

  /** The keys of a file's entries, in file order. */
  function Keys(file: seq<InpSection>): seq<string>
  {
    if file == [] then [] else KeysOfSection(file[0]) + Keys(file[1..])
  }

  /** The keys of a section's entries, in order. */
  function KeysOfSection(s: InpSection): (r: seq<string>)
    ensures |r| == |s.entries|
    ensures forall j :: 0 <= j < |s.entries| ==> r[j] == s.entries[j].key
  {
    seq(|s.entries|, j requires 0 <= j < |s.entries| => s.entries[j].key)
  }

  function Titles(file: seq<InpSection>): (r: seq<string>)
    ensures |r| == |file|
    ensures forall i :: 0 <= i < |file| ==> r[i] == file[i].title
  {
    seq(|file|, i requires 0 <= i < |file| => file[i].title)
  }

  function SimulationSectionOf(s: SimulationSection): InpSection
  {
    InpSection("simulation", [
      Entry("generate_micrographs", "yes"),
      Entry("rand_seed", Render(s.seed)),
      Entry("log_file", s.logFile)])
  }

  /** The sample sizes are written with `:d`, which only integers pass. */
  function SampleSectionOf(s: SampleSection): Result<InpSection>
  {
    var diameter :- FormatD(s.diameter);
    var edge :- FormatD(s.thicknessEdge);
    var center :- FormatD(s.thicknessCenter);
    Ok(InpSection("sample", [
      Entry("diameter", diameter),
      Entry("thickness_edge", edge),
      Entry("thickness_center", center)]))
  }

  function ParticleSectionOf(p: ParticleSection): InpSection
  {
    InpSection("particle " + Render(p.name), [
      Entry("source", "pdb"),
      Entry("voxel_size", Render(p.voxelSize)),
      Entry("pdb_file_in", p.pdbFile)]
      + (match p.mapFiles
         case Some(files) => [Entry("map_file_re_out", files.re), Entry("map_file_im_out", files.im)]
         case None => []))
  }

  function ParticleSetSectionOf(p: ParticleSetSection): InpSection
  {
    InpSection("particleset", [
      Entry("particle_type", Render(p.name)),
      Entry("particle_coords", "file"),
      Entry("coord_file_in", p.crdFile)])
  }

  function GeometrySectionOf(g: GeometrySection): InpSection
  {
    InpSection("geometry", [
      Entry("gen_tilt_data", "yes"),
      Entry("tilt_axis", "0"),
      Entry("ntilts", Render(g.nTilts)),
      Entry("theta_start", "0"),
      Entry("theta_incr", "0"),
      Entry("geom_errors", "none")])
  }

  function BeamSectionOf(b: BeamSection): InpSection
  {
    InpSection("electronbeam", [
      Entry("acc_voltage", Render(b.voltage)),
      Entry("energy_spread", Render(b.spread)),
      Entry("gen_dose", "yes"),
      Entry("dose_per_im", Render(b.dosePerIm)),
      Entry("dose_sd", Render(b.doseSd))])
  }

  /** The optics section. As in the source, the nonsystematic defocus error
      is written under the key `defocus_syst_error`, a second time. */
  function OpticsSectionOf(o: OpticsSection): InpSection
  {
    InpSection("optics", [
      Entry("magnification", Render(o.magnification)),
      Entry("cs", Render(o.cs)),
      Entry("cc", Render(o.cc)),
      Entry("aperture", Render(o.aperture)),
      Entry("focal_length", Render(o.focalLength)),
      Entry("cond_ap_angle", Render(o.condApAngle)),
      Entry("gen_defocus", o.genDefocus),
      Entry("defocus_nominal", Render(o.defocusNominal)),
      Entry("defocus_syst_error", Render(o.defocusSystError)),
      Entry("defocus_syst_error", Render(o.defocusNonsystError))]
      + (if o.defocusFileOut != Null then [Entry("defocus_file_out", Render(o.defocusFileOut))] else [])
      + (match o.defocusFileIn
         case Some(f) => [Entry("defocus_file_in", f)]
         case None => []))
  }

  function DetectorSectionOf(d: DetectorSection): InpSection
  {
    InpSection("detector", [
      Entry("det_pix_x", Render(d.detPixX)),
      Entry("det_pix_y", Render(d.detPixY)),
      Entry("pixel_size", Render(d.pixelSize)),
      Entry("gain", Render(d.gain)),
      Entry("use_quantization", Render(d.useQuantization)),
      Entry("dqe", Render(d.dqe)),
      Entry("mtf_a", Render(d.mtfA)),
      Entry("mtf_b", Render(d.mtfB)),
      Entry("mtf_c", Render(d.mtfC)),
      Entry("mtf_alpha", Render(d.mtfAlpha)),
      Entry("mtf_beta", Render(d.mtfBeta)),
      Entry("image_file_out", d.imageFileOut)])
  }

  /** The sections of the `.inp` file, in the simulator's order. */
  function InpSections(t: TemInputs): (r: Result<seq<InpSection>>)
    ensures r.Ok? <==> FormatD(t.sample.diameter).Ok? && FormatD(t.sample.thicknessEdge).Ok?
                       && FormatD(t.sample.thicknessCenter).Ok?
  {
    var sample :- SampleSectionOf(t.sample);
    Ok([SimulationSectionOf(t.simulation)]
       + [sample]
       + [ParticleSectionOf(t.particle)]
       + [ParticleSetSectionOf(t.particleset)]
       + [GeometrySectionOf(t.geometry)]
       + [BeamSectionOf(t.beam)]
       + [OpticsSectionOf(t.optics)]
       + [DetectorSectionOf(t.detector)])
  }

  /** `write_tem_inputs_to_inp_file`: the lines written to `path`, or the
      extension error raised before the file is opened. */
  function WriteInpFile(path: string, t: TemInputs): (r: Result<seq<string>>)
    ensures !AllowedSuffix(path, InpTypes) ==> r == Err(ExtensionMismatch(path, InpTypes))
    ensures r.Ok? <==> AllowedSuffix(path, InpTypes) && InpSections(t).Ok?
    ensures r.Ok? ==> r.value == FileLines(InpSections(t).value)
  {
    var _ :- CheckExtension(path, InpTypes);
    var sections :- InpSections(t);
    Ok(FileLines(sections))
  }

  // ---------------------------------------------------------------------
  // The layout of the file

  /** The section titles the simulator expects, in its order. */
  function ExpectedTitles(particleName: string): seq<string>
  {
    ["simulation", "sample", "particle " + particleName, "particleset",
     "geometry", "electronbeam", "optics", "detector"]
  }

  /** The keys the simulator expects, in its order; three groups of lines
      are present only when their field is set. */
  function ExpectedKeys(mapFiles: bool, defocusOut: bool, defocusIn: bool): seq<string>
  {
    ["generate_micrographs", "rand_seed", "log_file"]
    + ["diameter", "thickness_edge", "thickness_center"]
    + (["source", "voxel_size", "pdb_file_in"]
       + (if mapFiles then ["map_file_re_out", "map_file_im_out"] else []))
    + ["particle_type", "particle_coords", "coord_file_in"]
    + ["gen_tilt_data", "tilt_axis", "ntilts", "theta_start", "theta_incr", "geom_errors"]
    + ["acc_voltage", "energy_spread", "gen_dose", "dose_per_im", "dose_sd"]
    + (["magnification", "cs", "cc", "aperture", "focal_length", "cond_ap_angle",
        "gen_defocus", "defocus_nominal", "defocus_syst_error", "defocus_syst_error"]
       + (if defocusOut then ["defocus_file_out"] else [])
       + (if defocusIn then ["defocus_file_in"] else []))
    + ["det_pix_x", "det_pix_y", "pixel_size", "gain", "use_quantization", "dqe",
       "mtf_a", "mtf_b", "mtf_c", "mtf_alpha", "mtf_beta", "image_file_out"]
  }

  lemma {:induction false} KeysAppend(a: seq<InpSection>, b: seq<InpSection>)
    ensures Keys(a + b) == Keys(a) + Keys(b)
  {
    if a != [] {
      assert (a + b)[0] == a[0];
      assert (a + b)[1..] == a[1..] + b;
      KeysAppend(a[1..], b);
    } else {
      assert a + b == b;
    }
  }

  lemma {:induction false} FileLinesAppend(a: seq<InpSection>, b: seq<InpSection>)
    ensures FileLines(a + b) == FileLines(a) + FileLines(b)
  {
    if a != [] {
      assert (a + b)[0] == a[0];
      assert (a + b)[1..] == a[1..] + b;
      FileLinesAppend(a[1..], b);
    } else {
      assert a + b == b;
    }
  }

  /** A file has one line per section header and one per entry. */
  lemma {:induction false} FileLinesCount(file: seq<InpSection>)
    ensures |FileLines(file)| == |file| + |Keys(file)|
  {
    if file != [] {
      FileLinesCount(file[1..]);
    }
  }

  lemma KeysOfEight(a: InpSection, b: InpSection, c: InpSection, d: InpSection,
                    e: InpSection, f: InpSection, g: InpSection, h: InpSection)
    ensures Keys([a] + [b] + [c] + [d] + [e] + [f] + [g] + [h])
         == KeysOfSection(a) + KeysOfSection(b) + KeysOfSection(c) + KeysOfSection(d)
          + KeysOfSection(e) + KeysOfSection(f) + KeysOfSection(g) + KeysOfSection(h)
  {
    forall x: InpSection ensures Keys([x]) == KeysOfSection(x) {
      assert [x][1..] == [];
    }
    KeysAppend([a], [b]);
    KeysAppend([a] + [b], [c]);
    KeysAppend([a] + [b] + [c], [d]);
    KeysAppend([a] + [b] + [c] + [d], [e]);
    KeysAppend([a] + [b] + [c] + [d] + [e], [f]);
    KeysAppend([a] + [b] + [c] + [d] + [e] + [f], [g]);
    KeysAppend([a] + [b] + [c] + [d] + [e] + [f] + [g], [h]);
  }

  /** The keys of each section, as the simulator's format lists them. */
  lemma SectionKeys(t: TemInputs)
    requires SampleSectionOf(t.sample).Ok?
    ensures KeysOfSection(SimulationSectionOf(t.simulation)) == ["generate_micrographs", "rand_seed", "log_file"]
    ensures KeysOfSection(SampleSectionOf(t.sample).value) == ["diameter", "thickness_edge", "thickness_center"]
    ensures KeysOfSection(ParticleSectionOf(t.particle))
         == ["source", "voxel_size", "pdb_file_in"]
            + (if t.particle.mapFiles.Some? then ["map_file_re_out", "map_file_im_out"] else [])
    ensures KeysOfSection(ParticleSetSectionOf(t.particleset)) == ["particle_type", "particle_coords", "coord_file_in"]
    ensures KeysOfSection(GeometrySectionOf(t.geometry))
         == ["gen_tilt_data", "tilt_axis", "ntilts", "theta_start", "theta_incr", "geom_errors"]
    ensures KeysOfSection(BeamSectionOf(t.beam)) == ["acc_voltage", "energy_spread", "gen_dose", "dose_per_im", "dose_sd"]
    ensures KeysOfSection(OpticsSectionOf(t.optics))
         == ["magnification", "cs", "cc", "aperture", "focal_length", "cond_ap_angle",
             "gen_defocus", "defocus_nominal", "defocus_syst_error", "defocus_syst_error"]
            + (if t.optics.defocusFileOut != Null then ["defocus_file_out"] else [])
            + (if t.optics.defocusFileIn.Some? then ["defocus_file_in"] else [])
    ensures KeysOfSection(DetectorSectionOf(t.detector))
         == ["det_pix_x", "det_pix_y", "pixel_size", "gain", "use_quantization", "dqe",
             "mtf_a", "mtf_b", "mtf_c", "mtf_alpha", "mtf_beta", "image_file_out"]
  {
  }

  /** Whatever the parameters, the file has the simulator's eight sections in
      its order and exactly the expected keys in the expected order: every
      line is unconditional except the two volume-map lines (present exactly
      when the map files are set) and the defocus-file lines (present
      exactly when their field is set). */
  lemma InpLayout(path: string, t: TemInputs)
    requires WriteInpFile(path, t).Ok?
    ensures Titles(InpSections(t).value) == ExpectedTitles(Render(t.particle.name))
    ensures Keys(InpSections(t).value)
         == ExpectedKeys(t.particle.mapFiles.Some?, t.optics.defocusFileOut != Null, t.optics.defocusFileIn.Some?)
  {
    var sample := SampleSectionOf(t.sample).value;
    SectionKeys(t);
    KeysOfEight(SimulationSectionOf(t.simulation), sample, ParticleSectionOf(t.particle),
                ParticleSetSectionOf(t.particleset), GeometrySectionOf(t.geometry),
                BeamSectionOf(t.beam), OpticsSectionOf(t.optics), DetectorSectionOf(t.detector));
  }

  /** Every section's header is written as a `=== title ===` line. */
  lemma {:induction false} HeaderLineWritten(file: seq<InpSection>, i: nat)
    requires i < |file|
    ensures HeaderText(file[i].title) in FileLines(file)
  {
    if i == 0 {
      assert SectionLines(file[0])[0] == HeaderText(file[0].title);
    } else {
      HeaderLineWritten(file[1..], i - 1);
    }
  }

  /** Every entry of every section is written as a `key = value` line. */
  lemma {:induction false} EntryLineWritten(file: seq<InpSection>, i: nat, e: Entry)
    requires i < |file| && e in file[i].entries
    ensures EntryText(e) in FileLines(file)
  {
    if i == 0 {
      var j :| 0 <= j < |file[0].entries| && file[0].entries[j] == e;
      assert SectionLines(file[0])[1 + j] == EntryText(e);
    } else {
      EntryLineWritten(file[1..], i - 1, e);
    }
  }

  /** The `.inp` file has 53 lines, plus two for the volume maps and one for
      each defocus file that is set. */
  lemma InpLineCount(path: string, t: TemInputs)
    requires WriteInpFile(path, t).Ok?
    ensures |WriteInpFile(path, t).value|
         == 53 + (if t.particle.mapFiles.Some? then 2 else 0)
               + (if t.optics.defocusFileOut != Null then 1 else 0)
               + (if t.optics.defocusFileIn.Some? then 1 else 0)
  {
    InpLayout(path, t);
    FileLinesCount(InpSections(t).value);
  }

  /** The sections of the file, one by one. */
  lemma SectionsAt(t: TemInputs)
    requires InpSections(t).Ok?
    ensures |InpSections(t).value| == 8
    ensures InpSections(t).value[0] == SimulationSectionOf(t.simulation)
    ensures InpSections(t).value[1] == SampleSectionOf(t.sample).value
    ensures InpSections(t).value[2] == ParticleSectionOf(t.particle)
    ensures InpSections(t).value[3] == ParticleSetSectionOf(t.particleset)
    ensures InpSections(t).value[4] == GeometrySectionOf(t.geometry)
    ensures InpSections(t).value[5] == BeamSectionOf(t.beam)
    ensures InpSections(t).value[6] == OpticsSectionOf(t.optics)
    ensures InpSections(t).value[7] == DetectorSectionOf(t.detector)
  {
  }

  /** No expected key is `defocus_nonsyst_error` (a helper of
      `NonsystErrorKey`). */
  lemma NoNonsystKey(mapFiles: bool, defocusOut: bool, defocusIn: bool)
    ensures "defocus_nonsyst_error" !in ExpectedKeys(mapFiles, defocusOut, defocusIn)
  {
  }

  /** The source's slip, kept: the nonsystematic defocus error goes out under
      the key `defocus_syst_error`, right after the systematic one, and no
      `defocus_nonsyst_error` line is ever written. */
  lemma NonsystErrorKey(path: string, t: TemInputs)
    requires WriteInpFile(path, t).Ok?
    ensures EntryText(Entry("defocus_syst_error", Render(t.optics.defocusSystError))) in WriteInpFile(path, t).value
    ensures EntryText(Entry("defocus_syst_error", Render(t.optics.defocusNonsystError))) in WriteInpFile(path, t).value
    ensures "defocus_nonsyst_error" !in Keys(InpSections(t).value)
  {
    var file := InpSections(t).value;
    SectionsAt(t);
    var optics := OpticsSectionOf(t.optics);
    assert optics.entries[8] == Entry("defocus_syst_error", Render(t.optics.defocusSystError));
    assert optics.entries[9] == Entry("defocus_syst_error", Render(t.optics.defocusNonsystError));
    EntryLineWritten(file, 6, optics.entries[8]);
    EntryLineWritten(file, 6, optics.entries[9]);
    InpLayout(path, t);
    NoNonsystKey(t.particle.mapFiles.Some?, t.optics.defocusFileOut != Null, t.optics.defocusFileIn.Some?);
  }
}
