# simSPI TEM-simulator inputs, modelled in Dafny

This project models the configuration and file-format layer that simSPI puts
in front of the TEM-Simulator (`simSPI/tem_inputs.py`):

- the extension check every entry point performs before touching a file;
- `populate_tem_input_parameter_dict`, which turns a parsed YAML configuration
  into the simulator's sections (optional keys, the caller's dose and noise
  overrides, the seed, the particle map file names, the CTF decision);
- the two writers: the `.inp` file the simulator reads and the defocus
  distribution file;
- `classify_input_config` and `get_config_from_yaml`, the legacy grouping of
  parameters into ordered lists;
- `starfile_append_tem_simulator_data`, which appends STAR-file metadata rows
  in place to a caller's list;
- `generate_path_dict`, which names the files of a run;
- the header skip of `retrieve_rotation_metadata`.

Modules, one file each: `Strings` (the string operations of Python the code
relies on: `rfind`, `split(sep)[0]`, `lower`, `str(int)`, `zfill`, `split()`),
`Values` (parsed YAML values, the exceptions as an `Error` datatype, `dict`
lookups, `str()` of values), `Paths` (`pathlib` name, suffix, stem, parent and
join, and the extension check), `TemInputs` (the builder), `InpFile` (the `.inp`
writer), `Pipeline` (what the builder decides, as seen in the written file),
`DefocusFile`, `Classifier`, `Catalogue`, `PathDict` and `Rotation`.

Exceptions become `Result` values. Each function keeps the source's order of
evaluation, so the error a model returns is the one Python raises first. The
`.inp` writer returns the file's lines as structured sections (titles and
`key = value` entries) together with their text. The defocus writer,
the classifier, the catalogue append and the rotation reader are methods with
the source's loops. The catalogue's list is a `DataList` object whose `rows`
field the append extends.

Two behaviours of the source are kept as written:

- The `.inp` writer emits the non-systematic defocus error under the key
  `defocus_syst_error` (tem_inputs.py:446). The file therefore never has a
  `defocus_nonsyst_error` line (`InpFile.NonsystErrorKey`).
- The classifier reads the beam dose as `electron_dose_e_nm2` (line 607), but
  the builder reads `electron_dose_e_per_nm2` (line 182). A configuration
  written for the builder therefore leaves that slot None (`Values.Get`
  gives None for an absent key).

When no seed is configured, the drawn seed is `random.randint(0, int(1e10))`.
That range includes both ends, so the model's `SeedDraw` allows
10 000 000 000 itself.

## Model

| member | source | states |
|---|---|---|
| Strings.PrefixBefore | simSPI/tem_inputs.py:164 | `s.split(sep)[0]` is a prefix of `s` holding no occurrence of `sep`; it ends where the first occurrence starts, or is all of `s` when there is none |
| Strings.Lower | simSPI/tem_inputs.py:116 | `str.lower()` keeps the length and lower-cases each (ASCII) character |
| Strings.ZFill | simSPI/tem_inputs.py:300 | `zfill(width)` pads to the width with zeros after any sign and leaves longer text unchanged |
| Strings.ZFillNatReadsBack | simSPI/tem_inputs.py:300 | any natural number zero-filled to any width is all digits and reads back as that number (`zfill` never truncates) |
| Strings.ZFillNatRoundTrip | simSPI/tem_inputs.py:300 | the zero-padded decimal of `n < 10^width` is exactly `width` digits that read back as `n` |
| Strings.ParseNatToString | simSPI/tem_inputs.py:300 | the decimal text of a natural number reads back as that number |
| Strings.Words | simSPI/tem_inputs.py:511 | `line.split()` yields non-empty fields with no whitespace in them which, laid end to end, are exactly the line's non-whitespace characters in order |
| Strings.WordsUnwords | simSPI/tem_inputs.py:511 | splitting words joined by single spaces gives back exactly those words |
| Strings.WordsSkipsSpace | simSPI/tem_inputs.py:511 | whitespace before the first field is dropped |
| Strings.WordsOfWord | simSPI/tem_inputs.py:511 | a string without whitespace is a single field |
| Strings.WordsSplitsAtSpace | simSPI/tem_inputs.py:511 | a field ends at the first whitespace character after it, and the rest of the line is split on its own; with the two rows above this fixes the fields of every line |
| Values.Lookup | simSPI/tem_inputs.py:151-157 | `parameters[section][key]` succeeds exactly when both levels exist, and otherwise raises KeyError for the first missing one |
| Values.Get | simSPI/tem_inputs.py:638 | `dict.get(key)` is the value when the key is present and None otherwise |
| Values.Index | simSPI/tem_inputs.py:239-242 | `v[i]` succeeds exactly on a list or string long enough; anything else is not subscriptable |
| Values.FormatD | simSPI/tem_inputs.py:395-397 | `'{:d}'.format(v)` succeeds exactly for integers and booleans, giving the decimal of an integer |
| Paths.Suffix | simSPI/tem_inputs.py:114 | a path's suffix is empty, or a dot followed by at least one character that is neither a dot nor a separator and shorter than the name; it is empty exactly when every dot inside the name has a later dot |
| Paths.HiddenFileHasNoSuffix | simSPI/tem_inputs.py:114-119 | a file named only by a dot and an extension (`dir/.yaml`) has no suffix, so the check accepts it only when `""` is on the allow-list |
| Paths.Stem | simSPI/tem_inputs.py:562 | a path's stem followed by its suffix is its name |
| Paths.Parent | simSPI/tem_inputs.py:559-560 | the parent of a bare name is `.`, of a file under the root `/`, and otherwise the parent, a separator and the name make up the path |
| Paths.JoinPath | simSPI/tem_inputs.py:571-579 | joining keeps the directory as a prefix (a `.` or empty directory vanishes) and ends with the name |
| Paths.ParentOfJoin | simSPI/tem_inputs.py:571-579 | the parent of `Path(dir, name)` is `dir`, so the joined path is the directory, one separator and the name |
| Paths.JoinPathInjective | simSPI/tem_inputs.py:571-579 | one directory joined with two different names gives two different paths |
| Paths.CheckExtension | simSPI/tem_inputs.py:114-120 | a path is accepted exactly when its lower-cased suffix is in the allow-list; otherwise the check fails; the error's payload stands for the path and the list the log message reports, since the exception itself is a bare TypeError |
| Paths.CheckExtensionOfNamedFile | simSPI/tem_inputs.py:350-355 | the file `base + ext` in any directory passes the check exactly when `ext` lower-cased is allowed |
| Paths.NamedFile | simSPI/tem_inputs.py:571-578 | the file `base + ext` placed in any directory has name `base + ext`, suffix `ext` and stem `base` |
| TemInputs.Optional | simSPI/tem_inputs.py:135-147 | an optional key is read exactly when its section and key are present |
| TemInputs.MapFileNames | simSPI/tem_inputs.py:163-168 | the map names exist exactly for a string `particle_mrcout` |
| TemInputs.MapFileNaming | simSPI/tem_inputs.py:164-166 | the names are `key + "_real.mrc"` and `key + "_imag.mrc"` where `key` is the text before the first `.mrc` of the value: a prefix with no `.mrc` starting inside it, followed by `.mrc` unless it is the whole value |
| TemInputs.MapFileNamingOfMrc | simSPI/tem_inputs.py:164-166 | for `base + ".mrc"` with no `.mrc` in `base`, the names are `base_real.mrc` and `base_imag.mrc` |
| TemInputs.BuildSample | simSPI/tem_inputs.py:150-157 | the sample section is built exactly when the three grid keys are present, and holds the hole diameter, centre thickness and edge thickness each in its own field |
| TemInputs.BuildParticle | simSPI/tem_inputs.py:158-168 | the particle section holds the configured name and voxel size and the pdb file, with the map names derived from `particle_mrcout` exactly when it is configured |
| TemInputs.BuildBeam | simSPI/tem_inputs.py:174-187 | the beam section holds the configured voltage, energy spread and dose deviation, and the caller's dose when given, else the configured dose |
| TemInputs.NominalDefocus | simSPI/tem_inputs.py:208-215 | the nominal defocus is `defocus_um` when configured, else `mtf_params[0]` |
| TemInputs.BuildOptics | simSPI/tem_inputs.py:189-222 | the optics section is built when its keys and the MTF are there; magnification, cs, cc, aperture, focal length, aperture angle and both defocus errors come from their own keys, the defocus output from `optics_defocusout` or None, the nominal defocus from the fallback |
| TemInputs.BuildDetector | simSPI/tem_inputs.py:224-243 | the detector section is built exactly when its keys and five MTF items are there; size, pixel size, gain and efficiency come from their own keys, `mtf_b` to `mtf_beta` are `mtf_params[1..4]`, quantization is the caller's noise when given |
| TemInputs.BuildCtf | simSPI/tem_inputs.py:248-255 | the distribution type is copied when configured, and the distribution parameters, unchanged, exactly when the full CTF block is configured |
| TemInputs.BuildOpticsAndDetector | simSPI/tem_inputs.py:189-261 | both sections hold their configured values; `defocus_nominal == mtf_a`; with a full CTF block `gen_defocus` is `no` and the defocus file is read, else `yes` and none |
| TemInputs.PopulateTemInputs | simSPI/tem_inputs.py:111-263 | extension error first; success exactly when every mandatory key is present; seed, overrides, defocus fallback, CTF branch, optional map and defocus files and noise keys as the code decides; every other configured value lands unchanged in the field it is copied to |
| InpFile.InpSections | simSPI/tem_inputs.py:393-398 | the sections are produced exactly when the three sample dimensions format as integers |
| InpFile.WriteInpFile | simSPI/tem_inputs.py:380-473 | the `.inp` check comes first; success exactly when the sample formats; the lines are those of the sections |
| InpFile.FileLinesCount | simSPI/tem_inputs.py:386-473 | a file has one line per section header plus one per entry |
| InpFile.InpLayout | simSPI/tem_inputs.py:386-473 | the section titles are in the fixed order and the keys are the fixed list, with the map, defocus-out and defocus-in lines exactly when their fields are set |
| InpFile.InpLineCount | simSPI/tem_inputs.py:386-473 | the file has 53 lines plus 2 for map files and 1 each for defocus output and input |
| InpFile.EntryLineWritten | simSPI/tem_inputs.py:386-473 | every entry of every section appears as a `key = value` line |
| InpFile.NonsystErrorKey | simSPI/tem_inputs.py:444-446 | both defocus errors are written under `defocus_syst_error`, and no `defocus_nonsyst_error` key is written |
| Pipeline.DoseAndQuantizationLines | simSPI/tem_inputs.py:432-466 | the beam dose and the detector quantization appear as lines of the file |
| Pipeline.DefocusLines | simSPI/tem_inputs.py:443-459 | `gen_defocus` is written, and `defocus_file_in` is written exactly when the inputs name a file |
| Pipeline.SimulationValuesWritten | simSPI/tem_inputs.py:386-392 | the configured seed, when there is one, is the `rand_seed` line, and the log file is a line |
| Pipeline.SampleValuesWritten | simSPI/tem_inputs.py:393-398 | the three grid sizes are written in decimal under `diameter`, `thickness_edge` and `thickness_center` |
| Pipeline.ParticleValuesWritten | simSPI/tem_inputs.py:399-417 | the configured particle name titles the particle section and is the `particle_type`; voxel size, pdb file and the derived map names are lines |
| Pipeline.GeometryValuesWritten | simSPI/tem_inputs.py:418-426 | the configured `n_samples` is the `ntilts` line |
| Pipeline.BeamValuesWritten | simSPI/tem_inputs.py:427-434 | the configured voltage, energy spread and dose deviation are the `acc_voltage`, `energy_spread` and `dose_sd` lines |
| Pipeline.OpticsValuesWritten | simSPI/tem_inputs.py:435-442 | magnification, cs, cc, aperture, focal length and aperture angle are written under their simulator keys |
| Pipeline.DefocusValuesWritten | simSPI/tem_inputs.py:444-455 | the configured nominal defocus, both errors (both under `defocus_syst_error`) and a non-None defocus output are lines |
| Pipeline.DetectorValuesWritten | simSPI/tem_inputs.py:460-473 | the configured detector values and `mtf_params[1..4]` are written under their keys, and `mtf_a` is the nominal defocus |
| Pipeline.OverridesReachFile | simSPI/tem_inputs.py:178-236 | the file's `dose_per_im` and `use_quantization` are the caller's overrides when given, else the configured values |
| Pipeline.CtfBranchReachesFile | simSPI/tem_inputs.py:248-261 | with a full CTF block the file says `gen_defocus = no` and names the defocus file; otherwise `gen_defocus = yes` and there is no `defocus_file_in` line |
| Pipeline.FixedLines | simSPI/tem_inputs.py:386-473 | the nine constant lines say `generate_micrographs = yes`, `source = pdb`, `particle_coords = file`, `gen_tilt_data = yes`, `tilt_axis = 0`, `theta_start = 0`, `theta_incr = 0`, `geom_errors = none` and `gen_dose = yes` |
| Pipeline.RunFileLines | simSPI/tem_inputs.py:413-473 | the coordinate file and the image output are lines of the file |
| Pipeline.RunFilesReachFile | simSPI/tem_inputs.py:172-243 | the caller's `crd_file` is the file's `coord_file_in` and its `mrc_file` the `image_file_out` |
| DefocusFile.WriteDefocusFile | simSPI/tem_inputs.py:350-361 | the `.txt` check comes first; the lines written are the banner, the count line, then one line per sample |
| DefocusFile.DefocusFileShape | simSPI/tem_inputs.py:357-361 | `len(distribution) + 2` lines: the banner, `"<n> 1"`, then each sample in input order |
| DefocusFile.DefocusFileRoundTrip | simSPI/tem_inputs.py:358-361 | reading the file back gives the samples, and its count line agrees with their number |
| Classifier.OrderedParams | simSPI/tem_inputs.py:637-638 | one entry per schema key, the section's value or None |
| Classifier.FlattenDetector | simSPI/tem_inputs.py:641-649 | the detector list is the six scalars then `mtf_params[0..4]`, or the error of the first failing index |
| Classifier.ClassifyInputConfig | simSPI/tem_inputs.py:584-651 | success exactly when every section is present and `mtf_params` has five items; the lists follow the schema; the error is the first missing section or the MTF index error |
| Classifier.ConfigFromYaml | simSPI/tem_inputs.py:683-695 | the `.yaml`/`.yml` check comes first, then the grouping |
| Classifier.ClassifiedShape | simSPI/tem_inputs.py:596-651 | the lists have 3, 4, 4, 10 and 11 entries, and in every list an absent non-MTF key gives None |
| Classifier.ClassifiedUnique | simSPI/tem_inputs.py:596-651 | a configuration has exactly one grouping |
| Classifier.MtfItemsLast | simSPI/tem_inputs.py:646-647 | the detector list ends with the first five MTF items |
| Catalogue.ImageNameOf | simSPI/tem_inputs.py:299-302 | an image name has at least 13 characters and ends in `.mrcs` |
| Catalogue.ImageNameIndex | simSPI/tem_inputs.py:299-302 | for any index and iteration the name starts with the zero-padded index, which reads back as the index, followed by `@` |
| Catalogue.Item | simSPI/tem_inputs.py:310-312 | a tensor item exists exactly when the key is present and the tensor is long enough |
| Catalogue.CatalogueRow | simSPI/tem_inputs.py:306-330 | a row is built exactly when every tensor it reads has an entry at that index |
| Catalogue.StarfileAppendTemSimulatorData | simSPI/tem_inputs.py:299-331 | exactly `batch_size` rows appended after the existing ones and the same list returned, or the rows before the first failing index appended and that row's error |
| Catalogue.RowLayout | simSPI/tem_inputs.py:306-330 | a row has 4 + 2 (shift) + 3 (CTF) + 5 cells: the image name and angles first, the shift and CTF cells next, the five fixed parameters last |
| Catalogue.ImageNameRoundTrip | simSPI/tem_inputs.py:299-302 | for an index below 1000 and an iteration below 10000, the image name is exactly 13 characters whose zero-padded fields read back as the index and the iteration |
| Catalogue.ImageNameIteration | simSPI/tem_inputs.py:300 | the name ends with '@', the zero-padded iteration count and `.mrcs`, and that field reads back as the count, for every count |
| Catalogue.ImageNamesDistinct | simSPI/tem_inputs.py:299-302 | distinct indices of one batch get distinct image names, for any batch size and iteration |
| PathDict.Keyword | simSPI/tem_inputs.py:564-567 | the keyword is the caller's, else `_` and five characters from A-Z0-9 |
| PathDict.OutputDir | simSPI/tem_inputs.py:559-560 | the output directory is the caller's, else the pdb file's parent |
| PathDict.GeneratePathDict | simSPI/tem_inputs.py:557-579 | the pdb and metadata paths pass through; each output is the shared stem plus its extension (`_defocus.txt` for the defocus file) joined to the output directory |
| PathDict.PathSetExtensions | simSPI/tem_inputs.py:569-579 | each output has its extension; the coordinate and defocus files pass the `.txt` check and the input file passes the `.inp` check |
| PathDict.OutputsDistinct | simSPI/tem_inputs.py:571-579 | the seven outputs of any stem in any directory are different paths |
| PathDict.RunPathsDistinct | simSPI/tem_inputs.py:571-579 | a run's outputs in field order are the seven outputs of its stem and directory, and are pairwise different |
| PathDict.PathSetDistinct | simSPI/tem_inputs.py:571-579 | the seven outputs of a run are different files, for every pdb path, keyword and output directory |
| Rotation.RetrieveRotationMetadata | simSPI/tem_inputs.py:500-513 | the `.txt` check comes first; then one row per line after the first four, the line's fields |
| Rotation.RotationRows | simSPI/tem_inputs.py:509-511 | `max(0, n - 4)` rows, row `k` being the fields of line `k + 4` |
| Rotation.HeaderIgnored | simSPI/tem_inputs.py:509-511 | the four header lines never affect the result |
| Rotation.RowPerParticle | simSPI/tem_inputs.py:509-511 | one more line after the header gives one more row |

## Left out

- YAML parsing (`yaml.safe_load`) is a foreign library. The model starts from the parsed configuration, a map from section names to maps. An empty YAML file (`None`), a null or non-mapping section, and a dictionary-valued `mtf_params` are not modelled.
- File opening, writing and reading, and logging (`log.error`, `log.warning`) are left out. Writers return the lines they would write, and readers take the file's lines as a parameter.
- TemInputs.PopulateTemInputs: takes the random seed as a parameter (`SeedDraw`, 0 to 10¹⁰ inclusive). Reseeding the global generator is not modelled.
- PathDict.GeneratePathDict: takes the random keyword characters as a parameter (`KeywordDraw`).
- Floating-point values are opaque (`Value.Number` keeps the text `str()` prints). The `1e4 *` scaling and `np.radians` in the catalogue are the symbolic cells `Scaled` and `Radians`. Tensor `.item()` is taken as the stored value.
- Rotation.RetrieveRotationMetadata: fields stay text, because `float()` parsing (and its ValueError) is not modelled.
- Values.Repr: string escaping is not modelled.
- Strings.Lower: covers ASCII letters only; Python's Unicode case mapping is not modelled.
- Paths.Name: covers paths in normal form with `/` separators. Further `pathlib` normalisation (repeated or trailing separators, `.` components, Windows paths) is not modelled, and `str(Path(p))` is taken to be `p`.
- InpFile.WriteInpFile: when `'{:d}'` fails, only the error is returned. The simulation section already written to the file before the error is not modelled.
- Catalogue.StarfileAppendTemSimulatorData: a shift or CTF dictionary that tests false is the empty map. `None` for those arguments is the same case.
- tests/test_projector.py is not part of this model. It checks a floating-point projector against a normalised error.
