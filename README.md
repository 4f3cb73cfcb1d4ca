# morphapi, modelled in Dafny

morphapi downloads neuronal morphologies and turns them into 3D meshes. This project models:

- Its four database clients:
  - neuromorpho.org (`NeuroMorpOrgAPI`);
  - the Allen Cell Types database (`AllenMorphology`);
  - the MPIN zebrafish atlas (`MpinMorphologyAPI`);
  - Janelia's MouseLight (`MouseLightAPI`).
- The `Neuron` class, which reads an SWC file and repairs it first. It builds one tube mesh per drawn neurite section, a sphere for the soma, one merged mesh per neurite type and a whole-neuron mesh.
- The `NeuronCache` class, which keeps those meshes and their generation parameters on disk.
- The small helpers of `utils/data_io.py`.

HTTP servers, the file system, NeuroM's reader, the Allen and BrainGlobe atlases and vedo's geometry become parameters, maps or symbolic values.

Modules:

- `Wrappers`: Python's exceptions as `PyError`; `Result` and `Option`.
- `PyStr`: Python string operations (`split`, `join`, `str`, `endswith`, `os.path.join`, `basename`).
- `Values`: JSON-like values, `dict.get`, the "wrap a non-list in a list" idiom, and the `Neuron(...)` arguments an API returns.
- `DataIo`: `morphapi/utils/data_io.py`.
- `Geometry`: the vedo meshes the code builds, kept symbolic.
- `Swc`: `Neuron.repair_swc_file`.
- `Neurites`: the section walk of `Neuron.create_mesh`.
- `Cache`: `morphapi/morphology/cache.py`, with the class `NeuronCache` over a two-map file store.
- `Morphology`: `morphapi/morphology/morphology.py`, with the class `Neuron`.
- `NeuroMorpho`: `morphapi/api/neuromorphorg.py`, with the class `NeuroMorphoApi`.
- `Allen`: `morphapi/api/allenmorphology.py`, with the class `AllenMorphology`.
- `Mpin`: `morphapi/api/mpin_celldb.py`, with the class `MpinMorphologyApi`. The in-place SWC table fix works on an `array2<real>`.
- `MouseLight`: `morphapi/api/mouselight.py`, with the class `MouseLightApi`.

Loops in the source are `method`s with `while` loops. Each method is proved equal to a specification function, and the properties are proved about that function. Objects whose fields change (caches, lazily filled tables, files on disk) are classes with `modifies` clauses.

## Model

| member | source | states |
|---|---|---|
| DataIo.SplitExt | morphapi/utils/data_io.py:22 | the stem and the extension concatenate back to the name; the extension is empty or one dot followed by no dot; a name of dots only has no extension |
| DataIo.GetFileName | morphapi/utils/data_io.py:20-22 | the result holds no '/' and is a prefix of the path's base name |
| DataIo.GetFileNameOfJoin | morphapi/utils/data_io.py:20-22 | `get_file_name(os.path.join(dir, stem + "." + ext))` is `stem` |
| DataIo.SaveYaml | morphapi/utils/data_io.py:28-50 | succeeds exactly when the path ends with ".yaml" or ".yml" (ValueError otherwise), and then stores the content under that path |
| DataIo.LoadYaml | morphapi/utils/data_io.py:52-63 | succeeds exactly when the path is given, exists and contains "yml" or "yaml" (ValueError otherwise), and then returns the stored content |
| DataIo.SaveAcceptedIsLoadAccepted | morphapi/utils/data_io.py:36-39 | every path `save_yaml` accepts passes the name test of `load_yaml` |
| DataIo.LoadTestLooserThanSaveTest | morphapi/utils/data_io.py:59-62 | "params.yml.bak" passes the load test and fails the save test |
| DataIo.SaveLoadRoundTrip | morphapi/utils/data_io.py:28-63 | saving to a yaml path and then loading that path gives the content back |
| DataIo.FlattenList | morphapi/utils/data_io.py:86-99 | the loop's result equals the item-by-item flattening |
| DataIo.FlattenAppend | morphapi/utils/data_io.py:94-98 | flattening splits over concatenation, so order is kept |
| DataIo.FlattenOfAtoms | morphapi/utils/data_io.py:94-98 | a list without list items is its own flattening |
| DataIo.FlattenOneLevel | morphapi/utils/data_io.py:95-96 | every element of a list item appears in the result, even when it is itself a list |
| DataIo.FlattenSource | morphapi/utils/data_io.py:94-98 | every element of the result is a non-list item of the input or an element of a list item |
| DataIo.InBoth | morphapi/utils/data_io.py:111 | the result holds exactly the elements of the first list that are in the second |
| DataIo.IsAnyItemInList | morphapi/utils/data_io.py:102-115 | true exactly when some element of the first list is in the second |
| DataIo.EmptyListsShareNothing | morphapi/utils/data_io.py:102-115 | an empty list on either side gives false |
| Geometry.SwapAll | morphapi/morphology/morphology.py:260-262 | each point's x and z are exchanged and the length is kept |
| Geometry.SwapAllTwice | morphapi/morphology/morphology.py:243-244 | the axis permutation undoes itself |
| Geometry.MergeAppend | morphapi/morphology/morphology.py:274-276 | merging one more mesh appends that mesh's primitives |
| Geometry.MergeFirstShape | morphapi/morphology/morphology.py:281-284 | a merge starts with the first mesh's first primitive |
| Geometry.SwapMerge | morphapi/morphology/morphology.py:243-284 | permuting the axes of a merged mesh is merging the permuted meshes |
| Geometry.PointCountPositive | morphapi/morphology/cache.py:77-79 | a mesh with a primitive that has vertices has vertices |
| Geometry.PointCountZero | morphapi/morphology/cache.py:77-79 | a mesh has no vertices exactly when none of its primitives has any |
| Swc.Normalised | morphapi/morphology/morphology.py:90 | the normalised line holds no newline and no tab |
| Swc.RepairAll | morphapi/morphology/morphology.py:84-103 | one repaired line per input line, in order |
| Swc.RepairLines | morphapi/morphology/morphology.py:84-100 | the loop's `clean` list equals the per-line repair of the content |
| Swc.WriteLines | morphapi/morphology/morphology.py:105-107 | the text written is each line followed by a newline |
| Swc.RepairSwcFile | morphapi/morphology/morphology.py:77-107 | the file's new text is the repaired text; the length check never fires |
| Swc.RepairFields | morphapi/morphology/morphology.py:91-98 | the repaired line has as many fields as the normalised line; all are equal except that a last field "-1" becomes "0" exactly when there are two or more fields and the second is not "1" |
| Swc.RepairedClean | morphapi/morphology/morphology.py:90-100 | a repaired line holds no newline and no tab |
| Swc.RepairLineIdempotent | morphapi/morphology/morphology.py:85-100 | repairing a repaired line, read back with its newline, changes nothing |
| Swc.ReadWritten | morphapi/morphology/morphology.py:81-82 | `readlines` on the written text gives back each line with its newline |
| Swc.RepairTextIdempotent | morphapi/morphology/morphology.py:77-107 | a second repair of a repaired file leaves it unchanged, and the length check cannot fail |
| Neurites.Preorder | morphapi/morphology/morphology.py:257 | `iter_sections` visits the section first |
| Neurites.SectionDrawsRule | morphapi/morphology/morphology.py:258-271 | a section contributes exactly its leaf children and its non-leaf children's children |
| Neurites.DrawnRule | morphapi/morphology/morphology.py:256-271 | a section is drawn exactly when some visited section contributes it by that rule |
| Neurites.RootNeverDrawn | morphapi/morphology/morphology.py:257-271 | a neurite's root section is never drawn as a tube |
| Neurites.ChainDrawsTipTwice | morphapi/morphology/morphology.py:257-271 | on a three-section chain the middle section is never drawn and the tip is drawn twice |
| Neurites.Tubes | morphapi/morphology/morphology.py:263 | one tube per drawn section, in order, with the neurite radius and orientation |
| Neurites.TubesAppend | morphapi/morphology/morphology.py:263-271 | tubes of concatenated section lists are the concatenated tubes |
| Neurites.GrandchildTubes | morphapi/morphology/morphology.py:265-271 | the loop appends one tube per child of the non-leaf child |
| Neurites.SectionTubes | morphapi/morphology/morphology.py:258-271 | the loop appends the tubes of the sections that section contributes |
| Neurites.NeuriteTubes | morphapi/morphology/morphology.py:257-271 | the loop appends the tubes of every section drawn for the neurite |
| Neurites.NeuriteTypeTubes | morphapi/morphology/morphology.py:254-271 | the loops append the tubes of every neurite of the type, neurite by neurite |
| Cache.CacheFilenames | morphapi/morphology/cache.py:28-35 | five paths `meshes_cache/name/name + part + ".obj"`, in the order of the parts |
| Cache.ParamsFilename | morphapi/morphology/cache.py:37-42 | the path ends with `name + "_params.yml"` |
| Cache.ParamsFilenameIsYaml | morphapi/morphology/cache.py:37-42 | the parameter file's name passes both the save and the load test |
| Cache.ComponentIndexOf | morphapi/morphology/cache.py:65-71 | each component name's position is its own |
| Cache.CacheFilenamesDistinct | morphapi/morphology/cache.py:28-35 | a neuron's five cache files are five different paths |
| Cache.OwnSuffixOnly | morphapi/morphology/cache.py:99-122 | a cache file ends with its own component's suffix and with no other, whatever the neuron's name |
| Cache.ComponentFile | morphapi/morphology/cache.py:122-124 | the first file name ending with a component's suffix is that component's own file |
| Cache.ParamsChanged | morphapi/morphology/cache.py:57-61 | with different sizes, "changed" means the stored parameters are non-empty; with equal sizes, a requested key missing from the stored ones is an error, and otherwise "changed" means some value differs |
| Cache.SameKeysUnchangedIffEqual | morphapi/morphology/cache.py:57-62 | with the same keys, the parameters count as unchanged exactly when they are equal |
| Cache.EmptyStoredParamsNeverChange | morphapi/morphology/cache.py:57-58 | empty stored parameters never invalidate the cache |
| Cache.Normalise | morphapi/morphology/cache.py:77-79 | a mesh without points becomes None; any other mesh is kept |
| Cache.LoadCached | morphapi/morphology/cache.py:51-81 | a missing mesh file gives None; a hit returns the five files' meshes in component order, each normalised |
| Cache.LoadCachedHit | morphapi/morphology/cache.py:51-81 | all files present and equal parameters give a hit with the stored meshes |
| Cache.ChangedParamsMiss | morphapi/morphology/cache.py:57-62 | one differing parameter value under the same keys gives None |
| Cache.ComponentMesh | morphapi/morphology/cache.py:104-119 | a mesh is kept; None or an empty list becomes an empty mesh; a one-element list becomes its element |
| Cache.WriteEntry | morphapi/morphology/cache.py:97-128 | a key writes the first file ending with its suffix; a non-whole key with no such file is a ValueError |
| Cache.WriteNeuron | morphapi/morphology/cache.py:83-128 | the parameters are always saved first; a bare mesh goes to the soma file; an argument that is neither mesh nor dict is a ValueError that leaves the mesh files as they were |
| Cache.WriteNeuronDict | morphapi/morphology/cache.py:85-128 | a dict argument saves the parameters and writes the entries in order |
| Cache.WriteEntriesCoverAll | morphapi/morphology/cache.py:97-128 | writing all five components leaves every cache file present |
| Cache.WriteThenLoad | morphapi/morphology/cache.py:83-128 | after writing all five components, loading with the same parameters returns what was written, each component normalised, in component order |
| Cache.NeuronCache.constructor | morphapi/morphology/cache.py:22-26 | the cache folder and the disk are as given |
| Cache.NeuronCache.CheckNeuronMeshCached | morphapi/morphology/cache.py:44-49 | true exactly when all five cache files exist |
| Cache.NeuronCache.LoadComponents | morphapi/morphology/cache.py:72-79 | the loaded dict, with zero-point meshes nulled by the loop, equals the normalised files |
| Cache.NeuronCache.LoadCachedNeuron | morphapi/morphology/cache.py:51-81 | the result equals `LoadCached` on the current disk |
| Cache.NeuronCache.WriteNeuronToCache | morphapi/morphology/cache.py:83-128 | the new disk and the raised error are those of `WriteNeuron` on the old disk |
| Cache.NeuronCache.WriteDictEntries | morphapi/morphology/cache.py:97-128 | the loop's files and error are those of writing the entries in order; the yaml files are untouched |
| Morphology.OfType | morphapi/morphology/morphology.py:134-146 | only neurites of the requested type are kept, and no more of them than there are neurites |
| Morphology.OfTypeMembers | morphapi/morphology/morphology.py:134-146 | a neurite is kept exactly when it has the requested type |
| Morphology.OfTypeAppend | morphapi/morphology/morphology.py:134-146 | the kept neurites are in their original order: the filter distributes over concatenation |
| Morphology.ParseMeshKwargs | morphapi/morphology/morphology.py:148-194 | `neuron_color` colours every component; otherwise `cmap` colours all four alike; otherwise each component has its own colour, and basal follows apical when it is not passed; the whole neuron defaults to the soma colour |
| Morphology.DefaultColors | morphapi/morphology/morphology.py:158-164 | with no arguments, all four components are "salmon" and so is the whole neuron |
| Morphology.BasalFollowsApicalOnlyWhenAbsent | morphapi/morphology/morphology.py:159-162 | basal takes the apical colour only when basal is not passed; an explicit None stays None |
| Morphology.NeuronColorBeatsCmap | morphapi/morphology/morphology.py:167-180 | `neuron_color` wins over `cmap` |
| Morphology.CacheParams | morphapi/morphology/morphology.py:227 | the cache parameters have exactly the keys `neurite_radius` and `soma_radius` |
| Morphology.TypeMesh | morphapi/morphology/morphology.py:273-278 | a neurite type has no mesh exactly when no section of it is drawn |
| Morphology.Present | morphapi/morphology/morphology.py:281-283 | the meshes that are not None, in order |
| Morphology.ToWrite | morphapi/morphology/morphology.py:287-288 | the dict handed to the cache has the five component keys, in the order the code builds it |
| Morphology.ToWriteFull | morphapi/morphology/morphology.py:287-289 | that dict has each component exactly once, with a mesh for the whole neuron |
| Morphology.PaintLoaded | morphapi/morphology/morphology.py:236-238 | a cache hit can be painted exactly when its soma and whole neuron are not None |
| Morphology.FileType | morphapi/morphology/morphology.py:53 | the file type holds no dot |
| Morphology.FileTypeIsSuffix | morphapi/morphology/morphology.py:52-53 | a non-empty file type is the name's suffix after a dot |
| Morphology.NameSuffixIsSuffix | morphapi/morphology/morphology.py:52-53 | the suffix taken from a file name is what the name ends with after a dot |
| Morphology.LoadPoints | morphapi/morphology/morphology.py:66-75 | a missing file is a ValueError; success repairs the SWC file in place and reads a non-json file |
| Morphology.LoadTwice | morphapi/morphology/morphology.py:77-146 | loading a file a second time gives the same points and leaves the file as the first load left it |
| Morphology.NewNeuron | morphapi/morphology/morphology.py:39-75 | a suffix other than swc or json is a ValueError; the name defaults to the file name; without `load_file` there are no points and no file is touched; with it, the file is loaded |
| Morphology.Neuron.constructor | morphapi/morphology/morphology.py:39-64 | the fields are as given |
| Morphology.Neuron.CreateMesh | morphapi/morphology/morphology.py:196-300 | the result and the new cache state are those of the create-mesh specification; a warning exactly when no points are loaded |
| Morphology.Neuron.LoadOrBuild | morphapi/morphology/morphology.py:215-289 | radius checks, cache lookup and, on a miss, generation and cache write: the result and new store are those of the colour-free create-mesh specification |
| Morphology.Neuron.BuildMeshes | morphapi/morphology/morphology.py:240-284 | the meshes built equal the generation function's: soma sphere, one merged mesh per type, whole neuron |
| Morphology.Neuron.TypeActors | morphapi/morphology/morphology.py:254-278 | the loop's mesh for one neurite type equals `TypeMesh` |
| Morphology.TypeMeshHasPoints | morphapi/morphology/morphology.py:273-278 | when drawn sections have points, a type's mesh is None or has points |
| Morphology.SomaAndWholeHavePoints | morphapi/morphology/morphology.py:246-284 | the soma sphere and the whole neuron have points, and the whole neuron starts with the sphere |
| Morphology.WriteThenLoadGenerated | morphapi/morphology/morphology.py:286-289 | writing generated meshes to the cache and loading them returns the same meshes |
| Morphology.CreateThenReload | morphapi/morphology/morphology.py:229-289 | a call without the cache writes it, and an identical call with the cache returns the same meshes and leaves the disk unchanged |
| Morphology.RadiusChangeRegenerates | morphapi/morphology/morphology.py:227-239 | after a call with one neurite radius, a call with another radius regenerates even with the cache on |
| Morphology.ColorsOnlyPaint | morphapi/morphology/morphology.py:205-213 | colour arguments change only colours: not the disk, not failure, not the meshes |
| Morphology.RejectedCallsWriteNothing | morphapi/morphology/morphology.py:199-225 | no points or an invalid radius returns early and writes nothing |
| Morphology.InvertSwapsEverything | morphapi/morphology/morphology.py:243-268 | `invert_dims` gives the x/z-swapped version of every mesh |
| NeuroMorpho.HealthReplacesLastSegment | morphapi/api/neuromorphorg.py:31 | the health URL replaces the base URL's last path segment by "health" |
| NeuroMorpho.PagesFrom | morphapi/api/neuromorphorg.py:66-78 | from page k with n reported pages, the loop collects the values of pages k to n-1 and makes n-k requests |
| NeuroMorpho.AllPagesInOrder | morphapi/api/neuromorphorg.py:66-78 | with n reported pages, pages 0 to n-1 are requested and their values concatenated in order |
| NeuroMorpho.NoTotalMeansOnePage | morphapi/api/neuromorphorg.py:76 | without `totalPages` only the first page is read |
| NeuroMorpho.Items | morphapi/api/neuromorphorg.py:119 | one `crit:val` item per criterion, in order |
| NeuroMorpho.CriteriaJoined | morphapi/api/neuromorphorg.py:111-121 | with scalar values the URL holds the items joined by "&fq="; a list value raises NotImplementedError |
| NeuroMorpho.Diagnose | morphapi/api/neuromorphorg.py:130-147 | with known fields, or with no criterion, a rejected query ends in a ValueError; a failed `/fields` request is raised as it is when there is a criterion to check |
| NeuroMorpho.BuildFilepath | morphapi/api/neuromorphorg.py:173-177 | the path ends with `id + ".swc"` |
| NeuroMorpho.FileKey | morphapi/api/neuromorphorg.py:217-222 | fails exactly without "neuron_id"; otherwise the name when names are used and present, else the id |
| NeuroMorpho.FileUrl | morphapi/api/neuromorphorg.py:226-230 | the URL exists exactly when the entry has a string archive and a name, and is built from them |
| NeuroMorpho.FetchFile | morphapi/api/neuromorphorg.py:225-249 | the neuron loads exactly when loading is asked and the body was fetched and decoded; an undecodable body leaves an empty file, a ValueError from the request leaves none, any other exception propagates; only that file may change |
| NeuroMorpho.EntryStep | morphapi/api/neuromorphorg.py:207-261 | a non-dict is a ValueError; a "status" entry is skipped; the neuron loads exactly when loading is asked and its file was already there or was fetched and decoded; existing files are never changed; a new file is the neuron's own |
| NeuroMorpho.UndecodableLeavesEmptyFile | morphapi/api/neuromorphorg.py:225-249 | a body that is not UTF-8 leaves an empty file and an unloaded neuron, and the next download of the entry loads that file without fetching |
| NeuroMorpho.RaisedEndsDownload | morphapi/api/neuromorphorg.py:207-249 | an exception other than ValueError while fetching ends the whole download with that exception |
| NeuroMorpho.DownloadStops | morphapi/api/neuromorphorg.py:207-209 | once an entry fails, later entries change nothing |
| NeuroMorpho.Kept | morphapi/api/neuromorphorg.py:207-215 | kept entries are dicts without "status" |
| NeuroMorpho.DownloadOnePerEntry | morphapi/api/neuromorphorg.py:203-263 | a completed download makes one neuron per kept entry, named prefix + id and stored at the entry's path; existing files are kept |
| NeuroMorpho.CompletedSawOnlyDicts | morphapi/api/neuromorphorg.py:207-209 | a completed download saw only dicts |
| NeuroMorpho.NeuroMorphoApi.constructor | morphapi/api/neuromorphorg.py:20-48 | the fields start as given, with no cached fields |
| NeuroMorpho.NeuroMorphoApi.Fields | morphapi/api/neuromorphorg.py:50-60 | the cached fields if any, otherwise the `/fields` request's outcome, which may be an exception; a success is cached and a failure leaves the cache empty |
| NeuroMorpho.NeuroMorphoApi.GetFieldsValues | morphapi/api/neuromorphorg.py:62-78 | the values and the page URLs requested are those of the paging specification |
| NeuroMorpho.NeuroMorphoApi.BuildQuery | morphapi/api/neuromorphorg.py:111-121 | the query URL for scalar criteria; NotImplementedError for a list value |
| NeuroMorpho.NeuroMorphoApi.GetNeuronsMetadata | morphapi/api/neuromorphorg.py:80-159 | a size outside 0..500 or a negative page is a ValueError before any request; a list criterion raises NotImplementedError; a rejected query, or one whose request raises ValueError, is diagnosed; any other exception from the request propagates; an accepted one returns the neurons and the page |
| NeuroMorpho.NeuroMorphoApi.Diagnosis | morphapi/api/neuromorphorg.py:130-147 | the error equals `Diagnose` with the cached or fetched fields |
| NeuroMorpho.NeuroMorphoApi.DownloadOne | morphapi/api/neuromorphorg.py:207-261 | the step and the new files equal `EntryStep` |
| NeuroMorpho.NeuroMorphoApi.DownloadNeurons | morphapi/api/neuromorphorg.py:179-263 | the neurons, files and error equal the download specification over the wrapped list, with prefix "neuromorpho_" by default |
| NeuroMorpho.Connect | morphapi/api/neuromorphorg.py:20-48 | no connection is a ConnectionError; the default server when it is healthy, else the fallback server, else a ConnectionError |
| Allen.FirstReconstruction | morphapi/api/allenmorphology.py:217-222 | the first file that is neither a .png nor a marker file |
| Allen.ReconstructionLink | morphapi/api/allenmorphology.py:216-228 | a link exactly when such a file exists with a non-empty link; ValueError otherwise |
| Allen.FindReconstructionLink | morphapi/api/allenmorphology.py:216-228 | the loop with `break` returns `ReconstructionLink` |
| Allen.BuildFilepath | morphapi/api/allenmorphology.py:153-159 | the path ends with `str(id) + ".swc"` |
| Allen.FilesAfterFrame | morphapi/api/allenmorphology.py:173-203 | existing files stay present; every new file is a successful download's path; files no download writes are unchanged |
| Allen.DistinctIdsDistinctNames | morphapi/api/allenmorphology.py:197 | distinct integer ids give distinct neuron names |
| Allen.CheckCellMetadata | morphapi/api/allenmorphology.py:124-141 | a failed request or a matching row count keeps the cached table; another count re-fetches it |
| Allen.RefreshedTableIsKept | morphapi/api/allenmorphology.py:135-141 | a table just fetched with the reported count is kept next time |
| Allen.DownloadedNeurons | morphapi/api/allenmorphology.py:143-151 | at most one path per listed name |
| Allen.DownloadedNeuronsMembers | morphapi/api/allenmorphology.py:147-151 | a path is returned exactly when it joins the cache folder to a listed name containing ".swc" |
| Allen.DownloadedNeuronsHas | morphapi/api/allenmorphology.py:147-151 | every listed name containing ".swc" is returned, joined to the cache folder |
| Allen.DownloadedNeuronsFrom | morphapi/api/allenmorphology.py:147-151 | every returned path joins the cache folder to a listed name containing ".swc" |
| Allen.AllenMorphology.constructor | morphapi/api/allenmorphology.py:51-64 | the cache folder, the files and the metadata are as given; `downloaded_neurons` is the cache folder's .swc listing |
| Allen.Open | morphapi/api/allenmorphology.py:40-64 | a client exactly when there is a connection and the metadata holds at least one neuron; ConnectionError without a connection, ValueError for empty metadata |
| Allen.AllenMorphology.GetReconstruction | morphapi/api/allenmorphology.py:205-233 | on success the content is written to the file; on error the files are unchanged |
| Allen.AllenMorphology.DownloadOne | morphapi/api/allenmorphology.py:174-201 | the neuron is named `str(id)` and is loaded only when the download succeeded |
| Allen.AllenMorphology.DownloadNeurons | morphapi/api/allenmorphology.py:161-203 | one neuron per (wrapped) id, in order; the files are those after the downloads |
| Mpin.LeadingComments | morphapi/api/mpin_celldb.py:19-23 | the number of leading comment lines; the next line, if any, is not a comment |
| Mpin.SomaLine | morphapi/api/mpin_celldb.py:16-23 | the first non-comment line, when it exists and is non-empty; IndexError otherwise |
| Mpin.Middle | morphapi/api/mpin_celldb.py:25 | `[2:-2]`: empty for four fields or fewer, otherwise the fields without the first two and last two |
| Mpin.SomaCoordsFromFile | morphapi/api/mpin_celldb.py:16-25 | the loop's coordinates equal `SomaCoords` of the file's lines |
| Mpin.CommentsSkipped | morphapi/api/mpin_celldb.py:21-23 | leading comments do not change the coordinates read |
| Mpin.SomaRowGivesPosition | morphapi/api/mpin_celldb.py:16-25 | a 7-field SWC row after the comments gives its x, y, z fields |
| Mpin.OutputPath | morphapi/api/mpin_celldb.py:32-33 | the fixed file defaults to the input file |
| Mpin.FixMpinSwcFile | morphapi/api/mpin_celldb.py:28-56 | an empty table is a ValueError and a table of fewer than 2 columns an IndexError, both leaving it unchanged; otherwise row 0 gets type 1, the other rows type 2, the coordinate columns `2:-2` of every row hold the converted point, row 0's radius becomes 7, and the remaining columns are kept |
| Mpin.ConvertPoints | morphapi/api/mpin_celldb.py:52-54 | every row's columns `2:-2` are replaced by the conversion of that row's point; all other columns are kept |
| Mpin.FixedSwcRow | morphapi/api/mpin_celldb.py:48-55 | on a 7-column SWC row, the fix sets the type and the soma radius, converts x, y and z and keeps id and parent; a second fix leaves type and radius as they are but converts the point again |
| Mpin.ThreeColumnsSomaType | morphapi/api/mpin_celldb.py:48-55 | in the model, a 3-column soma row becomes `[row[0], 7, row[2]]`: the radius write lands on the type column and comes last, and the model's point conversion has no coordinate columns to change (whether `map_points_to` accepts an empty point is outside the model) |
| Mpin.PutShape | morphapi/api/mpin_celldb.py:89-95 | the dict grows by at most one entry; every entry is the new one or an old one |
| Mpin.Lookup | morphapi/api/mpin_celldb.py:120 | a found row is the key's row; None only when the key is absent |
| Mpin.LookupPut | morphapi/api/mpin_celldb.py:89-95 | after a put, the key finds the new row and other keys are unaffected |
| Mpin.RowOf | morphapi/api/mpin_celldb.py:81-95 | the row is keyed by the file's stem and records its name |
| Mpin.TableRowsFromFiles | morphapi/api/mpin_celldb.py:80-95 | every row of the table comes from a .swc file of the folder |
| Mpin.OutsideAtlasIsRegionZero | morphapi/api/mpin_celldb.py:84-87 | coordinates outside the atlas give region 0 |
| Mpin.InRegions | morphapi/api/mpin_celldb.py:104-106 | at most one name per row |
| Mpin.InRegionsMembers | morphapi/api/mpin_celldb.py:104-106 | a name is returned exactly when its row's region is among the ids |
| Mpin.NeuronOf | morphapi/api/mpin_celldb.py:116-128 | an id without a row is a KeyError, and only then does the lookup fail |
| Mpin.NeuronOfNamed | morphapi/api/mpin_celldb.py:116-128 | a neuron found in the table is named "mpin_" + id, is loaded, and its file is the row's file |
| Mpin.NeuronsFailOnMissingId | morphapi/api/mpin_celldb.py:116-128 | loading succeeds exactly when every id has a row |
| Mpin.NeuronsPerId | morphapi/api/mpin_celldb.py:115-130 | a successful load gives one neuron per id, in order |
| Mpin.MpinMorphologyApi.constructor | morphapi/api/mpin_celldb.py:62-70 | the table starts unset |
| Mpin.MpinMorphologyApi.NeuronsDf | morphapi/api/mpin_celldb.py:72-99 | the table is built once from the folder and then served from the cache |
| Mpin.MpinMorphologyApi.GetNeuronsByStructure | morphapi/api/mpin_celldb.py:97-106 | the names of the table's rows in the regions' ids; an empty table, built from an empty dict, has no `region` column and raises AttributeError |
| Mpin.EmptyTableIffNoSwc | morphapi/api/mpin_celldb.py:79-97 | the table is empty exactly when the folder holds no ".swc" file |
| Mpin.MpinMorphologyApi.LoadNeurons | morphapi/api/mpin_celldb.py:108-130 | a scalar id is wrapped; an empty list never builds the table; otherwise the result is one neuron per id from the table |
| Mpin.Open | morphapi/api/mpin_celldb.py:62-70 | a ValueError (the one `download_dataset` raises) exactly when the data folder is missing and there is no connection |
| MouseLight.Clean | morphapi/api/mouselight.py:390-447 | IndexError exactly without tracings; the brain-area fields are None exactly without a brain area; the axon and soma come from the first tracing; a dendrite exactly when there are two or more tracings |
| MouseLight.CleanNeurons | morphapi/api/mouselight.py:389-448 | the loop's result equals the cleaning specification |
| MouseLight.CleanOnePerNeuron | morphapi/api/mouselight.py:389-448 | cleaning succeeds exactly when every neuron has a tracing, and then gives one cleaned neuron per neuron, in order |
| MouseLight.RegionIds | morphapi/api/mouselight.py:456-458 | one id per region acronym, in order; an unknown acronym is a KeyError |
| MouseLight.KeepsSoma | morphapi/api/mouselight.py:463-473 | no brain area is never kept; an unknown area is a KeyError; otherwise kept exactly when some region id is among the area's ancestors |
| MouseLight.Kept | morphapi/api/mouselight.py:461-475 | the kept neurons are among the input neurons |
| MouseLight.FilterBySoma | morphapi/api/mouselight.py:461-475 | the loop's result equals the filter specification |
| MouseLight.FilterIsKept | morphapi/api/mouselight.py:461-475 | the filter succeeds exactly when every neuron's test does, and then keeps exactly the neurons that pass |
| MouseLight.KeptMembers | morphapi/api/mouselight.py:463-473 | a neuron is kept exactly when it is an input neuron that passes the soma test |
| MouseLight.KeptAppend | morphapi/api/mouselight.py:463-473 | filtering splits over concatenation, so order is kept |
| MouseLight.NoRegionNeverKept | morphapi/api/mouselight.py:464-465 | a neuron without a brain area is never kept |
| MouseLight.MakeQuery | morphapi/api/mouselight.py:301-310 | a query exactly when there is no filter or the filter is "soma"; NotImplementedError otherwise |
| MouseLight.FetchNeuronsMetadata | morphapi/api/mouselight.py:365-480 | the method's result equals the metadata specification |
| MouseLight.OtherFiltersNotImplemented | morphapi/api/mouselight.py:301-310 | any filter other than "soma" raises NotImplementedError, so the else branch at the end is unreachable |
| MouseLight.NoFilterKeepsAll | morphapi/api/mouselight.py:479-480 | without a filter, every cleaned neuron is returned |
| MouseLight.SomaFilterNeedsRegions | morphapi/api/mouselight.py:451-453 | the soma filter without regions is a ValueError |
| MouseLight.SomaFilterKeeps | morphapi/api/mouselight.py:451-475 | the soma filter with regions returns exactly the cleaned neurons that pass the soma test |
| MouseLight.ProjectNode | morphapi/api/mouselight.py:41-50 | a node keeps its six fields; a missing key is a KeyError for a key that is absent |
| MouseLight.ProjectNodes | morphapi/api/mouselight.py:41-50 | one record per node, in order, exactly when every node has the six keys; KeyError otherwise |
| MouseLight.Branch | morphapi/api/mouselight.py:38-68 | no tracing gives no nodes; an empty tracing list is an IndexError; otherwise the first tracing's nodes |
| MouseLight.MakeJson | morphapi/api/mouselight.py:28-88 | exactly one entry, with the neuron's id, soma position, axon and dendrite nodes; the axon's failure comes first |
| MouseLight.MakeJsonNodes | morphapi/api/mouselight.py:38-68 | without tracings the node lists are empty; with them, one record per node of the first tracing |
| MouseLight.MetadataList | morphapi/api/mouselight.py:118 | a single record is wrapped in a list |
| MouseLight.JsonPathEnds | morphapi/api/mouselight.py:128 | the path ends with `idString + ".json"` |
| MouseLight.FetchPart | morphapi/api/mouselight.py:133-137 | an absent part is never fetched |
| MouseLight.PathsOfAt | morphapi/api/mouselight.py:125-129 | the returned list holds one path per neuron, the i-th being the i-th neuron's `.json` path |
| MouseLight.SaveOneKeeps | morphapi/api/mouselight.py:128-140 | an existing file is kept as it is; otherwise exactly that file is added and the others are unchanged |
| MouseLight.SavedKeepsAndWrites | morphapi/api/mouselight.py:125-141 | existing files are never rewritten; a completed run leaves a file for every neuron |
| MouseLight.OnlyPresentPartsFetched | morphapi/api/mouselight.py:133-137 | the endpoint is asked only about the present axon and dendrite |
| MouseLight.MouseLightApi.constructor | morphapi/api/mouselight.py:18-26 | the folder and the files are as given |
| MouseLight.MouseLightApi.DownloadNeurons | morphapi/api/mouselight.py:91-141 | None for no metadata; otherwise the files are those of the download specification, an error is propagated, and success returns every neuron's path, in order |
| MouseLight.MakeColumns | morphapi/api/mouselight.py:206-209 | the nested loops give `Columns` of the rows |
| MouseLight.AddRowAppends | morphapi/api/mouselight.py:207-209 | a row whose keys are all columns appends its value to each of its keys |
| MouseLight.AddRowsTranspose | morphapi/api/mouselight.py:207-209 | rows with those keys append, column by column, the rows' values in order |
| MouseLight.ColumnsTranspose | morphapi/api/mouselight.py:206-209 | when every row has the first row's keys, each column holds the rows' values for that key, in order |

## Left out

- Swc and Mpin: file text is read as text mode returns it; the universal-newline translation of "\r\n" and "\r" into "\n" is not modelled, so contents are assumed to use "\n" already.
- I/O is modelled as maps from paths to contents: the network (HTTP, GraphQL, the health checks), `os.listdir` and `connected_to_internet` become function parameters or booleans. The yaml, JSON and CSV serialisers are left out, and contents are typed values.
- Logging, `print` and `tqdm` progress bars have no effect on the model and are left out.
- Exception messages are not modelled: only the exception kind (`ValueError`, `KeyError`, ...) and, for `NotImplementedError`, its text.
- NeuroM's SWC reader is a parameter that maps the repaired text to a morphology. vedo's geometry is symbolic: primitives, merges and point counts are not computed. `computeNormals`, `clean` and `clone` are identities.
- Colour maps are symbolic: a colour is the colour map's name with the neuron number and the limits. An explicit `cmap_lims=None` is not modelled. Leftover keyword arguments passed to `Neuron` are dropped.
- Morphology.Neuron.CreateMesh: a `bool` radius counts as a number in Python but is rejected here. The radius is a `real` or a non-number.
- Morphology.CreateThenReload: assumes every drawn section has points, so no type mesh is empty after a cache round trip. vedo can produce an empty tube, and the model does not compute that.
- `Neuron` inherits from `NeuronCache` in the source. Here it holds a `NeuronCache` field.
- The API clients return the arguments `Neuron(...)` would be built with (`Values.NeuronArgs`), not `Neuron` objects.
- NeuroMorpho paging assumes the server holds the pages it reports.
- NeuroMorpho: the `_version` alternative to "CNG version" is a constant that is never changed, so only the CNG URL is modelled.
- NeuroMorpho.FileUrl: archive names are lowercased for ASCII letters only; Python's `str.lower` also folds other cased Unicode letters, which the model leaves unchanged.
- NeuroMorpho: the query and `/fields` requests may raise any exception kind; a failed `/fields/<field>` page request is modelled only as a missing page, which raises ValueError.
- NeuroMorpho: UTF-8 decoding is not computed: the fetch parameter says whether a body decodes, and what it decodes to.
- NeuroMorpho: `get_neuron_by_id` and `get_neuron_by_name` are single requests and are left out.
- Allen: a numpy array of ids is treated as a list. `get_cells` and `fetch_all_cell_metadata` are pandas file handling and are left out. The latter is a parameter of `CheckCellMetadata`.
- Mpin: `float` conversion of the soma coordinates is left out, so coordinates stay strings. The atlas lookup `structure_from_coords` is a parameter.
- Mpin: the "rai" to "asl" point conversion of `bg_space` (`map_points_to`) is a parameter that maps each point to a point of the same dimension; its axis order and flips are not computed. The CSV read and write are left out.
- Mpin: the zip download and extraction in `download_dataset`, and its per-file fixing loop, are left out. Only the connection check is modelled.
- MouseLight: the GraphQL query text is abstracted to a single query value.
- MouseLight: `mouselight_api_info` only prints and is left out.
- MouseLight: the pandas `DataFrame` built after the column transposition is left out.
- MouseLight: the Allen structure tree is two maps. GraphQL responses are typed, so a missing key in a response is not modelled.
- `morphapi/utils/webqueries.py` and `morphapi/paths_manager.py` are not part of this model: the requests become parameters, whose outcomes include the exceptions a request raises where the calling code is affected by them, and the cache folders become strings.
