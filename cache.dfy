/** `morphapi/morphology/cache.py`: the on-disk mesh cache. Per neuron name it keeps
    five mesh files (soma, axon, apical, basal, whole neuron) and one yaml file with
    the parameters the meshes were generated with. The file system is two maps:
    mesh files to the mesh they hold, yaml files to the parameters they hold. */
module Cache {
  import opened Wrappers
  import opened PyStr
  import opened DataIo
  import opened Geometry

  /** Generation parameters as written to the yaml file. */
  type Params = map<string, real>

  /** The loaded cache entry, the dict keyed by component name written as the sequence
      of its five values in the order of `Components`; None for an empty component. */
  type Loaded = seq<Option<Mesh>>

  /** The disk as the cache sees it. */
  datatype Store = Store(files: map<string, Mesh>, yamls: map<string, Params>)

  /** `cache_filenames_parts`, in the order of the class attribute. */
  const FilenameParts: seq<string> := ["_soma", "_axon", "_apical_dendrites", "_basal_dendrites", "whole_neuron"]

  /** The component names `load_cached_neuron` pairs with those files, in the same order. */
  const Components: seq<string> := ["soma", "axon", "apical_dendrites", "basal_dendrites", "whole_neuron"]

  /** The position of a component in both lists above. */
  function ComponentIndex(key: string): (i: nat)
    requires key in Components
    ensures i < 5 && Components[i] == key
  {
    if key == "soma" then 0
    else if key == "axon" then 1
    else if key == "apical_dendrites" then 2
    else if key == "basal_dendrites" then 3
    else 4
  }

  lemma ComponentsDistinct(i: nat, j: nat)
    requires i < 5 && j < 5 && i != j
    ensures Components[i] != Components[j]
  {
    ComponentIndexOf(i);
    ComponentIndexOf(j);
  }

  /** The component names are distinct, so each one's position is its own. */
  lemma ComponentIndexOf(i: nat)
    requires i < 5
    ensures ComponentIndex(Components[i]) == i
  {
    if i == 1 {
      assert Components[1][0] != 's';
    } else if i == 2 {
      assert |Components[2]| == 16;
    } else if i == 3 {
      assert |Components[3]| == 15;
    } else if i == 4 {
      assert |Components[4]| == 12;
    }
  }

  /** `meshes_cache/<name>`. */
  function NeuronFolder(meshesCache: string, name: string): string {
    PathJoin(meshesCache, name)
  }

  /** One of the paths `get_cache_filenames` returns. */
  function CacheFile(meshesCache: string, name: string, i: nat): string
    requires i < 5
  {
    PathJoin(NeuronFolder(meshesCache, name), name + FilenameParts[i] + ".obj")
  }

  /** `get_cache_filenames`: `meshes_cache/name/name + part + ".obj"` for the five
      parts, in order; the whole-neuron part has no leading underscore. */
  function CacheFilenames(meshesCache: string, name: string): (r: seq<string>)
    ensures |r| == 5
    ensures forall i :: 0 <= i < 5 ==> r[i] == CacheFile(meshesCache, name, i)
  {
    seq(5, i requires 0 <= i < 5 => CacheFile(meshesCache, name, i))
  }

  /** `get_cache_params_filename`: `meshes_cache/name/name + "_params.yml"`. */
  function ParamsFilename(meshesCache: string, name: string): (r: string)
    ensures EndsWith(r, name + "_params.yml")
  {
    PathJoin(NeuronFolder(meshesCache, name), name + "_params.yml")
  }

  /** The params file always has a name `save_yaml` and `load_yaml` accept. */
  lemma ParamsFilenameIsYaml(meshesCache: string, name: string)
    ensures SaveYamlPathOk(ParamsFilename(meshesCache, name))
    ensures LoadYamlNameOk(ParamsFilename(meshesCache, name))
  {
    var r := ParamsFilename(meshesCache, name);
    var t := name + "_params.yml";
    assert EndsWith("_params.yml", ".yml");
    EndsWithExtend(name, "_params.yml", ".yml");
    EndsWithTrans(r, t, ".yml");
    SaveAcceptedIsLoadAccepted(r);
  }

  // ------------------------------------------------- which file a key goes to

  /** The file suffix `write_neuron_to_cache` looks for when writing `key`. */
  function KeySuffix(key: string): string {
    key + ".obj"
  }

  /** The suffix a bare mesh is written under is the soma's. */
  lemma SomaSuffix()
    ensures KeySuffix(Components[0]) == "soma.obj"
  {
  }

  /** `[f for f in file_names if f.endswith(suffix)]`, as the index of its first element. */
  function FirstEndingWith(fns: seq<string>, suffix: string): (r: Option<nat>)
    ensures r.Some? ==> r.value < |fns| && EndsWith(fns[r.value], suffix)
    ensures r.Some? ==> forall j :: 0 <= j < r.value ==> !EndsWith(fns[j], suffix)
    ensures r.None? ==> forall j :: 0 <= j < |fns| ==> !EndsWith(fns[j], suffix)
  {
    if |fns| == 0 then None
    else if EndsWith(fns[0], suffix) then Some(0)
    else match FirstEndingWith(fns[1..], suffix)
      case None => None
      case Some(k) => Some(k + 1)
  }

  lemma EndsWithCharFromEnd(s: string, t: string, k: nat)
    requires EndsWith(s, t) && k < |t|
    ensures s[|s| - 1 - k] == t[|t| - 1 - k]
  {
    assert s[|s| - |t|..][|t| - 1 - k] == s[|s| - 1 - k];
  }

  lemma EndsWithTrans(s: string, t: string, u: string)
    requires EndsWith(s, t) && EndsWith(t, u)
    ensures EndsWith(s, u)
  {
    assert s[|s| - |u|..] == s[|s| - |t|..][|t| - |u|..];
  }

  lemma EndsWithAppendBoth(a: string, b: string, t: string)
    requires EndsWith(a, b)
    ensures EndsWith(a + t, b + t)
  {
    assert (a + t)[|a + t| - |b + t|..] == a[|a| - |b|..] + t;
  }

  lemma CharFromEndOfAppend(a: string, t: string, k: nat)
    requires k < |a|
    ensures (a + t)[|a + t| - 1 - (k + |t|)] == a[|a| - 1 - k]
  {
  }

  /** Each filename part ends with the name of its own component. */
  lemma PartEndsWithComponent(i: nat)
    requires i < 5
    ensures EndsWith(FilenameParts[i], Components[i])
  {
    if i == 0 {
      assert FilenameParts[0][1..] == Components[0];
    } else if i == 1 {
      assert FilenameParts[1][1..] == Components[1];
    } else if i == 2 {
      assert FilenameParts[2][1..] == Components[2];
    } else if i == 3 {
      assert FilenameParts[3][1..] == Components[3];
    }
  }

  /** Where, counting from the end, part `i` and component name `j` differ. */
  function DiffPos(i: nat, j: nat): nat {
    if (i == 1 && j == 4) || (i == 4 && j == 1) then 2
    else if (i == 2 && j == 3) || (i == 3 && j == 2) then 12
    else 0
  }

  lemma PartsDiffer(i: nat, j: nat)
    requires i < 5 && j < 5 && i != j
    ensures DiffPos(i, j) < |FilenameParts[i]| && DiffPos(i, j) < |Components[j]|
    ensures FilenameParts[i][|FilenameParts[i]| - 1 - DiffPos(i, j)] != Components[j][|Components[j]| - 1 - DiffPos(i, j)]
  {
  }

  /** A path ending with `name + part + ext` ends with `part + ext`. */
  lemma EndsWithTail(f: string, name: string, part: string, ext: string)
    requires EndsWith(f, name + part + ext)
    ensures EndsWith(f, part + ext)
  {
    assert name + part + ext == name + (part + ext);
    EndsWithExtend(name, part + ext, part + ext);
    EndsWithTrans(f, name + (part + ext), part + ext);
  }

  /** A path ending with `p + ext` cannot end with `c + ext` when `p` and `c` differ
      at the same distance from their ends. */
  lemma SuffixClash(f: string, p: string, c: string, ext: string, k: nat)
    requires EndsWith(f, p + ext) && k < |p| && k < |c| && p[|p| - 1 - k] != c[|c| - 1 - k]
    ensures !EndsWith(f, c + ext)
  {
    EndsWithCharFromEnd(f, p + ext, k + |ext|);
    CharFromEndOfAppend(p, ext, k);
    if EndsWith(f, c + ext) {
      EndsWithCharFromEnd(f, c + ext, k + |ext|);
      CharFromEndOfAppend(c, ext, k);
    }
  }

  lemma PartSuffixOwn(f: string, i: nat)
    requires i < 5 && EndsWith(f, FilenameParts[i] + ".obj")
    ensures EndsWith(f, KeySuffix(Components[i]))
  {
    PartEndsWithComponent(i);
    EndsWithAppendBoth(FilenameParts[i], Components[i], ".obj");
    EndsWithTrans(f, FilenameParts[i] + ".obj", Components[i] + ".obj");
  }

  lemma PartSuffixOther(f: string, i: nat, j: nat)
    requires i < 5 && j < 5 && i != j && EndsWith(f, FilenameParts[i] + ".obj")
    ensures !EndsWith(f, KeySuffix(Components[j]))
  {
    PartsDiffer(i, j);
    SuffixClash(f, FilenameParts[i], Components[j], ".obj", DiffPos(i, j));
  }

  /** A cache file ends with the suffix of its own component and of no other, whatever
      the neuron's name. */
  lemma OwnSuffixOnly(meshesCache: string, name: string, i: nat, j: nat)
    requires i < 5 && j < 5
    ensures EndsWith(CacheFilenames(meshesCache, name)[i], KeySuffix(Components[j])) <==> i == j
  {
    var f := CacheFilenames(meshesCache, name)[i];
    EndsWithTail(f, name, FilenameParts[i], ".obj");
    if i == j {
      PartSuffixOwn(f, i);
    } else {
      PartSuffixOther(f, i, j);
    }
  }

  /** Component `i` of a dict argument is written to the `i`-th cache file. */
  lemma ComponentFile(meshesCache: string, name: string, i: nat)
    requires i < 5
    ensures FirstEndingWith(CacheFilenames(meshesCache, name), KeySuffix(Components[i])) == Some(i)
  {
    var fns := CacheFilenames(meshesCache, name);
    var s := KeySuffix(Components[i]);
    OwnSuffixOnly(meshesCache, name, i, i);
    forall j | 0 <= j < 5 ensures EndsWith(fns[j], s) <==> j == i {
      OwnSuffixOnly(meshesCache, name, j, i);
    }
    var r := FirstEndingWith(fns, s);
    assert r.Some?;
  }

  /** The five cache files of a neuron are five different files. */
  lemma CacheFilenamesDistinct(meshesCache: string, name: string, i: nat, j: nat)
    requires i < 5 && j < 5 && i != j
    ensures CacheFilenames(meshesCache, name)[i] != CacheFilenames(meshesCache, name)[j]
  {
    OwnSuffixOnly(meshesCache, name, i, i);
    OwnSuffixOnly(meshesCache, name, j, i);
  }

  // ------------------------------------------------------------------ loading

  predicate AllPresent(files: map<string, Mesh>, fns: seq<string>) {
    forall i :: 0 <= i < |fns| ==> fns[i] in files
  }

  /** The test `load_cached_neuron` makes on the stored parameters: with equal sizes a
      requested key missing from the stored ones is a KeyError and otherwise the
      parameters changed if some requested value differs; with different sizes they
      changed exactly when the stored parameters are not empty. */
  function ParamsChanged(cached: Params, requested: Params): (r: Result<bool>)
    ensures |cached| != |requested| ==> r == Ok(cached != map[])
    ensures |cached| == |requested| ==> (r.Err? <==> !(requested.Keys <= cached.Keys))
    ensures |cached| == |requested| && r.Ok? ==>
      (r.value <==> exists k :: k in requested && requested[k] != cached[k])
  {
    if |cached| != |requested| then Ok(cached != map[])
    else if !(requested.Keys <= cached.Keys) then Err(KeyError("requested parameter not in the cached parameters"))
    else Ok(exists k | k in requested :: requested[k] != cached[k])
  }

  /** Parameters with the same keys count as unchanged exactly when they are equal. */
  lemma SameKeysUnchangedIffEqual(cached: Params, requested: Params)
    requires cached.Keys == requested.Keys
    ensures ParamsChanged(cached, requested) == Ok(false) <==> cached == requested
  {
    assert |cached| == |cached.Keys| == |requested.Keys| == |requested|;
    if ParamsChanged(cached, requested) == Ok(false) {
      forall k | k in requested ensures cached[k] == requested[k] { }
    }
  }

  /** Stored parameters that are empty never invalidate the cache, whatever is requested. */
  lemma EmptyStoredParamsNeverChange(requested: Params)
    ensures ParamsChanged(map[], requested) == Ok(false)
  {
    if |requested| == 0 {
      assert requested == map[];
    }
  }

  /** The zero-points rule applied on load. */
  function Normalise(m: Mesh): (r: Option<Mesh>)
    ensures r.None? <==> PointCount(m) == 0
    ensures r.Some? ==> r.value == m
  {
    if PointCount(m) == 0 then None else Some(m)
  }

  function LoadedFrom(files: map<string, Mesh>, fns: seq<string>): (r: Loaded)
    requires |fns| == 5 && AllPresent(files, fns)
    ensures |r| == 5
    ensures forall i :: 0 <= i < 5 ==> r[i] == Normalise(files[fns[i]])
  {
    seq(5, i requires 0 <= i < 5 => Normalise(files[fns[i]]))
  }

  /** `load_cached_neuron`: None when a mesh file is missing or the parameters changed;
      the parameter file's absence and a KeyError in the comparison are errors;
      otherwise the five components, each None exactly when its mesh has no points. */
  function LoadCached(st: Store, meshesCache: string, name: string, requested: Params): (r: Result<Option<Loaded>>)
    ensures !AllPresent(st.files, CacheFilenames(meshesCache, name)) ==> r == Ok(None)
    ensures r.Ok? && r.value.Some? ==>
      && AllPresent(st.files, CacheFilenames(meshesCache, name))
      && ParamsFilename(meshesCache, name) in st.yamls
      && ParamsChanged(st.yamls[ParamsFilename(meshesCache, name)], requested) == Ok(false)
      && |r.value.value| == 5
      && forall i :: 0 <= i < 5 ==>
           (r.value.value[i].None? <==> PointCount(st.files[CacheFilenames(meshesCache, name)[i]]) == 0)
  {
    var fns := CacheFilenames(meshesCache, name);
    if !AllPresent(st.files, fns) then Ok(None)
    else
      var cached :- LoadYaml(st.yamls, Some(ParamsFilename(meshesCache, name)));
      var changed :- ParamsChanged(cached, requested);
      if changed then Ok(None) else Ok(Some(LoadedFrom(st.files, fns)))
  }

  // ------------------------------------------------------------------ writing

  /** A value of the dict passed to `write_neuron_to_cache`. */
  datatype Actor = MeshActor(mesh: Mesh) | NoneActor | ListActor(meshes: seq<Mesh>)

  /** The `neuron` argument of `write_neuron_to_cache`. */
  datatype CacheArg = BareMesh(mesh: Mesh) | Dict(entries: seq<(string, Actor)>) | NotMeshOrDict

  /** The single mesh written for a component other than the whole neuron: None and
      an empty list become an empty mesh, a one-element list its element, a longer
      list the merge of its meshes. */
  function ComponentMesh(actor: Actor): (m: Mesh)
    ensures actor.MeshActor? ==> m == actor.mesh
    ensures actor.NoneActor? || actor == ListActor([]) ==> m == EmptyMesh
    ensures actor.ListActor? && |actor.meshes| == 1 ==> m == actor.meshes[0]
  {
    match actor
    case MeshActor(m) => m
    case ListActor(ms) =>
      if |ms| == 1 then ms[0]
      else if |ms| == 0 then EmptyMesh
      else Merge(ms)
    case NoneActor => EmptyMesh
  }

  /** The mesh that ends up in a component's file. */
  function WrittenMesh(key: string, actor: Actor): Mesh
    requires key == "whole_neuron" ==> actor.MeshActor?
  {
    if key == "whole_neuron" then actor.mesh else ComponentMesh(actor)
  }

  /** One key of the dict: the whole neuron is written as it is (vedo cannot write
      anything but a mesh), other components as `ComponentMesh`; a key that matches
      no file name is a ValueError. */
  function WriteEntry(files: map<string, Mesh>, fns: seq<string>, key: string, actor: Actor): (r: Result<map<string, Mesh>>)
    ensures r.Ok? ==> (key == "whole_neuron" ==> actor.MeshActor?)
    ensures r.Ok? ==> exists i :: 0 <= i < |fns| && EndsWith(fns[i], KeySuffix(key)) && r.value == files[fns[i] := WrittenMesh(key, actor)]
    ensures key != "whole_neuron" ==> (r.Err? <==> forall i :: 0 <= i < |fns| ==> !EndsWith(fns[i], KeySuffix(key)))
  {
    var idx := FirstEndingWith(fns, KeySuffix(key));
    if key == "whole_neuron" then
      if idx.None? then Err(IndexError("list index out of range"))
      else if !actor.MeshActor? then Err(AttributeError("only a mesh can be written"))
      else Ok(files[fns[idx.value] := actor.mesh])
    else
      var m := ComponentMesh(actor);
      if idx.None? then Err(ValueError("no filename found for key"))
      else Ok(files[fns[idx.value] := m])
  }

  /** The dict's entries written in order; the first failure stops the loop and leaves
      the files written so far. */
  function WriteEntries(files: map<string, Mesh>, fns: seq<string>, es: seq<(string, Actor)>): (map<string, Mesh>, Option<PyError>)
    decreases |es|
  {
    if |es| == 0 then (files, None)
    else match WriteEntry(files, fns, es[0].0, es[0].1)
      case Err(e) => (files, Some(e))
      case Ok(files') => WriteEntries(files', fns, es[1..])
  }

  /** `write_neuron_to_cache`: the parameters are saved first; a bare mesh goes to the
      soma file; a dict is written key by key; anything else is a ValueError. */
  function WriteNeuron(st: Store, meshesCache: string, name: string, neuron: CacheArg, params: Params): (r: (Store, Option<PyError>))
    ensures ParamsFilename(meshesCache, name) in r.0.yamls && r.0.yamls[ParamsFilename(meshesCache, name)] == params
    ensures neuron.NotMeshOrDict? ==> r.0.files == st.files && r.1.Some? && r.1.value.ValueError?
    ensures neuron.BareMesh? ==> r.0.files == st.files[CacheFilenames(meshesCache, name)[0] := neuron.mesh] && r.1.None?
  {
    var pf := ParamsFilename(meshesCache, name);
    ParamsFilenameIsYaml(meshesCache, name);
    var yamls := SaveYaml(st.yamls, pf, params).value;
    var fns := CacheFilenames(meshesCache, name);
    match neuron
    case BareMesh(m) =>
      ComponentFile(meshesCache, name, 0);
      SomaSuffix();
      var idx := FirstEndingWith(fns, "soma.obj");
      (Store(st.files[fns[idx.value] := m], yamls), None)
    case NotMeshOrDict =>
      (Store(st.files, yamls), Some(ValueError("invalid neuron argument passed while caching")))
    case Dict(es) =>
      var (files, err) := WriteEntries(st.files, fns, es);
      (Store(files, yamls), err)
  }

  /** A dict whose keys are exactly the five components, each once, with a mesh for
      the whole neuron: what `create_mesh` hands to the cache. */
  predicate FullEntries(es: seq<(string, Actor)>) {
    && (forall i :: 0 <= i < |es| ==> es[i].0 in Components)
    && (forall i :: 0 <= i < |es| && es[i].0 == "whole_neuron" ==> es[i].1.MeshActor?)
    && (forall i, j :: 0 <= i < j < |es| ==> es[i].0 != es[j].0)
  }

  /** The dict has an entry for `key`. */
  predicate HasKey(es: seq<(string, Actor)>, key: string) {
    exists i :: 0 <= i < |es| && es[i].0 == key
  }

  /** Writing one component's entry writes its own cache file. */
  lemma WriteComponentEntry(files: map<string, Mesh>, meshesCache: string, name: string, key: string, actor: Actor)
    requires key in Components && (key == "whole_neuron" ==> actor.MeshActor?)
    ensures var fns := CacheFilenames(meshesCache, name);
            WriteEntry(files, fns, key, actor) == Ok(files[fns[ComponentIndex(key)] := WrittenMesh(key, actor)])
  {
    ComponentFile(meshesCache, name, ComponentIndex(key));
  }

  lemma WriteEntriesStep(files: map<string, Mesh>, fns: seq<string>, es: seq<(string, Actor)>, files1: map<string, Mesh>)
    requires |es| > 0 && WriteEntry(files, fns, es[0].0, es[0].1) == Ok(files1)
    ensures WriteEntries(files, fns, es) == WriteEntries(files1, fns, es[1..])
  {
  }

  lemma FullEntriesTail(es: seq<(string, Actor)>)
    requires |es| > 0 && FullEntries(es)
    ensures FullEntries(es[1..])
  {
    assert forall i :: 0 <= i < |es[1..]| ==> es[1..][i] == es[i + 1];
  }

  /** Writing component entries succeeds and leaves alone every file none of them
      names. */
  lemma {:induction false} WriteEntriesFrame(files: map<string, Mesh>, meshesCache: string, name: string, es: seq<(string, Actor)>, f: string)
    requires FullEntries(es)
    requires forall i :: 0 <= i < |es| ==> f != CacheFilenames(meshesCache, name)[ComponentIndex(es[i].0)]
    ensures var (files', err) := WriteEntries(files, CacheFilenames(meshesCache, name), es);
            err.None? && (f in files ==> f in files' && files'[f] == files[f])
    decreases |es|
  {
    if |es| > 0 {
      var fns := CacheFilenames(meshesCache, name);
      var k := ComponentIndex(es[0].0);
      WriteComponentEntry(files, meshesCache, name, es[0].0, es[0].1);
      var files1 := files[fns[k] := WrittenMesh(es[0].0, es[0].1)];
      WriteEntriesStep(files, fns, es, files1);
      FullEntriesTail(es);
      forall i | 0 <= i < |es[1..]| ensures f != fns[ComponentIndex(es[1..][i].0)] {
        assert es[1..][i] == es[i + 1];
      }
      WriteEntriesFrame(files1, meshesCache, name, es[1..], f);
    }
  }

  /** Writing component entries with distinct keys puts each one's mesh in its own file. */
  lemma {:induction false} WriteEntriesEffect(files: map<string, Mesh>, meshesCache: string, name: string, es: seq<(string, Actor)>)
    requires FullEntries(es)
    ensures var fns := CacheFilenames(meshesCache, name);
            var (files', err) := WriteEntries(files, fns, es);
            && err.None?
            && forall i :: 0 <= i < |es| ==>
                 fns[ComponentIndex(es[i].0)] in files' && files'[fns[ComponentIndex(es[i].0)]] == WrittenMesh(es[i].0, es[i].1)
    decreases |es|
  {
    if |es| > 0 {
      var fns := CacheFilenames(meshesCache, name);
      var k := ComponentIndex(es[0].0);
      WriteComponentEntry(files, meshesCache, name, es[0].0, es[0].1);
      var files1 := files[fns[k] := WrittenMesh(es[0].0, es[0].1)];
      WriteEntriesStep(files, fns, es, files1);
      FullEntriesTail(es);
      WriteEntriesEffect(files1, meshesCache, name, es[1..]);
      forall i | 0 <= i < |es[1..]| ensures fns[k] != fns[ComponentIndex(es[1..][i].0)] {
        assert es[1..][i] == es[i + 1];
        CacheFilenamesDistinct(meshesCache, name, k, ComponentIndex(es[i + 1].0));
      }
      WriteEntriesFrame(files1, meshesCache, name, es[1..], fns[k]);
      var (files', err) := WriteEntries(files1, fns, es[1..]);
      forall i | 0 <= i < |es|
        ensures fns[ComponentIndex(es[i].0)] in files' && files'[fns[ComponentIndex(es[i].0)]] == WrittenMesh(es[i].0, es[i].1)
      {
        if i > 0 {
          assert es[i] == es[1..][i - 1];
        }
      }
    }
  }

  /** With all five files present and the stored parameters equal to the requested
      ones, loading hits the cache and returns the five files' meshes. */
  lemma LoadCachedHit(st: Store, meshesCache: string, name: string, requested: Params)
    requires AllPresent(st.files, CacheFilenames(meshesCache, name))
    requires ParamsFilename(meshesCache, name) in st.yamls && st.yamls[ParamsFilename(meshesCache, name)] == requested
    ensures LoadCached(st, meshesCache, name, requested) == Ok(Some(LoadedFrom(st.files, CacheFilenames(meshesCache, name))))
  {
    ParamsFilenameIsYaml(meshesCache, name);
    SameKeysUnchangedIffEqual(requested, requested);
  }

  /** Stored parameters that differ in a value from requested ones with the same keys
      make loading miss, whatever the mesh files hold. */
  lemma ChangedParamsMiss(st: Store, meshesCache: string, name: string, requested: Params, key: string)
    requires ParamsFilename(meshesCache, name) in st.yamls
    requires st.yamls[ParamsFilename(meshesCache, name)].Keys == requested.Keys
    requires key in requested && st.yamls[ParamsFilename(meshesCache, name)][key] != requested[key]
    ensures LoadCached(st, meshesCache, name, requested) == Ok(None)
  {
    var cached := st.yamls[ParamsFilename(meshesCache, name)];
    ParamsFilenameIsYaml(meshesCache, name);
    SameKeysUnchangedIffEqual(cached, requested);
  }

  lemma WriteNeuronDict(st: Store, meshesCache: string, name: string, es: seq<(string, Actor)>, params: Params)
    ensures var (files', err) := WriteEntries(st.files, CacheFilenames(meshesCache, name), es);
            WriteNeuron(st, meshesCache, name, Dict(es), params)
              == (Store(files', st.yamls[ParamsFilename(meshesCache, name) := params]), err)
  {
    ParamsFilenameIsYaml(meshesCache, name);
  }

  /** Writing all five components leaves all five cache files present. */
  lemma WriteEntriesCoverAll(files: map<string, Mesh>, meshesCache: string, name: string, es: seq<(string, Actor)>)
    requires FullEntries(es)
    requires forall j :: 0 <= j < 5 ==> HasKey(es, Components[j])
    ensures AllPresent(WriteEntries(files, CacheFilenames(meshesCache, name), es).0, CacheFilenames(meshesCache, name))
  {
    var fns := CacheFilenames(meshesCache, name);
    var (files', err) := WriteEntries(files, fns, es);
    WriteEntriesEffect(files, meshesCache, name, es);
    forall j | 0 <= j < 5 ensures fns[j] in files' {
      assert HasKey(es, Components[j]);
      var i :| 0 <= i < |es| && es[i].0 == Components[j];
      ComponentIndexOf(j);
    }
  }

  /** Round trip: writing a dict with the five components and loading with the same
      parameters hits the cache, and each component comes back as the mesh written for
      it, or None exactly when that mesh has no points; in particular a component
      written as None or as an empty list comes back None. */
  lemma WriteThenLoad(st: Store, meshesCache: string, name: string, es: seq<(string, Actor)>, params: Params)
    requires FullEntries(es)
    requires forall j :: 0 <= j < 5 ==> HasKey(es, Components[j])
    ensures var (st', err) := WriteNeuron(st, meshesCache, name, Dict(es), params);
            && err.None?
            && var r := LoadCached(st', meshesCache, name, params);
            && r.Ok? && r.value.Some? && |r.value.value| == 5
            && (forall i :: 0 <= i < |es| ==> r.value.value[ComponentIndex(es[i].0)] == Normalise(WrittenMesh(es[i].0, es[i].1)))
            && (forall i :: 0 <= i < |es| && (es[i].1.NoneActor? || es[i].1 == ListActor([])) ==> r.value.value[ComponentIndex(es[i].0)].None?)
  {
    var fns := CacheFilenames(meshesCache, name);
    var (files', err) := WriteEntries(st.files, fns, es);
    var st' := Store(files', st.yamls[ParamsFilename(meshesCache, name) := params]);
    WriteNeuronDict(st, meshesCache, name, es, params);
    WriteEntriesEffect(st.files, meshesCache, name, es);
    WriteEntriesCoverAll(st.files, meshesCache, name, es);
    LoadCachedHit(st', meshesCache, name, params);
    var loaded := LoadedFrom(files', fns);
    forall i | 0 <= i < |es| && (es[i].1.NoneActor? || es[i].1 == ListActor([]))
      ensures loaded[ComponentIndex(es[i].0)].None?
    {
      assert PointCount(WrittenMesh(es[i].0, es[i].1)) == 0;
    }
  }

  // ------------------------------------------------------------ the cache object

  /** `NeuronCache`: the cache folder and the part of the disk it reads and writes. */
  class NeuronCache {
    const meshesCache: string
    var files: map<string, Mesh>
    var yamls: map<string, Params>

    function State(): Store
      reads this
    {
      Store(files, yamls)
    }

    constructor (meshesCache: string, disk: Store)
      ensures this.meshesCache == meshesCache && State() == disk
    {
      this.meshesCache := meshesCache;
      files := disk.files;
      yamls := disk.yamls;
    }

    /** `_check_neuron_mesh_cached`: true exactly when all five mesh files exist. */
    method CheckNeuronMeshCached(name: string) returns (cached: bool)
      ensures cached <==> forall i :: 0 <= i < 5 ==> CacheFilenames(meshesCache, name)[i] in files
    {
      var fns := CacheFilenames(meshesCache, name);
      var i := 0;
      while i < |fns|
        invariant 0 <= i <= |fns|
        invariant forall j :: 0 <= j < i ==> fns[j] in files
      {
        if fns[i] !in files {
          return false;
        }
        i := i + 1;
      }
      return true;
    }

    /** The loading part of `load_cached_neuron`: every mesh is loaded, then the
        empty ones are replaced by None in place. */
    method LoadComponents(fns: seq<string>) returns (loaded: Loaded)
      requires |fns| == 5 && AllPresent(files, fns)
      ensures loaded == LoadedFrom(files, fns)
    {
      var fs := files;
      loaded := seq(5, i requires 0 <= i < 5 => Some(fs[fns[i]]));
      var i := 0;
      while i < 5
        invariant 0 <= i <= 5 && |loaded| == 5
        invariant forall j :: 0 <= j < i ==> loaded[j] == Normalise(files[fns[j]])
        invariant forall j :: i <= j < 5 ==> loaded[j] == Some(files[fns[j]])
      {
        var act := loaded[i].value;
        if PointCount(act) == 0 {
          loaded := loaded[i := None];
        }
        i := i + 1;
      }
    }

    /** `load_cached_neuron`. */
    method LoadCachedNeuron(name: string, requested: Params) returns (r: Result<Option<Loaded>>)
      ensures r == LoadCached(State(), meshesCache, name, requested)
    {
      var fns := CacheFilenames(meshesCache, name);
      var present := CheckNeuronMeshCached(name);
      if !present {
        return Ok(None);
      }
      assert AllPresent(files, fns);
      var cached :- LoadYaml(yamls, Some(ParamsFilename(meshesCache, name)));
      var changed :- ParamsChanged(cached, requested);
      if changed {
        return Ok(None);
      }
      var loaded := LoadComponents(fns);
      return Ok(Some(loaded));
    }

    /** `write_neuron_to_cache`, one file write at a time. */
    method WriteNeuronToCache(name: string, neuron: CacheArg, params: Params) returns (raised: Option<PyError>)
      modifies this
      ensures (State(), raised) == WriteNeuron(old(State()), meshesCache, name, neuron, params)
    {
      var pf := ParamsFilename(meshesCache, name);
      ParamsFilenameIsYaml(meshesCache, name);
      var saved := SaveYaml(yamls, pf, params);
      yamls := saved.value;
      var fns := CacheFilenames(meshesCache, name);
      match neuron
      case BareMesh(m) =>
        ComponentFile(meshesCache, name, 0);
        SomaSuffix();
        var idx := FirstEndingWith(fns, "soma.obj");
        files := files[fns[idx.value] := m];
        return None;
      case NotMeshOrDict =>
        return Some(ValueError("invalid neuron argument passed while caching"));
      case Dict(es) =>
        WriteNeuronDict(old(State()), meshesCache, name, es, params);
        raised := WriteDictEntries(fns, es);
    }

    /** The loop over the dict's items in `write_neuron_to_cache`. */
    method WriteDictEntries(fns: seq<string>, es: seq<(string, Actor)>) returns (raised: Option<PyError>)
      modifies this
      ensures yamls == old(yamls)
      ensures (files, raised) == WriteEntries(old(files), fns, es)
    {
      var i := 0;
      while i < |es|
        invariant 0 <= i <= |es| && yamls == old(yamls)
        invariant WriteEntries(old(files), fns, es) == WriteEntries(files, fns, es[i..])
      {
        var (key, actor) := es[i];
        var written := WriteEntry(files, fns, key, actor);
        if written.Err? {
          return Some(written.error);
        }
        WriteEntriesStep(files, fns, es[i..], written.value);
        assert es[i..][1..] == es[i + 1..];
        files := written.value;
        i := i + 1;
      }
      return None;
    }
  }
}
