/** `Neuron` (morphapi/morphology/morphology.py): a neuron read from an SWC file, its
    colour options and `create_mesh`, which builds (or loads from the mesh cache) a
    sphere for the soma and merged tubes for each neurite type. NeuroM's loader is a
    function from the file's text to a morphology; vedo's colour map is kept symbolic. */
module Morphology {
  import opened Wrappers
  import opened PyStr
  import opened Geometry
  import opened Neurites
  import opened Cache
  import opened Swc

  // ------------------------------------------------------------- morphology

  /** NeuroM's neurite types; `Other` stands for any type `create_mesh` does not draw. */
  datatype NeuriteType = BasalDendrite | ApicalDendrite | Axon | Other

  datatype Soma = Soma(centre: Point, radius: real)

  /** What NeuroM returns: the soma's first point and radius, and the neurites. */
  datatype Morph = Morph(soma: Soma, neurites: seq<(NeuriteType, Section)>)

  /** `self.points`: the soma component and, per drawn type, the root sections of the
      neurites of that type. */
  datatype Points = Points(soma: Soma, basal: seq<Section>, apical: seq<Section>, axon: seq<Section>)

  /** `[n for n in nrn.neurites if n.type == nclass]`. */
  function OfType(ns: seq<(NeuriteType, Section)>, t: NeuriteType): (r: seq<Section>)
    ensures |r| <= |ns|
    ensures forall s :: s in r ==> (t, s) in ns
    decreases |ns|
  {
    if |ns| == 0 then []
    else
      var front := OfType(ns[..|ns| - 1], t);
      assert forall s :: s in front ==> (t, s) in ns by {
        forall s | s in front ensures (t, s) in ns {
          assert (t, s) in ns[..|ns| - 1];
        }
      }
      if ns[|ns| - 1].0 == t then front + [ns[|ns| - 1].1] else front
  }

  /** Every neurite of the type is kept, and nothing else. */
  lemma {:induction false} OfTypeMembers(ns: seq<(NeuriteType, Section)>, t: NeuriteType)
    ensures forall s :: s in OfType(ns, t) <==> (t, s) in ns
    decreases |ns|
  {
    if |ns| > 0 {
      var front := ns[..|ns| - 1];
      OfTypeMembers(front, t);
      assert ns == front + [ns[|ns| - 1]];
    }
  }

  /** The neurites are kept in their order: filtering distributes over concatenation. */
  lemma {:induction false} OfTypeAppend(a: seq<(NeuriteType, Section)>, b: seq<(NeuriteType, Section)>, t: NeuriteType)
    ensures OfType(a + b, t) == OfType(a, t) + OfType(b, t)
    decreases |b|
  {
    if |b| == 0 {
      assert a + b == a;
    } else {
      var front, last := b[..|b| - 1], b[|b| - 1];
      var ab := a + b;
      OfTypeAppend(a, front, t);
      assert ab[..|ab| - 1] == a + front && ab[|ab| - 1] == last;
      var kept := if last.0 == t then [last.1] else [];
      assert OfType(ab, t) == OfType(a + front, t) + kept;
      assert OfType(b, t) == OfType(front, t) + kept;
    }
  }

  /** `load_from_swc` after NeuroM has loaded the file. */
  function PointsOf(m: Morph): Points {
    Points(m.soma, OfType(m.neurites, BasalDendrite), OfType(m.neurites, ApicalDendrite), OfType(m.neurites, Axon))
  }

  // ---------------------------------------------------------------- colours

  /** A colour: one given by the caller, or vedo's `colorMap(value, name, vmin, vmax)`. */
  datatype Color = Named(name: string) | ColorMapped(value: real, cmap: string, vmin: real, vmax: real)

  /** A keyword argument that may be absent, which for some keys differs from passing None. */
  datatype Arg<T> = Absent | Passed(value: T)

  /** The keyword arguments `_parse_mesh_kwargs` pops. For the keys whose default is
      None, absent and None are the same and an `Option` is enough. */
  datatype MeshKwargs = MeshKwargs(
    neuronColor: Option<Color>,
    neuronNumber: Option<real>,
    cmapLims: Option<(real, real)>,
    cmap: Option<string>,
    somaColor: Arg<Option<Color>>,
    apicalColor: Arg<Option<Color>>,
    basalColor: Arg<Option<Color>>,
    axonColor: Arg<Option<Color>>,
    wholeColor: Option<Color>)

  datatype Colors = Colors(soma: Option<Color>, apical: Option<Color>, basal: Option<Color>, axon: Option<Color>, whole: Option<Color>)

  const Salmon: Color := Named("salmon")

  function ArgOr<T>(a: Arg<T>, default: T): T {
    match a
    case Absent => default
    case Passed(v) => v
  }

  /** `_parse_mesh_kwargs`. */
  function ParseMeshKwargs(kw: MeshKwargs): (c: Colors)
    ensures kw.neuronColor.Some? ==> c.soma == c.apical == c.basal == c.axon == kw.neuronColor
    ensures kw.neuronColor.None? && kw.cmap.Some? ==>
      var lims := kw.cmapLims.GetOr((-1.0, 1.0));
      c.soma == c.apical == c.basal == c.axon == Some(ColorMapped(kw.neuronNumber.GetOr(0.0), kw.cmap.value, lims.0, lims.1))
    ensures kw.neuronColor.None? && kw.cmap.None? ==>
      && c.soma == ArgOr(kw.somaColor, Some(Salmon))
      && c.apical == ArgOr(kw.apicalColor, Some(Salmon))
      && c.basal == ArgOr(kw.basalColor, c.apical)
      && c.axon == ArgOr(kw.axonColor, Some(Salmon))
    ensures c.whole == (if kw.wholeColor.Some? then kw.wholeColor else c.soma)
  {
    var soma0 := ArgOr(kw.somaColor, Some(Salmon));
    var apical0 := ArgOr(kw.apicalColor, Some(Salmon));
    var basal0 := ArgOr(kw.basalColor, apical0);
    var axon0 := ArgOr(kw.axonColor, Some(Salmon));
    var lims := kw.cmapLims.GetOr((-1.0, 1.0));
    var (soma, apical, basal, axon) :=
      if kw.neuronColor.Some? then (kw.neuronColor, kw.neuronColor, kw.neuronColor, kw.neuronColor)
      else if kw.cmap.Some? then
        var number := kw.neuronNumber.GetOr(0.0);
        var mapped := Some(ColorMapped(number, kw.cmap.value, lims.0, lims.1));
        (mapped, mapped, mapped, mapped)
      else (soma0, apical0, basal0, axon0);
    var whole := if kw.wholeColor.None? then soma else kw.wholeColor;
    Colors(soma, apical, basal, axon, whole)
  }

  /** With nothing passed, every component is salmon, and so is the whole neuron. */
  lemma DefaultColors()
    ensures ParseMeshKwargs(MeshKwargs(None, None, None, None, Absent, Absent, Absent, Absent, None))
      == Colors(Some(Salmon), Some(Salmon), Some(Salmon), Some(Salmon), Some(Salmon))
  {
  }

  /** The basal colour follows the apical one only when the basal key is absent: passing
      None for it keeps None even when an apical colour is given. */
  lemma BasalFollowsApicalOnlyWhenAbsent(apical: Color)
    ensures ParseMeshKwargs(MeshKwargs(None, None, None, None, Absent, Passed(Some(apical)), Absent, Absent, None)).basal == Some(apical)
    ensures ParseMeshKwargs(MeshKwargs(None, None, None, None, Absent, Passed(Some(apical)), Passed(None), Absent, None)).basal == None
  {
  }

  /** `neuron_color` wins over `cmap`. */
  lemma NeuronColorBeatsCmap(kw: MeshKwargs, color: Color, cmap: string)
    requires kw.neuronColor == Some(color) && kw.cmap == Some(cmap)
    ensures ParseMeshKwargs(kw).soma == Some(color)
    ensures ParseMeshKwargs(kw).whole == (if kw.wholeColor.Some? then kw.wholeColor else Some(color))
  {
  }

  // ----------------------------------------------------------- mesh building

  /** `neurite_radius` / `soma_radius` as passed: a Python number or anything else. */
  datatype Radius = Number(value: real) | NotANumber

  predicate ValidRadius(r: Radius) {
    r.Number? && r.value > 0.0
  }

  /** `_params`: the cache fingerprint, the two radii and nothing else. */
  function CacheParams(neuriteRadius: real, somaRadius: real): (p: Params)
    ensures p.Keys == {"neurite_radius", "soma_radius"}
  {
    map["neurite_radius" := neuriteRadius, "soma_radius" := somaRadius]
  }

  /** The meshes built on a cache miss, before colouring. */
  datatype Generated = Generated(soma: Mesh, basal: Option<Mesh>, apical: Option<Mesh>, axon: Option<Mesh>, whole: Mesh)

  /** The soma sphere: at the soma point, permuted when `invert_dims` is set, with the
      soma radius scaled by `soma_radius`. */
  function SomaMesh(s: Soma, invert: bool, somaRadius: real): Mesh {
    Mesh([Sphere(Oriented(s.centre, invert), s.radius * somaRadius)])
  }

  /** One neurite type: the merge of its tubes, None when it has none. */
  function TypeMesh(sections: seq<Section>, invert: bool, neuriteRadius: real): (r: Option<Mesh>)
    ensures r.None? <==> |DrawnAll(sections)| == 0
  {
    var actors := Tubes(DrawnAll(sections), invert, neuriteRadius);
    if |actors| > 0 then Some(Merge(actors)) else None
  }

  /** `[act for act in neurites.values() if act is not None]`. */
  function Present(ms: seq<Option<Mesh>>): (r: seq<Mesh>)
    ensures |r| <= |ms|
    decreases |ms|
  {
    if |ms| == 0 then []
    else Present(ms[..|ms| - 1]) + (if ms[|ms| - 1].Some? then [ms[|ms| - 1].value] else [])
  }

  function Generate(p: Points, invert: bool, neuriteRadius: real, somaRadius: real): Generated {
    var soma := SomaMesh(p.soma, invert, somaRadius);
    var basal := TypeMesh(p.basal, invert, neuriteRadius);
    var apical := TypeMesh(p.apical, invert, neuriteRadius);
    var axon := TypeMesh(p.axon, invert, neuriteRadius);
    Generated(soma, basal, apical, axon, Merge([soma] + Present([basal, apical, axon])))
  }

  /** The cache entry for a cache value. */
  function ActorOf(m: Option<Mesh>): Actor {
    if m.Some? then MeshActor(m.value) else NoneActor
  }

  /** Where each key of `to_write` stands in `Components`: soma, basal_dendrites,
      apical_dendrites, axon, whole_neuron. */
  const WriteOrder: seq<nat> := [0, 3, 2, 1, 4]

  /** `to_write`: the neurites dict in insertion order plus the whole neuron. */
  function ToWrite(g: Generated): (es: seq<(string, Actor)>)
    ensures |es| == 5 && forall k :: 0 <= k < 5 ==> es[k].0 == Components[WriteOrder[k]]
  {
    [(Components[0], MeshActor(g.soma)), (Components[3], ActorOf(g.basal)), (Components[2], ActorOf(g.apical)),
     (Components[1], ActorOf(g.axon)), (Components[4], MeshActor(g.whole))]
  }

  /** `to_write` names every component exactly once and has a mesh for the whole neuron. */
  lemma ToWriteFull(g: Generated)
    ensures FullEntries(ToWrite(g))
    ensures forall j :: 0 <= j < 5 ==> HasKey(ToWrite(g), Components[j])
  {
    var es := ToWrite(g);
    forall i, j | 0 <= i < j < |es| ensures es[i].0 != es[j].0 {
      ComponentsDistinct(WriteOrder[i], WriteOrder[j]);
    }
    forall i | 0 <= i < |es| && es[i].0 == "whole_neuron" ensures es[i].1.MeshActor? {
      if WriteOrder[i] != 4 {
        ComponentsDistinct(WriteOrder[i], 4);
      }
    }
    forall j | 0 <= j < 5 ensures HasKey(es, Components[j]) {
      var k := if j == 0 then 0 else if j == 3 then 1 else if j == 2 then 2 else if j == 1 then 3 else 4;
      assert es[k].0 == Components[j];
    }
  }

  // ---------------------------------------------------------------- colouring

  /** A mesh with the colour `.c(...)` gave it. */
  datatype Painted = Painted(mesh: Mesh, color: Option<Color>)

  /** What `create_mesh` returns: the neurites dict and the whole neuron. */
  datatype NeuronMeshes = NeuronMeshes(soma: Painted, basal: Option<Painted>, apical: Option<Painted>, axon: Option<Painted>, whole: Painted)

  function PaintOpt(m: Option<Mesh>, c: Option<Color>): Option<Painted> {
    if m.Some? then Some(Painted(m.value, c)) else None
  }

  /** The miss path's result: generated meshes coloured. */
  function PaintGenerated(g: Generated, c: Colors): NeuronMeshes {
    NeuronMeshes(Painted(g.soma, c.soma), PaintOpt(g.basal, c.basal), PaintOpt(g.apical, c.apical),
                 PaintOpt(g.axon, c.axon), Painted(g.whole, c.whole))
  }

  /** The hit path's result: `.c` on a None soma or whole neuron is an AttributeError. */
  function PaintLoaded(loaded: Loaded, c: Colors): (r: Result<NeuronMeshes>)
    requires |loaded| == 5
    ensures r.Ok? <==> loaded[0].Some? && loaded[4].Some?
  {
    if loaded[0].None? then Err(AttributeError("'NoneType' object has no attribute 'c'"))
    else if loaded[4].None? then Err(AttributeError("'NoneType' object has no attribute 'c'"))
    else Ok(NeuronMeshes(Painted(loaded[0].value, c.soma), PaintOpt(loaded[3], c.basal), PaintOpt(loaded[2], c.apical),
                         PaintOpt(loaded[1], c.axon), Painted(loaded[4].value, c.whole)))
  }

  const NoDataWarning: string := "No data loaded, you can use the 'load_from_file' method to try to load the file."

  /** Where the meshes of a successful call come from: the cache, or generated (and
      written to the cache). */
  datatype Source = CacheHit(loaded: Loaded) | CacheMiss(g: Generated)

  /** A cache hit always has the five components. */
  predicate WellFormed(o: Result<Option<Source>>) {
    o.Ok? && o.value.Some? && o.value.value.CacheHit? ==> |o.value.value.loaded| == 5
  }

  /** `create_mesh` up to the colours: where the meshes come from, or the error, and
      the store afterwards. */
  function CreateMeshSource(pts: Option<Points>, invert: bool, name: string, meshesCache: string, st: Store,
                            neuriteRadius: Radius, somaRadius: Radius, useCache: bool): (r: (Result<Option<Source>>, Store))
    ensures WellFormed(r.0)
  {
    if pts.None? then (Ok(None), st)
    else if !ValidRadius(neuriteRadius) then (Err(ValueError("Invalid value for parameter neurite_radius, should be a float > 0")), st)
    else if !ValidRadius(somaRadius) then (Err(ValueError("Invalid value for parameter soma_radius, should be a float > 0")), st)
    else
      var params := CacheParams(neuriteRadius.value, somaRadius.value);
      var cached := if useCache then LoadCached(st, meshesCache, name, params) else Ok(None);
      if cached.Err? then (Err(cached.error), st)
      else if cached.value.Some? then (Ok(Some(CacheHit(cached.value.value))), st)
      else
        var g := Generate(pts.value, invert, neuriteRadius.value, somaRadius.value);
        var (st', err) := WriteNeuron(st, meshesCache, name, Dict(ToWrite(g)), params);
        if err.Some? then (Err(err.value), st') else (Ok(Some(CacheMiss(g))), st')
  }

  /** The colours applied to where the meshes come from. */
  function PaintSource(o: Result<Option<Source>>, colors: Colors): Result<Option<NeuronMeshes>>
    requires WellFormed(o)
  {
    if o.Err? then Err(o.error)
    else if o.value.None? then Ok(None)
    else match o.value.value
      case CacheHit(loaded) =>
        var r := PaintLoaded(loaded, colors);
        if r.Ok? then Ok(Some(r.value)) else Err(r.error)
      case CacheMiss(g) => Ok(Some(PaintGenerated(g, colors)))
  }

  /** `create_mesh` as a function of the neuron's points and the cache's store: the
      result and the store afterwards. */
  function CreateMeshSpec(pts: Option<Points>, invert: bool, name: string, meshesCache: string, st: Store,
                          neuriteRadius: Radius, somaRadius: Radius, useCache: bool, kw: MeshKwargs): (Result<Option<NeuronMeshes>>, Store)
  {
    var (o, st') := CreateMeshSource(pts, invert, name, meshesCache, st, neuriteRadius, somaRadius, useCache);
    (PaintSource(o, ParseMeshKwargs(kw)), st')
  }

  // -------------------------------------------------------------- the neuron

  /** pathlib's `Path(p).name`: the last component, trailing slashes ignored. */
  function PathName(p: string): string
    decreases |p|
  {
    if |p| > 0 && p[|p| - 1] == '/' then PathName(p[..|p| - 1]) else Basename(p)
  }

  /** `Path(p).suffix[1:]`: what follows the last dot of the name, when that dot is
      neither the name's first nor its last character; otherwise "". */
  function FileType(p: string): (t: string)
    ensures '.' !in t
  {
    NameSuffix(PathName(p))
  }

  /** What follows the last dot of a file name, when that dot is neither its first nor
      its last character; otherwise "". */
  function NameSuffix(name: string): (t: string)
    ensures '.' !in t
  {
    var i := LastIndexOf(name, '.');
    if 0 < i < |name| - 1 then name[i + 1..] else ""
  }

  /** `load_from_file` and `load_from_swc`: a missing file is a ValueError and a json
      file NotImplementedError; an SWC file is repaired in place and handed to NeuroM. */
  function LoadPoints(dataFile: string, swcFiles: map<string, string>, neurom: string -> Morph): (r: Result<(Points, map<string, string>)>)
    ensures r.Ok? ==> dataFile in swcFiles && FileType(dataFile) != "json"
    ensures r.Ok? ==> r.value.1 == swcFiles[dataFile := RepairText(swcFiles[dataFile])]
    ensures dataFile !in swcFiles ==> r.Err? && r.error.ValueError?
  {
    if dataFile !in swcFiles then Err(ValueError("The specified path does not exist!"))
    else if FileType(dataFile) == "json" then Err(NotImplementedError(""))
    else
      var repaired := RepairText(swcFiles[dataFile]);
      Ok((PointsOf(neurom(repaired)), swcFiles[dataFile := repaired]))
  }

  /** A neuron: its data file, name, orientation flag, loaded points (None when the file
      was not loaded) and the mesh cache it reads and writes. */
  class Neuron {
    const dataFile: string
    const invertDims: bool
    const neuronName: string
    const points: Option<Points>
    const cache: NeuronCache

    constructor (dataFile: string, neuronName: string, invertDims: bool, points: Option<Points>, cache: NeuronCache)
      ensures this.dataFile == dataFile && this.neuronName == neuronName && this.invertDims == invertDims
      ensures this.points == points && this.cache == cache
    {
      this.dataFile := dataFile;
      this.neuronName := neuronName;
      this.invertDims := invertDims;
      this.points := points;
      this.cache := cache;
    }

    /** `create_mesh`; `warnings` are the messages logged. */
    method CreateMesh(neuriteRadius: Radius, somaRadius: Radius, useCache: bool, kw: MeshKwargs)
      returns (r: Result<Option<NeuronMeshes>>, warnings: seq<string>)
      modifies cache
      ensures (r, cache.State()) == CreateMeshSpec(points, invertDims, neuronName, cache.meshesCache, old(cache.State()),
                                                   neuriteRadius, somaRadius, useCache, kw)
      ensures warnings == (if points.None? then [NoDataWarning] else [])
    {
      if points.None? {
        return Ok(None), [NoDataWarning];
      }
      warnings := [];
      var colors := ParseMeshKwargs(kw);
      var src := LoadOrBuild(neuriteRadius, somaRadius, useCache);
      r := PaintSource(src, colors);
    }

    /** The part of `create_mesh` that does not depend on colours: the radius checks,
        the cache lookup and, on a miss, generating the meshes and writing them. */
    method LoadOrBuild(neuriteRadius: Radius, somaRadius: Radius, useCache: bool) returns (src: Result<Option<Source>>)
      requires points.Some?
      modifies cache
      ensures (src, cache.State()) == CreateMeshSource(points, invertDims, neuronName, cache.meshesCache, old(cache.State()),
                                                       neuriteRadius, somaRadius, useCache)
    {
      if !ValidRadius(neuriteRadius) {
        return Err(ValueError("Invalid value for parameter neurite_radius, should be a float > 0"));
      }
      if !ValidRadius(somaRadius) {
        return Err(ValueError("Invalid value for parameter soma_radius, should be a float > 0"));
      }
      var params := CacheParams(neuriteRadius.value, somaRadius.value);
      var cached: Result<Option<Loaded>> := Ok(None);
      if useCache {
        cached := cache.LoadCachedNeuron(neuronName, params);
      }
      if cached.Err? {
        return Err(cached.error);
      }
      if cached.value.Some? {
        return Ok(Some(CacheHit(cached.value.value)));
      }
      var g := BuildMeshes(points.value, neuriteRadius.value, somaRadius.value);
      var raised := cache.WriteNeuronToCache(neuronName, Dict(ToWrite(g)), params);
      if raised.Some? {
        return Err(raised.value);
      }
      return Ok(Some(CacheMiss(g)));
    }

    /** The cache-miss branch of `create_mesh`: the soma sphere, the tube loops per
        neurite type and the merge into the whole neuron. */
    method BuildMeshes(p: Points, neuriteRadius: real, somaRadius: real) returns (g: Generated)
      ensures g == Generate(p, invertDims, neuriteRadius, somaRadius)
    {
      var soma := SomaMesh(p.soma, invertDims, somaRadius);
      var basal := TypeActors(p.basal, neuriteRadius);
      var apical := TypeActors(p.apical, neuriteRadius);
      var axon := TypeActors(p.axon, neuriteRadius);
      var whole := Merge([soma] + Present([basal, apical, axon]));
      g := Generated(soma, basal, apical, axon, whole);
    }

    method TypeActors(sections: seq<Section>, neuriteRadius: real) returns (m: Option<Mesh>)
      ensures m == TypeMesh(sections, invertDims, neuriteRadius)
    {
      var actors := NeuriteTypeTubes(sections, invertDims, neuriteRadius);
      if |actors| > 0 {
        m := Some(Merge(actors));
      } else {
        m := None;
      }
    }
  }

  /** `Neuron(data_file, neuron_name, invert_dims, load_file)`: the file type must be
      "swc" or "json"; the name defaults to the file's name; with `load_file` the file is
      loaded (and repaired on disk), otherwise there are no points. */
  method NewNeuron(dataFile: string, neuronName: Option<string>, invertDims: bool, loadFile: bool,
                   swcFiles: map<string, string>, neurom: string -> Morph, cache: NeuronCache)
    returns (r: Result<Neuron>, swcFiles': map<string, string>)
    ensures FileType(dataFile) != "swc" && FileType(dataFile) != "json" ==> r.Err? && r.error.ValueError? && swcFiles' == swcFiles
    ensures r.Ok? ==> FileType(dataFile) == "swc" || FileType(dataFile) == "json"
    ensures r.Ok? ==> r.value.neuronName == neuronName.GetOr(PathName(dataFile)) && r.value.dataFile == dataFile
    ensures r.Ok? ==> r.value.invertDims == invertDims && r.value.cache == cache
    ensures r.Ok? && !loadFile ==> r.value.points.None? && swcFiles' == swcFiles
    ensures (FileType(dataFile) == "swc" || FileType(dataFile) == "json") && loadFile ==>
      var loaded := LoadPoints(dataFile, swcFiles, neurom);
      && (r.Ok? <==> loaded.Ok?)
      && (r.Ok? ==> r.value.points == Some(loaded.value.0) && swcFiles' == loaded.value.1)
      && (r.Err? ==> r.error == loaded.error)
  {
    var fileType := FileType(dataFile);
    swcFiles' := swcFiles;
    if fileType != "swc" && fileType != "json" {
      return Err(ValueError("Invalid data file type, should be swc or jon")), swcFiles';
    }
    var name := if neuronName.None? then PathName(dataFile) else neuronName.value;
    var points: Option<Points> := None;
    if loadFile {
      var loaded := LoadPoints(dataFile, swcFiles, neurom);
      if loaded.Err? {
        return Err(loaded.error), swcFiles';
      }
      points := Some(loaded.value.0);
      swcFiles' := loaded.value.1;
    }
    var n := new Neuron(dataFile, name, invertDims, points, cache);
    return Ok(n), swcFiles';
  }

  // ------------------------------------------------------------------ lemmas

  /** Every section the walk draws for these neurites has at least one point. */
  predicate DrawnHavePoints(sections: seq<Section>) {
    forall i :: 0 <= i < |DrawnAll(sections)| ==> |DrawnAll(sections)[i].points| > 0
  }

  /** A neurite type's mesh has vertices when its first drawn section has points. */
  lemma TypeMeshHasPoints(sections: seq<Section>, invert: bool, neuriteRadius: real)
    requires DrawnHavePoints(sections)
    ensures var m := TypeMesh(sections, invert, neuriteRadius);
            m.Some? ==> PointCount(m.value) > 0
  {
    var ds := DrawnAll(sections);
    var actors := Tubes(ds, invert, neuriteRadius);
    if |actors| > 0 {
      assert actors[0].shapes == [Tube(OrientedAll(ds[0].points, invert), neuriteRadius)];
      MergeFirstShape(actors);
      PointCountPositive(Merge(actors).shapes, 0);
    }
  }

  /** The soma sphere and the whole neuron always have vertices, since the whole
      neuron's first primitive is the soma sphere. */
  lemma SomaAndWholeHavePoints(p: Points, invert: bool, neuriteRadius: real, somaRadius: real)
    ensures var g := Generate(p, invert, neuriteRadius, somaRadius);
            && |g.whole.shapes| > 0 && g.whole.shapes[0] == g.soma.shapes[0] == Sphere(Oriented(p.soma.centre, invert), p.soma.radius * somaRadius)
            && PointCount(g.soma) > 0 && PointCount(g.whole) > 0
  {
    var g := Generate(p, invert, neuriteRadius, somaRadius);
    var parts := [g.soma] + Present([g.basal, g.apical, g.axon]);
    assert parts[0] == g.soma;
    MergeFirstShape(parts);
    PointCountPositive(g.soma.shapes, 0);
    PointCountPositive(g.whole.shapes, 0);
  }

  /** Every generated mesh has vertices. */
  predicate HasPoints(g: Generated) {
    && PointCount(g.soma) > 0 && PointCount(g.whole) > 0
    && (g.basal.Some? ==> PointCount(g.basal.value) > 0)
    && (g.apical.Some? ==> PointCount(g.apical.value) > 0)
    && (g.axon.Some? ==> PointCount(g.axon.value) > 0)
  }

  /** When every drawn section has points, every generated mesh has vertices. */
  lemma GeneratedHasPoints(p: Points, invert: bool, neuriteRadius: real, somaRadius: real)
    requires DrawnHavePoints(p.basal) && DrawnHavePoints(p.apical) && DrawnHavePoints(p.axon)
    ensures HasPoints(Generate(p, invert, neuriteRadius, somaRadius))
  {
    SomaAndWholeHavePoints(p, invert, neuriteRadius, somaRadius);
    TypeMeshHasPoints(p.basal, invert, neuriteRadius);
    TypeMeshHasPoints(p.apical, invert, neuriteRadius);
    TypeMeshHasPoints(p.axon, invert, neuriteRadius);
  }

  /** What comes back from the cache file of one generated mesh, as a load would
      return it: the mesh itself, or None for a neurite type with no tubes. */
  lemma ReadBackEntry(g: Generated, k: nat)
    requires k < 5
    requires HasPoints(g)
    ensures var e := ToWrite(g)[k];
            (e.0 == "whole_neuron" ==> e.1.MeshActor?) &&
            Normalise(WrittenMesh(e.0, e.1)) == [Some(g.soma), g.axon, g.apical, g.basal, Some(g.whole)][WriteOrder[k]]
  {
    if k != 4 {
      ComponentsDistinct(WriteOrder[k], 4);
    }
  }

  /** Writing the generated meshes and loading them back gives them again, in
      `Components` order, provided they all have vertices (a mesh with none comes back
      as None). */
  lemma WriteThenLoadGenerated(g: Generated, st: Store, meshesCache: string, name: string, params: Params)
    requires HasPoints(g)
    ensures var (st', err) := WriteNeuron(st, meshesCache, name, Dict(ToWrite(g)), params);
            && err.None?
            && LoadCached(st', meshesCache, name, params) == Ok(Some([Some(g.soma), g.axon, g.apical, g.basal, Some(g.whole)]))
  {
    var es := ToWrite(g);
    ToWriteFull(g);
    WriteThenLoad(st, meshesCache, name, es, params);
    var st' := WriteNeuron(st, meshesCache, name, Dict(es), params).0;
    var loaded := LoadCached(st', meshesCache, name, params).value.value;
    LoadedInOrder(g, loaded);
  }

  lemma LoadedInOrder(g: Generated, loaded: Loaded)
    requires FullEntries(ToWrite(g)) && |loaded| == 5
    requires HasPoints(g)
    requires forall i :: 0 <= i < 5 ==> loaded[ComponentIndex(ToWrite(g)[i].0)] == Normalise(WrittenMesh(ToWrite(g)[i].0, ToWrite(g)[i].1))
    ensures loaded == [Some(g.soma), g.axon, g.apical, g.basal, Some(g.whole)]
  {
    var es := ToWrite(g);
    var expected := [Some(g.soma), g.axon, g.apical, g.basal, Some(g.whole)];
    forall j | 0 <= j < 5 ensures loaded[j] == expected[j] {
      var k := if j == 0 then 0 else if j == 3 then 1 else if j == 2 then 2 else if j == 1 then 3 else 4;
      assert WriteOrder[k] == j;
      ComponentIndexOf(j);
      ReadBackEntry(g, k);
      assert loaded[ComponentIndex(es[k].0)] == Normalise(WrittenMesh(es[k].0, es[k].1));
    }
  }

  /** A call that does not regenerate (use_cache false) writes the cache, and an
      identical call with use_cache set then loads it and returns the same meshes and
      colours, leaving the cache as it was. */
  lemma CreateThenReload(p: Points, invert: bool, name: string, meshesCache: string, st: Store,
                         neuriteRadius: real, somaRadius: real, kw: MeshKwargs)
    requires neuriteRadius > 0.0 && somaRadius > 0.0
    requires DrawnHavePoints(p.basal) && DrawnHavePoints(p.apical) && DrawnHavePoints(p.axon)
    ensures var first := CreateMeshSpec(Some(p), invert, name, meshesCache, st, Number(neuriteRadius), Number(somaRadius), false, kw);
            && first.0 == Ok(Some(PaintGenerated(Generate(p, invert, neuriteRadius, somaRadius), ParseMeshKwargs(kw))))
            && CreateMeshSpec(Some(p), invert, name, meshesCache, first.1, Number(neuriteRadius), Number(somaRadius), true, kw) == first
  {
    var g := Generate(p, invert, neuriteRadius, somaRadius);
    var params := CacheParams(neuriteRadius, somaRadius);
    GeneratedHasPoints(p, invert, neuriteRadius, somaRadius);
    WriteThenLoadGenerated(g, st, meshesCache, name, params);
    SourceOnMiss(p, invert, name, meshesCache, st, neuriteRadius, somaRadius, false);
    var st' := WriteNeuron(st, meshesCache, name, Dict(ToWrite(g)), params).0;
    var loaded := [Some(g.soma), g.axon, g.apical, g.basal, Some(g.whole)];
    SourceOnHit(p, invert, name, meshesCache, st', neuriteRadius, somaRadius, loaded);
    assert PaintLoaded(loaded, ParseMeshKwargs(kw)) == Ok(PaintGenerated(g, ParseMeshKwargs(kw)));
  }

  /** With valid radii and a cache hit, the loaded meshes are used and nothing is
      written. */
  lemma SourceOnHit(p: Points, invert: bool, name: string, meshesCache: string, st: Store,
                    neuriteRadius: real, somaRadius: real, loaded: Loaded)
    requires neuriteRadius > 0.0 && somaRadius > 0.0
    requires LoadCached(st, meshesCache, name, CacheParams(neuriteRadius, somaRadius)) == Ok(Some(loaded))
    ensures CreateMeshSource(Some(p), invert, name, meshesCache, st, Number(neuriteRadius), Number(somaRadius), true)
              == (Ok(Some(CacheHit(loaded))), st)
  {
  }

  /** After a call with one neurite radius, a call with another regenerates the meshes
      even with use_cache set: the stored parameters differ. */
  lemma RadiusChangeRegenerates(p: Points, invert: bool, name: string, meshesCache: string, st: Store,
                                neuriteRadius: real, somaRadius: real, kw: MeshKwargs, newRadius: real, kw': MeshKwargs)
    requires neuriteRadius > 0.0 && somaRadius > 0.0 && newRadius > 0.0 && newRadius != neuriteRadius
    ensures var st' := CreateMeshSpec(Some(p), invert, name, meshesCache, st, Number(neuriteRadius), Number(somaRadius), false, kw).1;
            CreateMeshSpec(Some(p), invert, name, meshesCache, st', Number(newRadius), Number(somaRadius), true, kw')
              == CreateMeshSpec(Some(p), invert, name, meshesCache, st', Number(newRadius), Number(somaRadius), false, kw')
  {
    var g := Generate(p, invert, neuriteRadius, somaRadius);
    var st' := WriteNeuron(st, meshesCache, name, Dict(ToWrite(g)), CacheParams(neuriteRadius, somaRadius)).0;
    SourceOnMiss(p, invert, name, meshesCache, st, neuriteRadius, somaRadius, false);
    ChangedParamsMiss(st', meshesCache, name, CacheParams(newRadius, somaRadius), "neurite_radius");
    SourceOnMiss(p, invert, name, meshesCache, st', newRadius, somaRadius, true);
    SourceOnMiss(p, invert, name, meshesCache, st', newRadius, somaRadius, false);
  }

  /** With valid radii and no cache hit, the meshes are generated and written. */
  lemma SourceOnMiss(p: Points, invert: bool, name: string, meshesCache: string, st: Store,
                     neuriteRadius: real, somaRadius: real, useCache: bool)
    requires neuriteRadius > 0.0 && somaRadius > 0.0
    requires useCache ==> LoadCached(st, meshesCache, name, CacheParams(neuriteRadius, somaRadius)) == Ok(None)
    ensures var g := Generate(p, invert, neuriteRadius, somaRadius);
            var (st', err) := WriteNeuron(st, meshesCache, name, Dict(ToWrite(g)), CacheParams(neuriteRadius, somaRadius));
            CreateMeshSource(Some(p), invert, name, meshesCache, st, Number(neuriteRadius), Number(somaRadius), useCache)
              == (if err.Some? then Err(err.value) else Ok(Some(CacheMiss(g))), st')
  {
  }

  /** The colour options decide nothing but colours: the cache afterwards, whether the
      call fails and the meshes returned are the same whatever they are. */
  lemma ColorsOnlyPaint(pts: Option<Points>, invert: bool, name: string, meshesCache: string, st: Store,
                        neuriteRadius: Radius, somaRadius: Radius, useCache: bool, kw: MeshKwargs, kw': MeshKwargs)
    ensures var a := CreateMeshSpec(pts, invert, name, meshesCache, st, neuriteRadius, somaRadius, useCache, kw);
            var b := CreateMeshSpec(pts, invert, name, meshesCache, st, neuriteRadius, somaRadius, useCache, kw');
            && a.1 == b.1
            && a.0.Ok? == b.0.Ok?
            && (a.0.Err? ==> a.0.error == b.0.error)
            && (a.0.Ok? ==> a.0.value.None? == b.0.value.None?)
            && (a.0.Ok? && a.0.value.Some? ==> Uncoloured(a.0.value.value) == Uncoloured(b.0.value.value))
  {
    var o := CreateMeshSource(pts, invert, name, meshesCache, st, neuriteRadius, somaRadius, useCache).0;
    if o.Ok? && o.value.Some? {
      var c, c' := ParseMeshKwargs(kw), ParseMeshKwargs(kw');
      match o.value.value
      case CacheHit(loaded) => PaintLoadedUncoloured(loaded, c, c');
      case CacheMiss(g) => PaintGeneratedUncoloured(g, c, c');
    }
  }

  lemma PaintLoadedUncoloured(loaded: Loaded, c: Colors, c': Colors)
    requires |loaded| == 5
    ensures PaintLoaded(loaded, c).Err? ==> PaintLoaded(loaded, c') == PaintLoaded(loaded, c)
    ensures PaintLoaded(loaded, c).Ok? ==>
              Uncoloured(PaintLoaded(loaded, c).value) == Uncoloured(PaintLoaded(loaded, c').value)
  {
  }

  lemma PaintGeneratedUncoloured(g: Generated, c: Colors, c': Colors)
    ensures Uncoloured(PaintGenerated(g, c)) == Uncoloured(PaintGenerated(g, c'))
  {
  }

  /** The meshes of a result without their colours. */
  function Uncoloured(n: NeuronMeshes): (Mesh, Option<Mesh>, Option<Mesh>, Option<Mesh>, Mesh) {
    (n.soma.mesh, if n.basal.Some? then Some(n.basal.value.mesh) else None,
     if n.apical.Some? then Some(n.apical.value.mesh) else None,
     if n.axon.Some? then Some(n.axon.value.mesh) else None, n.whole.mesh)
  }

  /** With no points, or with an invalid radius, nothing is written to the cache; an
      invalid radius is a ValueError. */
  lemma RejectedCallsWriteNothing(pts: Option<Points>, invert: bool, name: string, meshesCache: string, st: Store,
                                  neuriteRadius: Radius, somaRadius: Radius, useCache: bool, kw: MeshKwargs)
    requires pts.None? || !ValidRadius(neuriteRadius) || !ValidRadius(somaRadius)
    ensures var (r, st') := CreateMeshSpec(pts, invert, name, meshesCache, st, neuriteRadius, somaRadius, useCache, kw);
            && st' == st
            && (pts.None? ==> r == Ok(None))
            && (pts.Some? ==> r.Err? && r.error.ValueError?)
  {
  }

  // ------------------------------------------------------------- orientation

  function SwapOpt(m: Option<Mesh>): Option<Mesh> {
    if m.Some? then Some(SwapMesh(m.value)) else None
  }

  function SwapGenerated(g: Generated): Generated {
    Generated(SwapMesh(g.soma), SwapOpt(g.basal), SwapOpt(g.apical), SwapOpt(g.axon), SwapMesh(g.whole))
  }

  lemma {:induction false} PresentSwap(ms: seq<Option<Mesh>>)
    ensures Present(seq(|ms|, i requires 0 <= i < |ms| => SwapOpt(ms[i]))) == SwapMeshes(Present(ms))
    decreases |ms|
  {
    if |ms| > 0 {
      var front := ms[..|ms| - 1];
      var swapped := seq(|ms|, i requires 0 <= i < |ms| => SwapOpt(ms[i]));
      assert swapped[..|ms| - 1] == seq(|front|, i requires 0 <= i < |front| => SwapOpt(front[i]));
      PresentSwap(front);
      var last := if ms[|ms| - 1].Some? then [ms[|ms| - 1].value] else [];
      assert SwapMeshes(Present(front) + last) == SwapMeshes(Present(front)) + SwapMeshes(last);
    }
  }

  lemma TypeMeshSwap(sections: seq<Section>, neuriteRadius: real)
    ensures TypeMesh(sections, true, neuriteRadius) == SwapOpt(TypeMesh(sections, false, neuriteRadius))
  {
    var ds := DrawnAll(sections);
    var plain := Tubes(ds, false, neuriteRadius);
    forall i | 0 <= i < |ds| ensures Tubes(ds, true, neuriteRadius)[i] == SwapMeshes(plain)[i] {
      assert SwapMesh(plain[i]).shapes == [Tube(SwapAll(ds[i].points), neuriteRadius)];
    }
    assert Tubes(ds, true, neuriteRadius) == SwapMeshes(plain);
    SwapMerge(plain);
  }

  lemma SomaSwap(soma: Soma, somaRadius: real)
    ensures SomaMesh(soma, true, somaRadius) == SwapMesh(SomaMesh(soma, false, somaRadius))
  {
    assert SwapMesh(SomaMesh(soma, false, somaRadius)).shapes == SomaMesh(soma, true, somaRadius).shapes;
  }

  lemma WholeSwap(soma: Mesh, basal: Option<Mesh>, apical: Option<Mesh>, axon: Option<Mesh>)
    ensures Merge([SwapMesh(soma)] + Present([SwapOpt(basal), SwapOpt(apical), SwapOpt(axon)]))
         == SwapMesh(Merge([soma] + Present([basal, apical, axon])))
  {
    var opts := [basal, apical, axon];
    PresentSwap(opts);
    assert seq(|opts|, i requires 0 <= i < |opts| => SwapOpt(opts[i])) == [SwapOpt(basal), SwapOpt(apical), SwapOpt(axon)];
    var parts := [soma] + Present(opts);
    assert SwapMeshes(parts) == [SwapMesh(soma)] + SwapMeshes(Present(opts));
    SwapMerge(parts);
  }

  /** `invert_dims` permutes the axes of every primitive of every mesh, the soma
      sphere's centre and each tube's polyline alike, and changes nothing else. */
  lemma InvertSwapsEverything(p: Points, neuriteRadius: real, somaRadius: real)
    ensures Generate(p, true, neuriteRadius, somaRadius) == SwapGenerated(Generate(p, false, neuriteRadius, somaRadius))
  {
    var g := Generate(p, false, neuriteRadius, somaRadius);
    SomaSwap(p.soma, somaRadius);
    TypeMeshSwap(p.basal, neuriteRadius);
    TypeMeshSwap(p.apical, neuriteRadius);
    TypeMeshSwap(p.axon, neuriteRadius);
    WholeSwap(g.soma, g.basal, g.apical, g.axon);
  }

  // ------------------------------------------------------------------ files

  /** The file type is what the file's name ends with after a dot. */
  lemma FileTypeIsSuffix(p: string)
    ensures FileType(p) != "" ==> EndsWith(PathName(p), "." + FileType(p))
  {
    NameSuffixIsSuffix(PathName(p));
  }

  lemma NameSuffixIsSuffix(name: string)
    ensures NameSuffix(name) != "" ==> EndsWith(name, "." + NameSuffix(name))
  {
    var i := LastIndexOf(name, '.');
    if 0 < i < |name| - 1 {
      var t := name[i + 1..];
      assert "." + t == name[i..];
      assert name[|name| - |name[i..]|..] == name[i..];
    }
  }

  /** Loading a file a second time sees the file the first load repaired and leaves it
      as it is: the same points and the same files. */
  lemma LoadTwice(dataFile: string, swcFiles: map<string, string>, neurom: string -> Morph)
    requires LoadPoints(dataFile, swcFiles, neurom).Ok?
    ensures var first := LoadPoints(dataFile, swcFiles, neurom).value;
            LoadPoints(dataFile, first.1, neurom) == Ok(first)
  {
    var text := swcFiles[dataFile];
    var repaired := RepairText(text);
    var files' := swcFiles[dataFile := repaired];
    LoadPointsOk(dataFile, swcFiles, neurom);
    RepairTextIdempotent(text);
    assert RepairText(files'[dataFile]) == repaired;
    UpdateSame(files', dataFile);
    LoadPointsOk(dataFile, files', neurom);
  }

  lemma UpdateSame(m: map<string, string>, k: string)
    requires k in m
    ensures m[k := m[k]] == m
  {
  }

  /** A present, non-json file loads: its text is repaired and handed to NeuroM. */
  lemma LoadPointsOk(dataFile: string, swcFiles: map<string, string>, neurom: string -> Morph)
    requires dataFile in swcFiles && FileType(dataFile) != "json"
    ensures var repaired := RepairText(swcFiles[dataFile]);
            LoadPoints(dataFile, swcFiles, neurom) == Ok((PointsOf(neurom(repaired)), swcFiles[dataFile := repaired]))
  {
  }
}
