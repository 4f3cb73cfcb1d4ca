/** `MouseLightAPI` and the metadata queries of morphapi/api/mouselight.py: neurons of
    the Janelia MouseLight project. The GraphQL server and the tracings endpoint are
    functions from a request to its answer; the Allen structure tree is a pair of maps;
    the downloaded .json files are a map from path to content. */
module MouseLight {
  import opened Wrappers
  import opened PyStr
  import opened Values
  import DataIo

  // ------------------------------------------------------------- records

  /** The `node` namedtuple: a tracing's soma sample. */
  datatype SomaNode = SomaNode(x: Json, y: Json, z: Json, r: Json, areaAcronym: Json, sampleN: Json, parentN: Json)

  /** The `tracing_structure` namedtuple. */
  datatype TracingStructure = TracingStructure(id: Json, name: Json, value: Json, namedId: Json)

  /** A neuron's `brainArea` as the server sends it. */
  datatype BrainArea = BrainArea(id: Json, acronym: string, name: Json, safeName: Json, atlasId: Json,
                                 aliases: Json, structureIdPath: Json)

  /** One of a neuron's `tracings` as the server sends it. */
  datatype RawTracing = RawTracing(id: Json, soma: SomaNode, structureName: Json, structureValue: Json, structureId: Json)

  /** One entry of `searchNeurons.neurons`. */
  datatype RawNeuron = RawNeuron(id: Json, idNumber: Json, idString: string, tag: Json,
                                 brainArea: Option<BrainArea>, tracings: seq<RawTracing>)

  /** The `clean_neuron` dict; None is `Option.None`. */
  datatype CleanNeuron = CleanNeuron(
    brainAreaAcronym: Option<string>, brainAreaId: Option<Json>, brainAreaName: Option<Json>,
    brainAreaSafeName: Option<Json>, brainAreaAtlasId: Option<Json>, brainAreaAliases: Option<Json>,
    brainAreaStructureIdPath: Option<Json>,
    id: Json, idNumber: Json, idString: string, tag: Json,
    soma: SomaNode, axon: Option<TracingStructure>, dendrite: Option<TracingStructure>)

  /** All seven brain-area fields are None. */
  predicate NoBrainArea(c: CleanNeuron) {
    && c.brainAreaAcronym.None? && c.brainAreaId.None? && c.brainAreaName.None?
    && c.brainAreaSafeName.None? && c.brainAreaAtlasId.None? && c.brainAreaAliases.None?
    && c.brainAreaStructureIdPath.None?
  }

  // ------------------------------------------------------------ cleaning

  function StructureOf(t: RawTracing): TracingStructure {
    TracingStructure(t.id, t.structureName, t.structureValue, t.structureId)
  }

  /** The body of the cleaning loop of `mouselight_fetch_neurons_metadata`: the
      brain-area fields, the dendrite from the second tracing when there is one, and the
      soma and axon from the first, whose absence is an IndexError. */
  function Clean(n: RawNeuron): (r: Result<CleanNeuron>)
    ensures r.Ok? <==> |n.tracings| > 0
    ensures r.Err? ==> r.error.IndexError?
    ensures r.Ok? ==> (n.brainArea.None? <==> NoBrainArea(r.value))
    ensures r.Ok? && n.brainArea.Some? ==> r.value.brainAreaAcronym == Some(n.brainArea.value.acronym)
    ensures r.Ok? ==> (r.value.dendrite.Some? <==> |n.tracings| > 1)
    ensures r.Ok? && |n.tracings| > 1 ==> r.value.dendrite == Some(StructureOf(n.tracings[1]))
    ensures r.Ok? ==> r.value.axon == Some(StructureOf(n.tracings[0])) && r.value.soma == n.tracings[0].soma
    ensures r.Ok? ==> r.value.idString == n.idString
  {
    if |n.tracings| == 0 then Err(IndexError("list index out of range"))
    else
      var dendrite := if |n.tracings| > 1 then Some(StructureOf(n.tracings[1])) else None;
      match n.brainArea
      case None =>
        Ok(CleanNeuron(None, None, None, None, None, None, None, n.id, n.idNumber, n.idString, n.tag,
                       n.tracings[0].soma, Some(StructureOf(n.tracings[0])), dendrite))
      case Some(a) =>
        Ok(CleanNeuron(Some(a.acronym), Some(a.id), Some(a.name), Some(a.safeName), Some(a.atlasId),
                       Some(a.aliases), Some(a.structureIdPath), n.id, n.idNumber, n.idString, n.tag,
                       n.tracings[0].soma, Some(StructureOf(n.tracings[0])), dendrite))
  }

  /** The cleaning loop over the neurons still to clean, after those cleaned so far. */
  function CleanFrom(acc: seq<CleanNeuron>, ns: seq<RawNeuron>): Result<seq<CleanNeuron>>
    decreases |ns|
  {
    if |ns| == 0 then Ok(acc)
    else
      var c :- Clean(ns[0]);
      CleanFrom(acc + [c], ns[1..])
  }

  /** The cleaning loop. */
  method CleanNeurons(ns: seq<RawNeuron>) returns (r: Result<seq<CleanNeuron>>)
    ensures r == CleanFrom([], ns)
  {
    var cleaned: seq<CleanNeuron> := [];
    var k := 0;
    while k < |ns|
      invariant 0 <= k <= |ns|
      invariant CleanFrom(cleaned, ns[k..]) == CleanFrom([], ns)
    {
      assert ns[k..][1..] == ns[k + 1..];
      var c :- Clean(ns[k]);
      cleaned := cleaned + [c];
      k := k + 1;
    }
    assert ns[k..] == [];
    return Ok(cleaned);
  }

  /** Cleaning fails exactly when some neuron has no tracing; otherwise it gives one
      record per neuron, in order. */
  lemma {:induction false} CleanOnePerNeuron(acc: seq<CleanNeuron>, ns: seq<RawNeuron>)
    ensures CleanFrom(acc, ns).Ok? <==> forall i :: 0 <= i < |ns| ==> |ns[i].tracings| > 0
    ensures CleanFrom(acc, ns).Ok? ==>
              var r := CleanFrom(acc, ns).value;
              && |r| == |acc| + |ns|
              && (forall i :: 0 <= i < |acc| ==> r[i] == acc[i])
              && (forall i :: 0 <= i < |ns| ==> r[|acc| + i] == Clean(ns[i]).value)
    decreases |ns|
  {
    if |ns| > 0 && Clean(ns[0]).Ok? {
      var c := Clean(ns[0]).value;
      CleanOnePerNeuron(acc + [c], ns[1..]);
      assert forall i :: 1 <= i < |ns| ==> ns[i] == ns[1..][i - 1];
      if CleanFrom(acc, ns).Ok? {
        var r := CleanFrom(acc, ns).value;
        forall i | 0 <= i < |ns|
          ensures r[|acc| + i] == Clean(ns[i]).value
        {
          if i > 0 {
            assert |acc + [c]| + (i - 1) == |acc| + i;
          }
        }
      }
    }
  }

  // --------------------------------------------------------- soma filter

  /** The Allen structure tree: structure ids by acronym, and each structure's
      ancestor ids (itself included). An unknown acronym or id is a KeyError. */
  datatype StructureTree = StructureTree(idOf: map<string, int>, ancestors: map<int, seq<int>>)

  /** The ids of the filter regions, in order. */
  function RegionIds(tree: StructureTree, acronyms: seq<string>): (r: Result<seq<int>>)
    ensures r.Ok? <==> forall i :: 0 <= i < |acronyms| ==> acronyms[i] in tree.idOf
    ensures r.Ok? ==> |r.value| == |acronyms| && forall i :: 0 <= i < |acronyms| ==> r.value[i] == tree.idOf[acronyms[i]]
    ensures r.Err? ==> r.error.KeyError?
    decreases |acronyms|
  {
    if |acronyms| == 0 then Ok([])
    else if acronyms[0] !in tree.idOf then Err(KeyError(acronyms[0]))
    else
      var rest :- RegionIds(tree, acronyms[1..]);
      assert forall i :: 1 <= i < |acronyms| ==> acronyms[i] == acronyms[1..][i - 1];
      Ok([tree.idOf[acronyms[0]]] + rest)
  }

  /** The tree knows a soma region: its acronym and its ancestors. */
  predicate Known(tree: StructureTree, a: string) {
    a in tree.idOf && tree.idOf[a] in tree.ancestors
  }

  /** Whether the soma filter keeps a neuron: it has a soma region, and one of the
      region's ancestors is a filter region; a region unknown to the tree is a KeyError. */
  function KeepsSoma(tree: StructureTree, ids: seq<int>, n: CleanNeuron): (r: Result<bool>)
    ensures n.brainAreaAcronym.None? ==> r == Ok(false)
    ensures r.Err? <==> n.brainAreaAcronym.Some? && !Known(tree, n.brainAreaAcronym.value)
    ensures r.Err? ==> r.error.KeyError?
    ensures r.Ok? && n.brainAreaAcronym.Some? ==>
              (r.value <==> exists i :: 0 <= i < |ids| && ids[i] in tree.ancestors[tree.idOf[n.brainAreaAcronym.value]])
  {
    match n.brainAreaAcronym
    case None => Ok(false)
    case Some(a) =>
      if a !in tree.idOf then Err(KeyError(a))
      else
        var region := tree.idOf[a];
        if region !in tree.ancestors then Err(KeyError(IntStr(region)))
        else Ok(DataIo.IsAnyItemInList(ids, tree.ancestors[region]))
  }

  /** The filter loop over the neurons still to test, after those kept so far. */
  function FilterFrom(tree: StructureTree, ids: seq<int>, acc: seq<CleanNeuron>, ns: seq<CleanNeuron>): Result<seq<CleanNeuron>>
    decreases |ns|
  {
    if |ns| == 0 then Ok(acc)
    else
      var keep :- KeepsSoma(tree, ids, ns[0]);
      FilterFrom(tree, ids, if keep then acc + [ns[0]] else acc, ns[1..])
  }

  /** The neurons the filter keeps, in order, once every soma region is known. */
  function Kept(tree: StructureTree, ids: seq<int>, ns: seq<CleanNeuron>): (r: seq<CleanNeuron>)
    ensures |r| <= |ns|
    decreases |ns|
  {
    if |ns| == 0 then []
    else (if KeepsSoma(tree, ids, ns[0]) == Ok(true) then [ns[0]] else []) + Kept(tree, ids, ns[1..])
  }

  /** The filter loop of `mouselight_fetch_neurons_metadata`. */
  method FilterBySoma(tree: StructureTree, ids: seq<int>, ns: seq<CleanNeuron>) returns (r: Result<seq<CleanNeuron>>)
    ensures r == FilterFrom(tree, ids, [], ns)
  {
    var filtered: seq<CleanNeuron> := [];
    var k := 0;
    while k < |ns|
      invariant 0 <= k <= |ns|
      invariant FilterFrom(tree, ids, filtered, ns[k..]) == FilterFrom(tree, ids, [], ns)
    {
      assert ns[k..][1..] == ns[k + 1..];
      var neuron := ns[k];
      k := k + 1;
      if neuron.brainAreaAcronym.None? {
        continue;
      }
      var a := neuron.brainAreaAcronym.value;
      if a !in tree.idOf {
        return Err(KeyError(a));
      }
      var region := tree.idOf[a];
      if region !in tree.ancestors {
        return Err(KeyError(IntStr(region)));
      }
      if DataIo.IsAnyItemInList(ids, tree.ancestors[region]) {
        filtered := filtered + [neuron];
      }
    }
    assert ns[k..] == [];
    return Ok(filtered);
  }

  /** The filter fails exactly when some neuron's soma region is unknown to the tree;
      otherwise it keeps, in input order, the neurons the test keeps. */
  lemma {:induction false} FilterIsKept(tree: StructureTree, ids: seq<int>, acc: seq<CleanNeuron>, ns: seq<CleanNeuron>)
    ensures FilterFrom(tree, ids, acc, ns).Ok? <==> forall i :: 0 <= i < |ns| ==> KeepsSoma(tree, ids, ns[i]).Ok?
    ensures FilterFrom(tree, ids, acc, ns).Ok? ==> FilterFrom(tree, ids, acc, ns).value == acc + Kept(tree, ids, ns)
    decreases |ns|
  {
    if |ns| > 0 && KeepsSoma(tree, ids, ns[0]).Ok? {
      var keep := KeepsSoma(tree, ids, ns[0]).value;
      var acc' := if keep then acc + [ns[0]] else acc;
      FilterIsKept(tree, ids, acc', ns[1..]);
      assert forall i :: 1 <= i < |ns| ==> ns[i] == ns[1..][i - 1];
      if keep {
        assert acc + [ns[0]] + Kept(tree, ids, ns[1..]) == acc + ([ns[0]] + Kept(tree, ids, ns[1..]));
      }
    }
  }

  /** A neuron is kept exactly when it is one of the input neurons the test keeps. */
  lemma {:induction false} KeptMembers(tree: StructureTree, ids: seq<int>, ns: seq<CleanNeuron>, x: CleanNeuron)
    ensures x in Kept(tree, ids, ns) <==> x in ns && KeepsSoma(tree, ids, x) == Ok(true)
    decreases |ns|
  {
    if |ns| > 0 {
      KeptMembers(tree, ids, ns[1..], x);
      assert ns == [ns[0]] + ns[1..];
    }
  }

  /** Filtering a concatenation filters each part: the order of the input is kept. */
  lemma {:induction false} KeptAppend(tree: StructureTree, ids: seq<int>, a: seq<CleanNeuron>, b: seq<CleanNeuron>)
    ensures Kept(tree, ids, a + b) == Kept(tree, ids, a) + Kept(tree, ids, b)
    decreases |a|
  {
    if |a| > 0 {
      assert (a + b)[1..] == a[1..] + b;
      KeptAppend(tree, ids, a[1..], b);
    } else {
      assert a + b == b;
    }
  }

  /** Neurons without a soma region are never kept. */
  lemma NoRegionNeverKept(tree: StructureTree, ids: seq<int>, ns: seq<CleanNeuron>, x: CleanNeuron)
    requires x.brainAreaAcronym.None?
    ensures x !in Kept(tree, ids, ns)
  {
    KeptMembers(tree, ids, ns, x);
  }

  // ------------------------------------------------------------- queries

  /** The only query that is built: the plain `searchNeurons` query (its text is not
      part of this model). */
  datatype Query = PlainSearchNeurons

  /** `make_query`: the plain query with no filter or a soma filter; any other filter
      is not implemented. */
  function MakeQuery(filterby: Option<string>): (r: Result<Query>)
    ensures r.Ok? <==> filterby.None? || filterby == Some("soma")
    ensures r.Err? ==> r.error.NotImplementedError?
  {
    if filterby.None? || filterby.value == "soma" then Ok(PlainSearchNeurons)
    else Err(NotImplementedError("This feature is not available yet"))
  }

  /** The `searchNeurons` answer. */
  datatype SearchResult = SearchResult(totalCount: Json, queryTime: Json, neurons: seq<RawNeuron>)

  /** `mouselight_fetch_neurons_metadata`: query, clean, then filter by soma region. */
  function Metadata(filterby: Option<string>, filterRegions: Option<seq<string>>,
                    post: Query -> Result<SearchResult>, tree: StructureTree): Result<seq<CleanNeuron>>
  {
    var query :- MakeQuery(filterby);
    var res :- post(query);
    var cleaned :- CleanFrom([], res.neurons);
    if filterby.None? then Ok(cleaned)
    else if filterRegions.None? then
      Err(ValueError("If filtering neuron by region, you need to pass a list of filter regions to use"))
    else
      var ids :- RegionIds(tree, filterRegions.value);
      if filterby.value == "soma" then FilterFrom(tree, ids, [], cleaned) else Ok(cleaned)
  }

  /** The fetch with its two loops. */
  method FetchNeuronsMetadata(filterby: Option<string>, filterRegions: Option<seq<string>>,
                              post: Query -> Result<SearchResult>, tree: StructureTree)
    returns (r: Result<seq<CleanNeuron>>)
    ensures r == Metadata(filterby, filterRegions, post, tree)
  {
    var query :- MakeQuery(filterby);
    var res :- post(query);
    var cleaned :- CleanNeurons(res.neurons);
    if filterby.None? {
      return Ok(cleaned);
    }
    if filterRegions.None? {
      return Err(ValueError("If filtering neuron by region, you need to pass a list of filter regions to use"));
    }
    var ids :- RegionIds(tree, filterRegions.value);
    if filterby.value == "soma" {
      r := FilterBySoma(tree, ids, cleaned);
    } else {
      r := Ok(cleaned);
    }
  }

  /** Any filter other than "soma" stops at `make_query`, so the branch returning the
      unfiltered records under a filter is never taken. */
  lemma OtherFiltersNotImplemented(f: string, filterRegions: Option<seq<string>>,
                                   post: Query -> Result<SearchResult>, tree: StructureTree)
    requires f != "soma"
    ensures Metadata(Some(f), filterRegions, post, tree).Err?
    ensures Metadata(Some(f), filterRegions, post, tree).error.NotImplementedError?
  {
  }

  /** Without a filter every neuron is kept, cleaned, in order. */
  lemma NoFilterKeepsAll(filterRegions: Option<seq<string>>, post: Query -> Result<SearchResult>, tree: StructureTree)
    requires post(PlainSearchNeurons).Ok?
    requires forall i :: 0 <= i < |post(PlainSearchNeurons).value.neurons| ==> |post(PlainSearchNeurons).value.neurons[i].tracings| > 0
    ensures var ns := post(PlainSearchNeurons).value.neurons;
            var r := Metadata(None, filterRegions, post, tree);
            && r.Ok? && |r.value| == |ns|
            && forall i :: 0 <= i < |ns| ==> r.value[i] == Clean(ns[i]).value
  {
    CleanOnePerNeuron([], post(PlainSearchNeurons).value.neurons);
  }

  /** A soma filter without filter regions is a ValueError once the records are
      fetched and cleaned. */
  lemma SomaFilterNeedsRegions(post: Query -> Result<SearchResult>, tree: StructureTree)
    requires post(PlainSearchNeurons).Ok?
    requires CleanFrom([], post(PlainSearchNeurons).value.neurons).Ok?
    ensures Metadata(Some("soma"), None, post, tree).Err?
    ensures Metadata(Some("soma"), None, post, tree).error.ValueError?
  {
  }

  /** A soma-filtered fetch that succeeds keeps exactly the cleaned neurons whose soma
      region has a filter region among its ancestors, in order. */
  lemma SomaFilterKeeps(regions: seq<string>, post: Query -> Result<SearchResult>, tree: StructureTree)
    requires Metadata(Some("soma"), Some(regions), post, tree).Ok?
    ensures var cleaned := CleanFrom([], post(PlainSearchNeurons).value.neurons).value;
            var ids := RegionIds(tree, regions).value;
            Metadata(Some("soma"), Some(regions), post, tree).value == Kept(tree, ids, cleaned)
  {
    var cleaned := CleanFrom([], post(PlainSearchNeurons).value.neurons).value;
    var ids := RegionIds(tree, regions).value;
    FilterIsKept(tree, ids, [], cleaned);
  }

  // ----------------------------------------------------------- make_json

  /** The six fields `make_json` keeps of a tracing node. */
  datatype NodeRecord = NodeRecord(sampleNumber: Json, x: Json, y: Json, z: Json, radius: Json, parentNumber: Json)

  /** A tracing node that has the six fields. */
  predicate HasNodeKeys(n: map<string, Json>) {
    "sampleNumber" in n && "x" in n && "y" in n && "z" in n && "radius" in n && "parentNumber" in n
  }

  /** `dict(sampleNumber = n['sampleNumber'], ...)`: the fields are read in order, so
      a missing one is a KeyError for the first missing. */
  function ProjectNode(n: map<string, Json>): (r: Result<NodeRecord>)
    ensures r.Ok? <==> HasNodeKeys(n)
    ensures r.Err? ==> r.error.KeyError? && r.error.key !in n
  {
    if "sampleNumber" !in n then Err(KeyError("sampleNumber"))
    else if "x" !in n then Err(KeyError("x"))
    else if "y" !in n then Err(KeyError("y"))
    else if "z" !in n then Err(KeyError("z"))
    else if "radius" !in n then Err(KeyError("radius"))
    else if "parentNumber" !in n then Err(KeyError("parentNumber"))
    else Ok(NodeRecord(n["sampleNumber"], n["x"], n["y"], n["z"], n["radius"], n["parentNumber"]))
  }

  /** One tracing of the tracings endpoint: its nodes. */
  datatype Tracing = Tracing(nodes: seq<map<string, Json>>)

  /** The list comprehension over a tracing's nodes: one record per node, in order. */
  function ProjectNodes(nodes: seq<map<string, Json>>): (r: Result<seq<NodeRecord>>)
    ensures r.Ok? <==> forall i :: 0 <= i < |nodes| ==> HasNodeKeys(nodes[i])
    ensures r.Ok? ==> |r.value| == |nodes|
    ensures r.Ok? ==> forall i :: 0 <= i < |nodes| ==> ProjectNode(nodes[i]).Ok? && r.value[i] == ProjectNode(nodes[i]).value
    ensures r.Err? ==> r.error.KeyError?
    decreases |nodes|
  {
    if |nodes| == 0 then Ok([])
    else
      var first :- ProjectNode(nodes[0]);
      var rest :- ProjectNodes(nodes[1..]);
      assert forall i :: 1 <= i < |nodes| ==> nodes[i] == nodes[1..][i - 1];
      Ok([first] + rest)
  }

  /** The nodes `make_json` keeps for the axon or the dendrite: none without a
      tracing, otherwise those of the first tracing returned (an IndexError when none is). */
  function Branch(tracing: Option<seq<Tracing>>): (r: Result<seq<NodeRecord>>)
    ensures tracing.None? ==> r == Ok([])
    ensures tracing.Some? && |tracing.value| == 0 ==> r.Err? && r.error.IndexError?
    ensures tracing.Some? && |tracing.value| > 0 ==> r == ProjectNodes(tracing.value[0].nodes)
  {
    match tracing
    case None => Ok([])
    case Some(ts) => if |ts| == 0 then Err(IndexError("list index out of range")) else ProjectNodes(ts[0].nodes)
  }

  /** One entry of the file's `neurons` list. */
  datatype NeuronEntry = NeuronEntry(idString: string, somaX: Json, somaY: Json, somaZ: Json,
                                     axon: seq<NodeRecord>, dendrite: seq<NodeRecord>)

  /** The content `make_json` dumps: `{"neurons": [...]}` (the JSON text itself is not
      part of this model). */
  datatype NeuronFile = NeuronFile(neurons: seq<NeuronEntry>)

  /** `make_json`: a file with exactly one neuron entry, holding the neuron's id, its
      soma position and the nodes kept of the axon and dendrite tracings; the axon's
      failure comes first. */
  function MakeJson(n: CleanNeuron, axonTracing: Option<seq<Tracing>>, dendriteTracing: Option<seq<Tracing>>): (r: Result<NeuronFile>)
    ensures r.Ok? <==> Branch(axonTracing).Ok? && Branch(dendriteTracing).Ok?
    ensures Branch(axonTracing).Err? ==> r == Err(Branch(axonTracing).error)
    ensures r.Ok? ==> |r.value.neurons| == 1
    ensures r.Ok? ==> var e := r.value.neurons[0];
              && e.idString == n.idString
              && (e.somaX, e.somaY, e.somaZ) == (n.soma.x, n.soma.y, n.soma.z)
              && e.axon == Branch(axonTracing).value && e.dendrite == Branch(dendriteTracing).value
  {
    var axon :- Branch(axonTracing);
    var dendrite :- Branch(dendriteTracing);
    Ok(NeuronFile([NeuronEntry(n.idString, n.soma.x, n.soma.y, n.soma.z, axon, dendrite)]))
  }

  /** Without tracings both node lists are empty; with them, each list has one record
      per node of the first tracing, in order. */
  lemma MakeJsonNodes(n: CleanNeuron, axonTracing: Option<seq<Tracing>>, dendriteTracing: Option<seq<Tracing>>)
    requires MakeJson(n, axonTracing, dendriteTracing).Ok?
    ensures var e := MakeJson(n, axonTracing, dendriteTracing).value.neurons[0];
            && (axonTracing.None? ==> e.axon == [])
            && (dendriteTracing.None? ==> e.dendrite == [])
            && (axonTracing.Some? ==>
                  && |e.axon| == |axonTracing.value[0].nodes|
                  && forall i :: 0 <= i < |e.axon| ==> e.axon[i] == ProjectNode(axonTracing.value[0].nodes[i]).value)
  {
  }

  // ----------------------------------------------------------- downloads

  /** `neurons_metadata` as passed: one record, or a list of them. */
  datatype MetadataArg = One(n: CleanNeuron) | Many(ns: seq<CleanNeuron>)

  /** `if not isinstance(neurons_metadata, list): neurons_metadata = [neurons_metadata]`. */
  function MetadataList(m: MetadataArg): (r: seq<CleanNeuron>)
    ensures m.One? ==> r == [m.n]
    ensures m.Many? ==> r == m.ns
  {
    match m
    case One(n) => [n]
    case Many(ns) => ns
  }

  /** The file a neuron is saved to. */
  function JsonPath(dir: string, n: CleanNeuron): string {
    PathJoin(dir, n.idString + ".json")
  }

  /** The file of a neuron is named after its id. */
  lemma JsonPathEnds(dir: string, n: CleanNeuron)
    ensures EndsWith(JsonPath(dir, n), n.idString + ".json")
  {
  }

  /** `get(url, tracing_id)`: the tracings the endpoint returns for one tracing id. */
  type TracingsEndpoint = Json -> Result<seq<Tracing>>

  /** The tracing fetched for a present axon or dendrite; nothing is asked otherwise. */
  function FetchPart(get: TracingsEndpoint, part: Option<TracingStructure>): (r: Result<Option<seq<Tracing>>>)
    ensures part.None? ==> r == Ok(None)
  {
    match part
    case None => Ok(None)
    case Some(s) =>
      var ts :- get(s.id);
      Ok(Some(ts))
  }

  /** The content of a neuron's file: axon tracing, then dendrite tracing, then `make_json`. */
  function NeuronJson(get: TracingsEndpoint, n: CleanNeuron): Result<NeuronFile> {
    var axonTracing :- FetchPart(get, n.axon);
    var dendriteTracing :- FetchPart(get, n.dendrite);
    MakeJson(n, axonTracing, dendriteTracing)
  }

  /** One iteration of `download_neurons`: an existing file is kept, otherwise the
      neuron's content is written to it. */
  function SaveOne(dir: string, get: TracingsEndpoint, files: map<string, NeuronFile>, n: CleanNeuron): Result<map<string, NeuronFile>> {
    var fp := JsonPath(dir, n);
    if fp in files then Ok(files)
    else
      var content :- NeuronJson(get, n);
      Ok(files[fp := content])
  }

  /** An existing file is kept as it is; otherwise exactly that file is added and the
      others are unchanged. */
  lemma SaveOneKeeps(dir: string, get: TracingsEndpoint, files: map<string, NeuronFile>, n: CleanNeuron)
    ensures var r := SaveOne(dir, get, files, n);
            && (JsonPath(dir, n) in files ==> r == Ok(files))
            && (r.Ok? ==> r.value.Keys == files.Keys + {JsonPath(dir, n)})
            && (r.Ok? ==> forall f :: f in files ==> r.value[f] == files[f])
  {
    var fp := JsonPath(dir, n);
    if fp !in files {
      var c := NeuronJson(get, n);
      if c.Ok? {
        var m := files[fp := c.value];
        assert SaveOne(dir, get, files, n) == Ok(m);
        assert m.Keys == files.Keys + {fp};
      }
    }
  }

  /** The files after the download loop over the neurons still to handle, and the
      exception that ended it, if any. */
  function SavedFrom(dir: string, get: TracingsEndpoint, files: map<string, NeuronFile>, ns: seq<CleanNeuron>): (map<string, NeuronFile>, Option<PyError>)
    decreases |ns|
  {
    if |ns| == 0 then (files, None)
    else
      var s := SaveOne(dir, get, files, ns[0]);
      if s.Err? then (files, Some(s.error)) else SavedFrom(dir, get, s.value, ns[1..])
  }

  /** One iteration of the loop in `download_neurons` over `ns[k..]`: an existing file
      is skipped, a failed fetch ends the loop, a fetched file is written. */
  lemma SavedFromStep(dir: string, get: TracingsEndpoint, files: map<string, NeuronFile>, ns: seq<CleanNeuron>, k: nat)
    requires k < |ns|
    ensures var fp := JsonPath(dir, ns[k]);
            && (fp in files ==> SavedFrom(dir, get, files, ns[k..]) == SavedFrom(dir, get, files, ns[k + 1..]))
            && (fp !in files && NeuronJson(get, ns[k]).Err? ==>
                  SavedFrom(dir, get, files, ns[k..]) == (files, Some(NeuronJson(get, ns[k]).error)))
            && (fp !in files && NeuronJson(get, ns[k]).Ok? ==>
                  SavedFrom(dir, get, files, ns[k..])
                  == SavedFrom(dir, get, files[fp := NeuronJson(get, ns[k]).value], ns[k + 1..]))
  {
    var rest := ns[k..];
    assert rest[0] == ns[k];
    assert rest[1..] == ns[k + 1..];
  }

  /** The paths `download_neurons` returns for the neurons `ns`, in order. */
  function PathsOf(dir: string, ns: seq<CleanNeuron>): seq<string> {
    if |ns| == 0 then [] else PathsOf(dir, ns[..|ns| - 1]) + [JsonPath(dir, ns[|ns| - 1])]
  }

  lemma PathsOfNext(dir: string, ns: seq<CleanNeuron>, k: nat)
    requires k < |ns|
    ensures PathsOf(dir, ns[..k + 1]) == PathsOf(dir, ns[..k]) + [JsonPath(dir, ns[k])]
  {
    assert ns[..k + 1][..k] == ns[..k];
  }

  /** Every neuron gets its own file's path, at its own position. */
  lemma {:induction false} PathsOfAt(dir: string, ns: seq<CleanNeuron>)
    ensures |PathsOf(dir, ns)| == |ns|
    ensures forall i :: 0 <= i < |ns| ==> PathsOf(dir, ns)[i] == JsonPath(dir, ns[i])
  {
    if |ns| > 0 {
      var front := ns[..|ns| - 1];
      PathsOfAt(dir, front);
      forall i | 0 <= i < |ns|
        ensures PathsOf(dir, ns)[i] == JsonPath(dir, ns[i])
      {
        if i < |front| {
          assert front[i] == ns[i];
        }
      }
    }
  }

  /** Files that were already there are never rewritten, whether or not the download
      ends in an exception; one that completes leaves a file for every neuron. */
  lemma {:induction false} SavedKeepsAndWrites(dir: string, get: TracingsEndpoint, files: map<string, NeuronFile>, ns: seq<CleanNeuron>)
    ensures var (fs, err) := SavedFrom(dir, get, files, ns);
            && (forall f :: f in files ==> f in fs && fs[f] == files[f])
            && (err.None? ==> forall i :: 0 <= i < |ns| ==> JsonPath(dir, ns[i]) in fs)
    decreases |ns|
  {
    if |ns| > 0 {
      var s := SaveOne(dir, get, files, ns[0]);
      SaveOneKeeps(dir, get, files, ns[0]);
      if s.Ok? {
        SavedKeepsAndWrites(dir, get, s.value, ns[1..]);
        assert forall i :: 1 <= i < |ns| ==> ns[i] == ns[1..][i - 1];
      }
    }
  }

  /** The endpoint is asked only about the neuron's present axon and dendrite: two
      endpoints that agree on those ids give the same content. */
  lemma OnlyPresentPartsFetched(get1: TracingsEndpoint, get2: TracingsEndpoint, n: CleanNeuron)
    requires n.axon.Some? ==> get1(n.axon.value.id) == get2(n.axon.value.id)
    requires n.dendrite.Some? ==> get1(n.dendrite.value.id) == get2(n.dendrite.value.id)
    ensures NeuronJson(get1, n) == NeuronJson(get2, n)
  {
  }

  class MouseLightApi {
    /** `morphology_mouselight`, the folder the .json files are saved in. */
    const dir: string
    /** The files on disk, by path. */
    var files: map<string, NeuronFile>

    constructor (dir: string, files: map<string, NeuronFile>)
      ensures this.dir == dir && this.files == files
    {
      this.dir := dir;
      this.files := files;
    }

    /** `download_neurons`: None for no metadata; otherwise the path of every neuron's
        file, in order, the files not yet there being fetched and written. */
    method DownloadNeurons(get: TracingsEndpoint, metadata: Option<MetadataArg>) returns (r: Result<Option<seq<string>>>)
      modifies this
      ensures metadata.None? || metadata == Some(Many([])) ==> r == Ok(None) && files == old(files)
      ensures metadata.Some? && metadata != Some(Many([])) ==>
                var ns := MetadataList(metadata.value);
                var (fs, err) := SavedFrom(dir, get, old(files), ns);
                && files == fs
                && (err.Some? ==> r == Err(err.value))
                && (err.None? ==>
                      && r.Ok? && r.value.Some? && |r.value.value| == |ns|
                      && forall i :: 0 <= i < |ns| ==> r.value.value[i] == JsonPath(dir, ns[i]))
    {
      if metadata.None? || metadata == Some(Many([])) {
        return Ok(None);
      }
      var ns := MetadataList(metadata.value);
      ghost var files0 := files;
      var paths: seq<string> := [];
      var k := 0;
      while k < |ns|
        invariant 0 <= k <= |ns|
        invariant SavedFrom(dir, get, files, ns[k..]) == SavedFrom(dir, get, files0, ns)
        invariant paths == PathsOf(dir, ns[..k])
      {
        SavedFromStep(dir, get, files, ns, k);
        PathsOfNext(dir, ns, k);
        var neuron := ns[k];
        var filePath := JsonPath(dir, neuron);
        paths := paths + [filePath];
        k := k + 1;
        if filePath in files {
          continue;
        }
        var content := NeuronJson(get, neuron);
        if content.Err? {
          return Err(content.error);
        }
        files := files[filePath := content.value];
      }
      assert ns[k..] == [];
      assert ns[..k] == ns;
      PathsOfAt(dir, ns);
      return Ok(Some(paths));
    }
  }

  // ------------------------------------------------------ table columns

  /** A GraphQL row: its fields in order, as a dict keeps them. */
  type Row = seq<(string, Json)>

  /** A row's field names are distinct, as a dict's keys are. */
  predicate IsDict(row: Row) {
    forall i, j :: 0 <= i < j < |row| ==> row[i].0 != row[j].0
  }

  function KeysOf(row: Row): set<string> {
    set i | 0 <= i < |row| :: row[i].0
  }

  /** The value a row holds under a field name. */
  function ValueIn(row: Row, k: string): Json
    requires k in KeysOf(row)
    decreases |row|
  {
    if row[0].0 == k then row[0].1
    else
      assert k in KeysOf(row[1..]) by {
        var i :| 0 <= i < |row| && row[i].0 == k;
        assert row[1..][i - 1].0 == k;
      }
      ValueIn(row[1..], k)
  }

  /** The inner loop: each of the row's values appended to its column; a field that
      the first row does not have is a KeyError. */
  function AddRow(cols: map<string, seq<Json>>, row: Row): Result<map<string, seq<Json>>>
    decreases |row|
  {
    if |row| == 0 then Ok(cols)
    else if row[0].0 !in cols then Err(KeyError(row[0].0))
    else AddRow(cols[row[0].0 := cols[row[0].0] + [row[0].1]], row[1..])
  }

  /** The outer loop over the rows still to add. */
  function AddRows(cols: map<string, seq<Json>>, rows: seq<Row>): Result<map<string, seq<Json>>>
    decreases |rows|
  {
    if |rows| == 0 then Ok(cols)
    else
      var next :- AddRow(cols, rows[0]);
      AddRows(next, rows[1..])
  }

  /** The column transposition of `mouselight_get_brainregions` and
      `mouselight_structures_identifiers`: one empty column per field of the first row
      (an IndexError without rows), then every row added in order. */
  function Columns(rows: seq<Row>): Result<map<string, seq<Json>>> {
    if |rows| == 0 then Err(IndexError("list index out of range"))
    else AddRows(map k | k in KeysOf(rows[0]) :: [], rows)
  }

  /** The nested loops. */
  method MakeColumns(rows: seq<Row>) returns (r: Result<map<string, seq<Json>>>)
    ensures r == Columns(rows)
  {
    if |rows| == 0 {
      return Err(IndexError("list index out of range"));
    }
    var cols: map<string, seq<Json>> := map k | k in KeysOf(rows[0]) :: [];
    var i := 0;
    while i < |rows|
      invariant 0 <= i <= |rows|
      invariant AddRows(cols, rows[i..]) == Columns(rows)
    {
      assert rows[i..][1..] == rows[i + 1..];
      var row := rows[i];
      ghost var start := cols;
      var j := 0;
      while j < |row|
        invariant 0 <= j <= |row|
        invariant AddRow(cols, row[j..]) == AddRow(start, row)
        decreases |row| - j
      {
        assert row[j..][1..] == row[j + 1..];
        var (k, v) := row[j];
        if k !in cols {
          return Err(KeyError(k));
        }
        cols := cols[k := cols[k] + [v]];
        j := j + 1;
      }
      assert row[j..] == [];
      i := i + 1;
    }
    assert rows[i..] == [];
    return Ok(cols);
  }

  /** Adding a dict row whose fields all have columns appends, to each of those
      columns, the row's value, and leaves the other columns alone. */
  lemma {:induction false} AddRowAppends(cols: map<string, seq<Json>>, row: Row)
    requires IsDict(row) && KeysOf(row) <= cols.Keys
    ensures AddRow(cols, row).Ok?
    ensures AddRow(cols, row).value.Keys == cols.Keys
    ensures forall k :: k in cols ==>
              AddRow(cols, row).value[k] == (if k in KeysOf(row) then cols[k] + [ValueIn(row, k)] else cols[k])
    decreases |row|
  {
    if |row| > 0 {
      var k0 := row[0].0;
      var next := cols[k0 := cols[k0] + [row[0].1]];
      var rest := row[1..];
      assert KeysOf(row) == {k0} + KeysOf(rest) by {
        forall k | k in KeysOf(row) ensures k == k0 || k in KeysOf(rest) {
          var i :| 0 <= i < |row| && row[i].0 == k;
          if i > 0 { assert rest[i - 1].0 == k; }
        }
      }
      assert k0 !in KeysOf(rest) by {
        forall i | 0 <= i < |rest| ensures rest[i].0 != k0 {
          assert rest[i] == row[i + 1];
        }
      }
      assert IsDict(rest) by {
        forall i, j | 0 <= i < j < |rest| ensures rest[i].0 != rest[j].0 {
          assert rest[i] == row[i + 1] && rest[j] == row[j + 1];
        }
      }
      AddRowAppends(next, rest);
      forall k | k in cols
        ensures AddRow(cols, row).value[k] == (if k in KeysOf(row) then cols[k] + [ValueIn(row, k)] else cols[k])
      {
        if k == k0 {
          assert ValueIn(row, k) == row[0].1;
        } else if k in KeysOf(rest) {
          assert ValueIn(row, k) == ValueIn(rest, k);
        }
      }
    }
  }

  /** Column `k` of some rows: each row's value for `k`, in row order. */
  function ColumnOf(rows: seq<Row>, k: string): (c: seq<Json>)
    requires forall i :: 0 <= i < |rows| ==> k in KeysOf(rows[i])
    decreases |rows|
  {
    if |rows| == 0 then [] else [ValueIn(rows[0], k)] + ColumnOf(rows[1..], k)
  }

  /** A column has one entry per row, the row's own value. */
  lemma {:induction false} ColumnOfIndex(rows: seq<Row>, k: string)
    requires forall i :: 0 <= i < |rows| ==> k in KeysOf(rows[i])
    ensures |ColumnOf(rows, k)| == |rows|
    ensures forall i :: 0 <= i < |rows| ==> ColumnOf(rows, k)[i] == ValueIn(rows[i], k)
    decreases |rows|
  {
    if |rows| > 0 {
      ColumnOfIndex(rows[1..], k);
      forall i | 1 <= i < |rows| ensures ColumnOf(rows, k)[i] == ValueIn(rows[i], k) {
        assert rows[i] == rows[1..][i - 1];
      }
    }
  }

  lemma AppendAssoc(a: seq<Json>, b: seq<Json>, c: seq<Json>)
    ensures a + b + c == a + (b + c)
  {
  }

  /** When every row is a dict with the columns' fields, adding the rows keeps the
      columns and appends to column `k` the rows' values for `k`, in row order. */
  lemma {:induction false} AddRowsTranspose(cols: map<string, seq<Json>>, rows: seq<Row>)
    requires forall i :: 0 <= i < |rows| ==> IsDict(rows[i]) && KeysOf(rows[i]) == cols.Keys
    ensures AddRows(cols, rows).Ok?
    ensures AddRows(cols, rows).value.Keys == cols.Keys
    ensures forall k :: k in cols ==> AddRows(cols, rows).value[k] == cols[k] + ColumnOf(rows, k)
    decreases |rows|
  {
    if |rows| > 0 {
      AddRowAppends(cols, rows[0]);
      var next := AddRow(cols, rows[0]).value;
      var rest := rows[1..];
      assert forall i :: 0 <= i < |rest| ==> rest[i] == rows[i + 1];
      AddRowsTranspose(next, rest);
      var r := AddRows(next, rest).value;
      assert AddRows(cols, rows) == AddRows(next, rest);
      forall k | k in cols ensures r[k] == cols[k] + ColumnOf(rows, k) {
        var v, c := ValueIn(rows[0], k), ColumnOf(rest, k);
        assert next[k] == cols[k] + [v];
        assert ColumnOf(rows, k) == [v] + c;
        AppendAssoc(cols[k], [v], c);
      }
    }
  }

  /** The transposition of rows with the same fields: one column per field of the
      first row, each listing the rows' values in order. */
  lemma ColumnsTranspose(rows: seq<Row>)
    requires |rows| > 0
    requires forall i :: 0 <= i < |rows| ==> IsDict(rows[i]) && KeysOf(rows[i]) == KeysOf(rows[0])
    ensures Columns(rows).Ok?
    ensures Columns(rows).value.Keys == KeysOf(rows[0])
    ensures forall k :: k in KeysOf(rows[0]) ==>
              |Columns(rows).value[k]| == |rows| &&
              forall i :: 0 <= i < |rows| ==> Columns(rows).value[k][i] == ValueIn(rows[i], k)
  {
    var start: map<string, seq<Json>> := map k | k in KeysOf(rows[0]) :: [];
    assert start.Keys == KeysOf(rows[0]);
    AddRowsTranspose(start, rows);
    forall k | k in KeysOf(rows[0])
      ensures |Columns(rows).value[k]| == |rows|
      ensures forall i :: 0 <= i < |rows| ==> Columns(rows).value[k][i] == ValueIn(rows[i], k)
    {
      ColumnOfIndex(rows, k);
      assert Columns(rows).value[k] == ColumnOf(rows, k);
    }
  }
}
