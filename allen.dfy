/** `AllenMorphology` (morphapi/api/allenmorphology.py): downloads of reconstructions
    from the Allen cell types database. The database's answers are functions of the
    neuron id or the download link; files on disk are a map from path to content. */
module Allen {
  import opened Wrappers
  import opened PyStr
  import opened Values

  /** One entry of a reconstruction's `well_known_files`. */
  datatype WellKnownFile = WellKnownFile(path: string, downloadLink: string)

  /** The plain .swc reconstruction: neither the .png picture nor the marker file. */
  predicate IsReconstruction(f: WellKnownFile) {
    !Contains(f.path, ".png") && !Contains(f.path, "marker")
  }

  /** The position of the first reconstruction file, if any. */
  function FirstReconstruction(files: seq<WellKnownFile>): (r: Option<nat>)
    ensures r.Some? ==> r.value < |files| && IsReconstruction(files[r.value])
    ensures r.Some? ==> forall j :: 0 <= j < r.value ==> !IsReconstruction(files[j])
    ensures r.None? <==> forall j :: 0 <= j < |files| ==> !IsReconstruction(files[j])
    decreases |files|
  {
    if |files| == 0 then None
    else if IsReconstruction(files[0]) then Some(0)
    else
      var rest := FirstReconstruction(files[1..]);
      assert forall j :: 1 <= j < |files| ==> files[j] == files[1..][j - 1];
      if rest.None? then None else Some(rest.value + 1)
  }

  /** The link `get_reconstruction` downloads from: that of the first reconstruction
      file; no such file, or an empty link, is a ValueError. */
  function ReconstructionLink(files: seq<WellKnownFile>): (r: Result<string>)
    ensures r.Ok? <==> FirstReconstruction(files).Some? && files[FirstReconstruction(files).value].downloadLink != ""
    ensures r.Err? ==> r.error.ValueError?
  {
    var first := FirstReconstruction(files);
    if first.None? || files[first.value].downloadLink == "" then Err(ValueError("Could not find a reconstruction file"))
    else Ok(files[first.value].downloadLink)
  }

  /** The loop with `break` that looks for the link. */
  method FindReconstructionLink(files: seq<WellKnownFile>) returns (r: Result<string>)
    ensures r == ReconstructionLink(files)
  {
    var filePath: Option<string> := None;
    var i := 0;
    while i < |files|
      invariant 0 <= i <= |files|
      invariant forall j :: 0 <= j < i ==> !IsReconstruction(files[j])
    {
      if IsReconstruction(files[i]) {
        filePath := Some(files[i].downloadLink);
        break;
      }
      i := i + 1;
    }
    if filePath.None? || filePath.value == "" {
      return Err(ValueError("Could not find a reconstruction file"));
    }
    return Ok(filePath.value);
  }

  /** The database: the `well_known_files` listed for a neuron id (a failed request is
      an error) and the content at a download link. */
  datatype Database = Database(listing: Json -> Result<seq<WellKnownFile>>, content: string -> Result<string>)

  /** Everything `get_reconstruction` can end in for one id: the content written, or
      the exception raised. */
  function Reconstruction(db: Database, id: Json): Result<string> {
    var listed :- db.listing(id);
    var link :- ReconstructionLink(listed);
    db.content("https://api.brain-map.org" + link)
  }

  function BuildFilepath(cacheDir: string, id: Json): (r: string)
    ensures EndsWith(r, Str(id) + ".swc")
  {
    PathJoin(cacheDir, Str(id) + ".swc")
  }

  /** What `download_neurons` makes for one id: the file, the name `str(id)`, and a
      load only when asked for and the reconstruction was fetched. */
  function NeuronFor(cacheDir: string, db: Database, id: Json, load: bool): NeuronArgs {
    NeuronArgs(BuildFilepath(cacheDir, id), Str(id), load && Reconstruction(db, id).Ok?)
  }

  /** The files after downloading the ids in turn; a later download of the same file
      replaces an earlier one. */
  function FilesAfter(cacheDir: string, files: map<string, string>, db: Database, ids: seq<Json>): map<string, string>
    decreases |ids|
  {
    if |ids| == 0 then files
    else FilesAfterOne(cacheDir, FilesAfter(cacheDir, files, db, ids[..|ids| - 1]), db, ids[|ids| - 1])
  }

  /** The files after downloading one id: its file is written when the fetch succeeds. */
  function FilesAfterOne(cacheDir: string, files: map<string, string>, db: Database, id: Json): map<string, string> {
    var got := Reconstruction(db, id);
    if got.Ok? then files[BuildFilepath(cacheDir, id) := got.value] else files
  }

  lemma FilesAfterNext(cacheDir: string, files: map<string, string>, db: Database, ids: seq<Json>, k: nat)
    requires k < |ids|
    ensures FilesAfter(cacheDir, files, db, ids[..k + 1]) == FilesAfterOne(cacheDir, FilesAfter(cacheDir, files, db, ids[..k]), db, ids[k])
  {
    assert ids[..k + 1][..k] == ids[..k];
  }

  /** A file that was there and that no download wrote to stays as it was, and every
      file there afterwards was there before or is the file of a fetched id. */
  lemma {:induction false} FilesAfterFrame(cacheDir: string, files: map<string, string>, db: Database, ids: seq<Json>)
    ensures forall f :: f in files ==> f in FilesAfter(cacheDir, files, db, ids)
    ensures forall f :: f in FilesAfter(cacheDir, files, db, ids) && f !in files ==>
              exists i :: 0 <= i < |ids| && f == BuildFilepath(cacheDir, ids[i]) && Reconstruction(db, ids[i]).Ok?
    ensures forall f :: f in files && (forall i :: 0 <= i < |ids| ==> f != BuildFilepath(cacheDir, ids[i])) ==>
              FilesAfter(cacheDir, files, db, ids)[f] == files[f]
    decreases |ids|
  {
    if |ids| > 0 {
      var front := ids[..|ids| - 1];
      FilesAfterFrame(cacheDir, files, db, front);
      forall f | f in FilesAfter(cacheDir, files, db, ids) && f !in files
        ensures exists i :: 0 <= i < |ids| && f == BuildFilepath(cacheDir, ids[i]) && Reconstruction(db, ids[i]).Ok?
      {
        if f in FilesAfter(cacheDir, files, db, front) {
          var i :| 0 <= i < |front| && f == BuildFilepath(cacheDir, front[i]) && Reconstruction(db, front[i]).Ok?;
          assert ids[i] == front[i];
        } else {
          assert f == BuildFilepath(cacheDir, ids[|ids| - 1]);
        }
      }
    }
  }

  /** Distinct integer ids give distinct neuron names. */
  lemma DistinctIdsDistinctNames(a: int, b: int)
    requires a != b
    ensures Str(JInt(a)) != Str(JInt(b))
  {
    ParseIntStr(a);
    ParseIntStr(b);
  }

  // -------------------------------------------------------- cached metadata

  /** The answer to the row-count query: a failed request, or `total_rows`. */
  datatype RowCount = RequestFailed | TotalRows(n: int)

  /** `check_cell_metadata`: the cached table, unless the database reports another row
      count, in which case it is fetched again (which may itself fail). */
  function CheckCellMetadata(cached: seq<Json>, remote: RowCount, fetchAll: Result<seq<Json>>): (r: Result<seq<Json>>)
    ensures remote.RequestFailed? ==> r == Ok(cached)
    ensures remote.TotalRows? && remote.n == |cached| ==> r == Ok(cached)
    ensures remote.TotalRows? && remote.n != |cached| ==> r == fetchAll
  {
    match remote
    case RequestFailed => Ok(cached)
    case TotalRows(n) => if n != |cached| then fetchAll else Ok(cached)
  }

  /** A table freshly fetched with the row count the database reports is not fetched
      again by the next check. */
  lemma RefreshedTableIsKept(cached: seq<Json>, n: int, table: seq<Json>, again: Result<seq<Json>>)
    requires n != |cached| && |table| == n
    ensures CheckCellMetadata(cached, TotalRows(n), Ok(table)) == Ok(table)
    ensures CheckCellMetadata(table, TotalRows(n), again) == Ok(table)
  {
  }

  /** `get_downloaded_neurons`: the listed names that contain ".swc", joined to the
      cache folder, in listing order. */
  function DownloadedNeurons(cacheDir: string, listing: seq<string>): (r: seq<string>)
    ensures |r| <= |listing|
    decreases |listing|
  {
    if |listing| == 0 then []
    else
      var front := DownloadedNeurons(cacheDir, listing[..|listing| - 1]);
      var f := listing[|listing| - 1];
      if Contains(f, ".swc") then front + [PathJoin(cacheDir, f)] else front
  }

  /** Every listed name containing ".swc" is returned, joined to the cache folder. */
  lemma {:induction false} DownloadedNeuronsHas(cacheDir: string, listing: seq<string>, i: int)
    requires 0 <= i < |listing| && Contains(listing[i], ".swc")
    ensures PathJoin(cacheDir, listing[i]) in DownloadedNeurons(cacheDir, listing)
    decreases |listing|
  {
    var n := |listing| - 1;
    var front := listing[..n];
    var rest := DownloadedNeurons(cacheDir, front);
    assert DownloadedNeurons(cacheDir, listing)
           == if Contains(listing[n], ".swc") then rest + [PathJoin(cacheDir, listing[n])] else rest;
    if i < n {
      assert front[i] == listing[i];
      DownloadedNeuronsHas(cacheDir, front, i);
    }
  }

  /** Every returned path is a listed name containing ".swc", joined to the cache folder. */
  lemma {:induction false} DownloadedNeuronsFrom(cacheDir: string, listing: seq<string>, p: string)
    requires p in DownloadedNeurons(cacheDir, listing)
    ensures exists i :: 0 <= i < |listing| && Contains(listing[i], ".swc") && p == PathJoin(cacheDir, listing[i])
    decreases |listing|
  {
    var n := |listing| - 1;
    var front := listing[..n];
    var last := listing[n];
    if p in DownloadedNeurons(cacheDir, front) {
      DownloadedNeuronsFrom(cacheDir, front, p);
      var i :| 0 <= i < |front| && Contains(front[i], ".swc") && p == PathJoin(cacheDir, front[i]);
      assert listing[i] == front[i];
    } else {
      assert Contains(last, ".swc") && p == PathJoin(cacheDir, last);
    }
  }

  /** A path is returned exactly when it is the cache folder joined to a listed name
      containing ".swc". */
  lemma DownloadedNeuronsMembers(cacheDir: string, listing: seq<string>, p: string)
    ensures p in DownloadedNeurons(cacheDir, listing) <==>
            exists i :: 0 <= i < |listing| && Contains(listing[i], ".swc") && p == PathJoin(cacheDir, listing[i])
  {
    if p in DownloadedNeurons(cacheDir, listing) {
      DownloadedNeuronsFrom(cacheDir, listing, p);
    } else if exists i :: 0 <= i < |listing| && Contains(listing[i], ".swc") && p == PathJoin(cacheDir, listing[i]) {
      var i :| 0 <= i < |listing| && Contains(listing[i], ".swc") && p == PathJoin(cacheDir, listing[i]);
      DownloadedNeuronsHas(cacheDir, listing, i);
    }
  }

  // ------------------------------------------------------------------ client

  class AllenMorphology {
    /** `allen_morphology_cache`. */
    const cacheDir: string
    /** The files on disk, by path. */
    var files: map<string, string>
    /** `neurons`: the metadata of the cells with a reconstruction. */
    const neurons: seq<Json>
    /** `downloaded_neurons`, as listed when the client was made. */
    const downloadedNeurons: seq<string>

    constructor (cacheDir: string, files: map<string, string>, neurons: seq<Json>, listing: seq<string>)
      ensures this.cacheDir == cacheDir && this.files == files && this.neurons == neurons
      ensures this.downloadedNeurons == DownloadedNeurons(cacheDir, listing)
    {
      this.cacheDir := cacheDir;
      this.files := files;
      this.neurons := neurons;
      this.downloadedNeurons := DownloadedNeurons(cacheDir, listing);
    }

    /** `get_reconstruction`: the link lookup, then the download written to `fileName`. */
    method GetReconstruction(db: Database, id: Json, fileName: string) returns (r: Result<()>)
      modifies this
      ensures var got := Reconstruction(db, id);
              && (got.Ok? ==> r.Ok? && files == old(files)[fileName := got.value])
              && (got.Err? ==> r == Err(got.error) && files == old(files))
    {
      var listed :- db.listing(id);
      var link := FindReconstructionLink(listed);
      if link.Err? {
        return Err(link.error);
      }
      var content :- db.content("https://api.brain-map.org" + link.value);
      files := files[fileName := content];
      return Ok(());
    }

    /** One iteration of `download_neurons`: a failed fetch only makes that neuron unloaded. */
    method DownloadOne(db: Database, id: Json, load: bool) returns (neuron: NeuronArgs)
      modifies this
      ensures neuron == NeuronFor(cacheDir, db, id, load)
      ensures files == FilesAfterOne(cacheDir, old(files), db, id)
    {
      var neuronFile := BuildFilepath(cacheDir, id);
      var loadCurrent := load;
      var fetched := GetReconstruction(db, id, neuronFile);
      if fetched.Err? {
        loadCurrent := false;
      }
      neuron := NeuronArgs(neuronFile, Str(id), loadCurrent);
    }

    /** `download_neurons`: a scalar id is wrapped (an array is already a list here);
        one neuron per id, in order, whose file is not loaded when the download failed. */
    method DownloadNeurons(db: Database, ids: Json, load: bool) returns (neurons: seq<NeuronArgs>)
      modifies this
      ensures |neurons| == |AsList(ids)|
      ensures forall i {:trigger neurons[i]} :: 0 <= i < |neurons| ==> neurons[i] == NeuronFor(cacheDir, db, AsList(ids)[i], load)
      ensures files == FilesAfter(cacheDir, old(files), db, AsList(ids))
    {
      var idList := AsList(ids);
      ghost var files0 := files;
      neurons := [];
      var k := 0;
      while k < |idList|
        invariant 0 <= k <= |idList|
        invariant |neurons| == k
        invariant forall i {:trigger neurons[i]} :: 0 <= i < k ==> neurons[i] == NeuronFor(cacheDir, db, idList[i], load)
        invariant files == FilesAfter(cacheDir, files0, db, idList[..k])
      {
        var neuron := DownloadOne(db, idList[k], load);
        FilesAfterNext(cacheDir, files0, db, idList, k);
        neurons := neurons + [neuron];
        k := k + 1;
      }
      assert idList[..k] == idList;
    }
  }

  /** The constructor: no connection is a ConnectionError; the cell metadata (read from
      the cache or downloaded, `cells` here) must hold at least one neuron, or it is a
      ValueError; the cache folder's listing gives `downloaded_neurons`. */
  method Open(connected: bool, cells: Result<seq<Json>>, cacheDir: string, files: map<string, string>, listing: seq<string>)
    returns (r: Result<AllenMorphology>)
    ensures r.Ok? <==> connected && cells.Ok? && |cells.value| > 0
    ensures !connected ==> r.Err? && r.error.ConnectionError?
    ensures connected && cells.Err? ==> r == Err(cells.error)
    ensures connected && cells.Ok? && |cells.value| == 0 ==> r.Err? && r.error.ValueError?
    ensures r.Ok? ==> fresh(r.value) && r.value.cacheDir == cacheDir && r.value.files == files && r.value.neurons == cells.value
    ensures r.Ok? ==> r.value.downloadedNeurons == DownloadedNeurons(cacheDir, listing)
  {
    if !connected {
      return Err(ConnectionError("You will need to be connected to the internet to use the AllenMorphology class to download neurons"));
    }
    var neurons :- cells;
    if |neurons| == 0 {
      return Err(ValueError("Something went wrong and couldn't get neurons metadata from Allen"));
    }
    var api := new AllenMorphology(cacheDir, files, neurons, listing);
    return Ok(api);
  }
}
