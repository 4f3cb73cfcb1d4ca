/** `NeuroMorpOrgAPI` (morphapi/api/neuromorphorg.py): the neuromorpho.org client.
    The server is a set of functions from request URLs to responses; downloaded files
    live in a map from path to text. */
module NeuroMorpho {
  import opened Wrappers
  import opened PyStr
  import opened Values

  const DefaultBaseUrl: string := "http://cng.gmu.edu:8080/api/neuron"
  const FallbackBaseUrl: string := "http://neuromorpho.org/api/neuron"

  /** `"/".join(base.split("/")[:-1]) + "/health"`. */
  function HealthUrl(base: string): string {
    var parts := Split(base, '/');
    Join('/', parts[..|parts| - 1]) + "/health"
  }

  /** The health URL replaces the base URL's last path segment by "health". */
  lemma HealthReplacesLastSegment(prefix: string, last: string)
    requires '/' !in last
    ensures HealthUrl(prefix + "/" + last) == prefix + "/health"
  {
    assert prefix + "/" + last == prefix + ['/'] + last;
    SplitAppend(prefix, last, '/');
    SplitWithoutSep(last, '/');
    var parts := Split(prefix + "/" + last, '/');
    assert parts[..|parts| - 1] == Split(prefix, '/');
    JoinSplit(prefix, '/');
  }

  // ------------------------------------------------------------------ paging

  /** One page of `/fields/<field>`: its values and, when present, `page.totalPages`. */
  datatype FieldsPage = FieldsPage(fields: seq<string>, totalPages: Option<int>)

  function PageUrl(base: string, field: string, page: int): string {
    base + "/fields/" + field + "?&size=1000&page=" + IntStr(page)
  }

  function PageUrls(base: string, field: string, n: nat): (r: seq<string>)
    ensures |r| == n && forall k :: 0 <= k < n ==> r[k] == PageUrl(base, field, k)
  {
    seq(n, k requires 0 <= k < n => PageUrl(base, field, k))
  }

  /** The values the paging loop collects from page `current` on, `maxPage` being the
      page count seen so far; `pages` are the pages the server has, and asking for a
      page past them is a failed request. */
  function PagedValues(pages: seq<FieldsPage>, current: nat, maxPage: int): (r: Result<seq<string>>)
    ensures r.Err? ==> r.error.ValueError?
    decreases |pages| - current
  {
    if current >= maxPage then Ok([])
    else if current >= |pages| then Err(ValueError("page request failed"))
    else
      var rest :- PagedValues(pages, current + 1, pages[current].totalPages.GetOr(maxPage));
      Ok(pages[current].fields + rest)
  }

  /** How many pages the loop requests from page `current` on. */
  function RequestCount(pages: seq<FieldsPage>, current: nat, maxPage: int): nat
    decreases |pages| - current
  {
    if current >= maxPage then 0
    else if current >= |pages| then 1
    else 1 + RequestCount(pages, current + 1, pages[current].totalPages.GetOr(maxPage))
  }

  function Prepend(values: seq<string>, r: Result<seq<string>>): Result<seq<string>> {
    if r.Ok? then Ok(values + r.value) else r
  }

  lemma PrependNothing(r: Result<seq<string>>)
    ensures Prepend([], r) == r
  {
    if r.Ok? {
      assert [] + r.value == r.value;
    }
  }

  lemma PrependTwice(a: seq<string>, b: seq<string>, r: Result<seq<string>>)
    ensures Prepend(a, Prepend(b, r)) == Prepend(a + b, r)
  {
    if r.Ok? {
      assert a + (b + r.value) == (a + b) + r.value;
    }
  }

  /** The pages' values one after the other. */
  function FieldsOf(ps: seq<FieldsPage>): seq<string>
    decreases |ps|
  {
    if |ps| == 0 then [] else ps[0].fields + FieldsOf(ps[1..])
  }

  lemma {:induction false} PagesFrom(pages: seq<FieldsPage>, n: int, k: nat)
    requires k <= n <= |pages|
    requires forall i :: 0 <= i < |pages| ==> pages[i].totalPages == Some(n)
    ensures PagedValues(pages, k, n) == Ok(FieldsOf(pages[k..n]))
    ensures RequestCount(pages, k, n) == n - k
    decreases n - k
  {
    if k < n {
      PagesFrom(pages, n, k + 1);
      assert pages[k..n][1..] == pages[k + 1..n];
    } else {
      assert pages[k..n] == [];
    }
  }

  /** When the server reports `n` pages and has them, the loop requests exactly pages
      0 to n-1 and concatenates their values in page order. */
  lemma AllPagesInOrder(pages: seq<FieldsPage>, n: int)
    requires 1 <= n <= |pages|
    requires forall i :: 0 <= i < |pages| ==> pages[i].totalPages == Some(n)
    ensures PagedValues(pages, 0, 1) == Ok(FieldsOf(pages[..n]))
    ensures RequestCount(pages, 0, 1) == n
  {
    PagesFrom(pages, n, 1);
    assert pages[..n][1..] == pages[1..n];
  }

  /** Without a `totalPages` the page count stays 1: only the first page is read. */
  lemma NoTotalMeansOnePage(pages: seq<FieldsPage>)
    requires |pages| > 0 && pages[0].totalPages.None?
    ensures PagedValues(pages, 0, 1) == Ok(pages[0].fields)
    ensures RequestCount(pages, 0, 1) == 1
  {
    assert pages[0].fields + [] == pages[0].fields;
  }

  // ----------------------------------------------------------------- queries

  /** A query criterion's value: a scalar (written with its `str`) or a list. */
  datatype CritVal = Scalar(text: string) | ListVal(items: seq<string>)

  /** The server's answer to a query: rejected (not ok, or an "error" key), the
      neuron records and the page description, or an exception raised by the request
      (a ConnectionError when offline, or whatever `requests` raises). */
  datatype QueryResponse = Rejected | Answered(neurons: seq<Json>, page: Json) | Failed(error: PyError)

  /** The query counts as invalid: the response was rejected, or the request raised
      the one exception the query's handler catches, a ValueError. */
  predicate Invalid(q: QueryResponse) {
    q.Rejected? || (q.Failed? && q.error.ValueError?)
  }

  /** The `fields` property's value: the cached list if there is one, otherwise what
      the request for `/fields` gives, which may be an exception. */
  function KnownFields(cache: Option<seq<string>>, server: Result<seq<string>>): Result<seq<string>> {
    if cache.Some? then Ok(cache.value) else server
  }

  predicate AllScalar(criteria: seq<(string, CritVal)>) {
    forall i :: 0 <= i < |criteria| ==> criteria[i].1.Scalar?
  }

  /** The `crit:val` items of the query, in criteria order. */
  function Items(criteria: seq<(string, CritVal)>): (r: seq<string>)
    requires AllScalar(criteria)
    ensures |r| == |criteria|
    ensures forall i :: 0 <= i < |r| ==> r[i] == criteria[i].0 + ":" + criteria[i].1.text
  {
    seq(|criteria|, i requires 0 <= i < |criteria| => criteria[i].0 + ":" + criteria[i].1.text)
  }

  /** What the URL loop appends for the criteria, item by item; a list value stops it
      with NotImplementedError. */
  function CriteriaText(criteria: seq<(string, CritVal)>): Result<string>
    decreases |criteria|
  {
    if |criteria| == 0 then Ok("")
    else
      var front :- CriteriaText(criteria[..|criteria| - 1]);
      var (crit, val) := criteria[|criteria| - 1];
      if val.ListVal? then Err(NotImplementedError("Need to join the list"))
      else Ok(front + (if |criteria| > 1 then "&fq=" else "") + crit + ":" + val.text)
  }

  /** The loop writes the items joined by "&fq=", and raises exactly when a value is a list. */
  lemma {:induction false} CriteriaJoined(criteria: seq<(string, CritVal)>)
    ensures AllScalar(criteria) ==> CriteriaText(criteria) == Ok(JoinWith("&fq=", Items(criteria)))
    ensures !AllScalar(criteria) ==> CriteriaText(criteria) == Err(NotImplementedError("Need to join the list"))
    decreases |criteria|
  {
    if |criteria| > 0 {
      var front := criteria[..|criteria| - 1];
      CriteriaJoined(front);
      if AllScalar(criteria) {
        assert AllScalar(front);
        assert Items(criteria) == Items(front) + [Items(criteria)[|criteria| - 1]];
        var (crit, val) := criteria[|criteria| - 1];
        var item := crit + ":" + val.text;
        if |front| > 0 {
          JoinWithAppend("&fq=", Items(front), item);
          var j := JoinWith("&fq=", Items(front));
          assert j + "&fq=" + crit + ":" + val.text == j + "&fq=" + item;
        } else {
          assert "" + "" + crit + ":" + val.text == item;
        }
      } else if AllScalar(front) {
        assert !criteria[|criteria| - 1].1.Scalar?;
      }
    }
  }

  lemma CriteriaTextStep(criteria: seq<(string, CritVal)>, num: nat)
    requires num < |criteria| && criteria[num].1.Scalar? && CriteriaText(criteria[..num]).Ok?
    ensures CriteriaText(criteria[..num + 1])
         == Ok(CriteriaText(criteria[..num]).value + ((if num > 0 then "&fq=" else "") + criteria[num].0 + ":" + criteria[num].1.text))
  {
    assert criteria[..num + 1][..num] == criteria[..num];
    var t := CriteriaText(criteria[..num]).value;
    var sep: string := if num > 0 then "&fq=" else "";
    assert t + sep + criteria[num].0 + ":" + criteria[num].1.text == t + (sep + criteria[num].0 + ":" + criteria[num].1.text);
  }

  /** The query URL for valid arguments. */
  function QueryUrl(base: string, criteria: seq<(string, CritVal)>, size: int, page: int): string
    requires AllScalar(criteria)
  {
    base + "/select?q=" + JoinWith("&fq=", Items(criteria)) + "&size=" + IntStr(size) + "&page=" + IntStr(page)
  }

  /** The error raised for a rejected query: the first criterion whose field is unknown
      or whose value is not allowed, or else a generic one. Reading `fields` for the
      first criterion lets a failed `/fields` request through. */
  function Diagnose(fields: Result<seq<string>>, criteria: seq<(string, CritVal)>, fieldPages: string -> seq<FieldsPage>, url: string): (e: PyError)
    ensures fields.Ok? || |criteria| == 0 ==> e.ValueError?
    ensures fields.Err? && |criteria| > 0 ==> e == fields.error
    decreases |criteria|
  {
    if |criteria| == 0 then ValueError("Invalid query with url: " + url)
    else if fields.Err? then fields.error
    else
      var (crit, val) := criteria[0];
      if crit !in fields.value then ValueError("Query criteria " + crit + " not in available fields")
      else
        var values := PagedValues(fieldPages(crit), 0, 1);
        if values.Err? then values.error
        else if val.Scalar? && val.text !in values.value then ValueError("Query criteria value " + val.text + " for field " + crit + " not valid.")
        else Diagnose(fields, criteria[1..], fieldPages, url)
  }

  // ---------------------------------------------------------------- downloads

  const DefaultPrefix: string := "neuromorpho_"

  function BuildFilepath(cacheDir: string, id: string): (r: string)
    ensures EndsWith(r, id + ".swc")
  {
    PathJoin(cacheDir, id + ".swc")
  }

  function DownloadUrl(archive: string, name: string): string {
    "https://neuromorpho.org/dableFiles/" + Lower(archive) + "/CNG version/" + name + ".CNG.swc"
  }

  /** `neuron.get("neuron_name", neuron["neuron_id"])` or `neuron["neuron_id"]`: the
      default is evaluated first, so a missing id is a KeyError either way. */
  function FileKey(e: Json, useNames: bool): (r: Result<Json>)
    requires e.JObj?
    ensures r.Ok? <==> "neuron_id" in e.fields
    ensures r.Ok? ==> r.value == (if useNames && "neuron_name" in e.fields then e.fields["neuron_name"] else e.fields["neuron_id"])
  {
    var id :- Get(e, "neuron_id");
    if useNames && "neuron_name" in e.fields then Ok(e.fields["neuron_name"]) else Ok(id)
  }

  /** What `request(url)` followed by `req.content.decode("utf-8")` gives: the decoded
      body, a body that is not UTF-8 (a UnicodeDecodeError, raised after the file was
      opened for writing), or the exception `request` raised (a ValueError for a response
      that is not ok, a ConnectionError without internet, or a transport error). */
  datatype Fetched = Decoded(text: string) | Undecodable | Raised(error: PyError)

  /** The download URL of an entry: the archive is lower-cased (a non-string has no
      `lower`) and the name is looked up. */
  function FileUrl(e: Json): (r: Result<string>)
    requires e.JObj?
    ensures r.Ok? <==> "archive" in e.fields && e.fields["archive"].JStr? && "neuron_name" in e.fields
    ensures r.Ok? ==> r.value == DownloadUrl(e.fields["archive"].s, Str(e.fields["neuron_name"]))
  {
    var archive :- Get(e, "archive");
    if !archive.JStr? then Err(AttributeError("object has no attribute 'lower'"))
    else
      var name :- Get(e, "neuron_name");
      Ok(DownloadUrl(archive.s, Str(name)))
  }

  /** The entry's file was fetched and decoded. */
  predicate FetchedOk(e: Json, fetch: string -> Fetched)
    requires e.JObj?
  {
    FileUrl(e).Ok? && fetch(FileUrl(e).value).Decoded?
  }

  /** The download of a missing file. Only a ValueError is caught: it unloads the
      neuron, leaving no file when `request` raised it and an empty one when decoding
      did; any other exception leaves the loop. */
  function FetchFile(e: Json, fp: string, files: map<string, string>, load: bool, fetch: string -> Fetched): (r: Result<(bool, map<string, string>)>)
    requires e.JObj? && fp !in files
    ensures FileUrl(e).Err? ==> r == Err(FileUrl(e).error)
    ensures FileUrl(e).Ok? ==> var got := fetch(FileUrl(e).value);
              && (r.Err? <==> got.Raised? && !got.error.ValueError?)
              && (r.Err? ==> r.error == got.error)
              && (r.Ok? ==> (r.value.0 <==> load && got.Decoded?))
              && (r.Ok? ==> (fp in r.value.1 <==> !got.Raised?))
              && (got.Decoded? ==> r.value.1[fp] == got.text)
              && (got.Undecodable? ==> r.value.1[fp] == "")
    ensures r.Ok? ==> r.value.1 == files || (fp in r.value.1 && r.value.1 == files[fp := r.value.1[fp]])
  {
    var url :- FileUrl(e);
    match fetch(url)
    case Decoded(text) => Ok((load, files[fp := text]))
    case Undecodable => Ok((false, files[fp := ""]))
    case Raised(err) => if err.ValueError? then Ok((false, files)) else Err(err)
  }

  /** What one metadata entry yields. */
  datatype Step = Skipped | Made(args: NeuronArgs)

  /** One iteration of the download loop. */
  function EntryStep(cacheDir: string, files: map<string, string>, e: Json, prefix: string, load: bool, useNames: bool,
                     fetch: string -> Fetched): (r: Result<(Step, map<string, string>)>)
    ensures !e.JObj? ==> r.Err? && r.error.ValueError?
    ensures e.JObj? && "status" in e.fields ==> r == Ok((Skipped, files))
    ensures r.Ok? && r.value.0.Made? ==> var a := r.value.0.args;
      && e.JObj? && "status" !in e.fields && "neuron_id" in e.fields
      && a.neuronName == prefix + Str(e.fields["neuron_id"])
      && a.dataFile == BuildFilepath(cacheDir, Str(FileKey(e, useNames).value))
      && (a.loadFile <==> load && (a.dataFile in files || FetchedOk(e, fetch)))
    ensures r.Ok? ==> forall f :: f in files ==> f in r.value.1 && r.value.1[f] == files[f]
    ensures r.Ok? ==> forall f :: f in r.value.1 && f !in files ==> r.value.0.Made? && f == r.value.0.args.dataFile
  {
    if !e.JObj? then Err(ValueError(""))
    else if "status" in e.fields then Ok((Skipped, files))
    else
      var key :- FileKey(e, useNames);
      var fp := BuildFilepath(cacheDir, Str(key));
      var got :- if fp in files then Ok((load, files)) else FetchFile(e, fp, files, load, fetch);
      // `neuron["neuron_id"]` cannot fail here: the file key needed it already.
      Ok((Made(NeuronArgs(fp, prefix + Str(e.fields["neuron_id"]), got.0)), got.1))
  }

  /** The loop's state: the neurons made so far, the files, and the error that stopped it. */
  type Progress = (seq<NeuronArgs>, map<string, string>, Option<PyError>)

  /** The state after one more entry's step. */
  function Advance(st: Progress, s: Result<(Step, map<string, string>)>): Progress {
    if s.Err? then (st.0, st.1, Some(s.error))
    else if s.value.0.Skipped? then (st.0, s.value.1, None)
    else (st.0 + [s.value.0.args], s.value.1, None)
  }

  /** The download loop over the entries. */
  function DownloadAll(cacheDir: string, files: map<string, string>, es: seq<Json>, prefix: string, load: bool, useNames: bool,
                       fetch: string -> Fetched): Progress
    decreases |es|
  {
    if |es| == 0 then ([], files, None)
    else
      var st := DownloadAll(cacheDir, files, es[..|es| - 1], prefix, load, useNames, fetch);
      if st.2.Some? then st
      else Advance(st, EntryStep(cacheDir, st.1, es[|es| - 1], prefix, load, useNames, fetch))
  }

  lemma DownloadNext(cacheDir: string, files: map<string, string>, es: seq<Json>, i: nat, prefix: string,
                     load: bool, useNames: bool, fetch: string -> Fetched)
    requires i < |es|
    requires DownloadAll(cacheDir, files, es[..i], prefix, load, useNames, fetch).2.None?
    ensures var st := DownloadAll(cacheDir, files, es[..i], prefix, load, useNames, fetch);
            DownloadAll(cacheDir, files, es[..i + 1], prefix, load, useNames, fetch)
              == Advance(st, EntryStep(cacheDir, st.1, es[i], prefix, load, useNames, fetch))
  {
    assert es[..i + 1][..i] == es[..i];
  }

  /** Once an entry fails, the loop has stopped: later entries change nothing. */
  lemma {:induction false} DownloadStops(cacheDir: string, files: map<string, string>, es: seq<Json>, k: nat, prefix: string,
                                         load: bool, useNames: bool, fetch: string -> Fetched)
    requires k <= |es|
    requires DownloadAll(cacheDir, files, es[..k], prefix, load, useNames, fetch).2.Some?
    ensures DownloadAll(cacheDir, files, es, prefix, load, useNames, fetch) == DownloadAll(cacheDir, files, es[..k], prefix, load, useNames, fetch)
    decreases |es| - k
  {
    if k < |es| {
      assert es[..|es| - 1][..k] == es[..k];
      DownloadStops(cacheDir, files, es[..|es| - 1], k, prefix, load, useNames, fetch);
    } else {
      assert es[..k] == es;
    }
  }

  /** A body that is not UTF-8 leaves an empty file behind and an unloaded neuron; a
      second download of the same entry finds that file, fetches nothing and loads it. */
  lemma UndecodableLeavesEmptyFile(cacheDir: string, files: map<string, string>, e: Json, prefix: string, useNames: bool,
                                   fetch: string -> Fetched)
    requires e.JObj? && "status" !in e.fields && "neuron_id" in e.fields
    requires BuildFilepath(cacheDir, Str(FileKey(e, useNames).value)) !in files
    requires FileUrl(e).Ok? && fetch(FileUrl(e).value).Undecodable?
    ensures var fp := BuildFilepath(cacheDir, Str(FileKey(e, useNames).value));
            var first := EntryStep(cacheDir, files, e, prefix, true, useNames, fetch);
            && first.Ok? && first.value.0.Made? && !first.value.0.args.loadFile
            && first.value.1 == files[fp := ""]
            && EntryStep(cacheDir, first.value.1, e, prefix, true, useNames, fetch)
               == Ok((Made(NeuronArgs(fp, prefix + Str(e.fields["neuron_id"]), true)), files[fp := ""]))
  {
  }

  /** An exception other than a ValueError while fetching ends the whole download
      with that exception. */
  lemma RaisedEndsDownload(cacheDir: string, files: map<string, string>, es: seq<Json>, i: nat, prefix: string,
                           load: bool, useNames: bool, fetch: string -> Fetched)
    requires i < |es|
    requires DownloadAll(cacheDir, files, es[..i], prefix, load, useNames, fetch).2.None?
    requires var e := es[i];
             && e.JObj? && "status" !in e.fields && "neuron_id" in e.fields
             && BuildFilepath(cacheDir, Str(FileKey(e, useNames).value)) !in DownloadAll(cacheDir, files, es[..i], prefix, load, useNames, fetch).1
             && FileUrl(e).Ok? && fetch(FileUrl(e).value).Raised? && !fetch(FileUrl(e).value).error.ValueError?
    ensures DownloadAll(cacheDir, files, es, prefix, load, useNames, fetch).2 == Some(fetch(FileUrl(es[i]).value).error)
  {
    DownloadNext(cacheDir, files, es, i, prefix, load, useNames, fetch);
    DownloadStops(cacheDir, files, es, i + 1, prefix, load, useNames, fetch);
  }

  /** The entries that make a neuron: dicts without a "status" key. */
  function Kept(es: seq<Json>): (r: seq<Json>)
    ensures |r| <= |es|
    ensures forall i :: 0 <= i < |r| ==> r[i].JObj? && "status" !in r[i].fields
    decreases |es|
  {
    if |es| == 0 then []
    else
      var e := es[|es| - 1];
      Kept(es[..|es| - 1]) + (if e.JObj? && "status" !in e.fields then [e] else [])
  }

  /** A download that completes makes one neuron per kept entry, in order, named by
      the prefix and the entry's id, and never overwrites a file that was there. */
  lemma {:induction false} DownloadOnePerEntry(cacheDir: string, files: map<string, string>, es: seq<Json>, prefix: string,
                                               load: bool, useNames: bool, fetch: string -> Fetched)
    ensures var (args, fs, err) := DownloadAll(cacheDir, files, es, prefix, load, useNames, fetch);
            && (forall f :: f in files ==> f in fs && fs[f] == files[f])
            && (err.None? ==>
                  && |args| == |Kept(es)|
                  && forall i :: 0 <= i < |args| ==>
                       && "neuron_id" in Kept(es)[i].fields
                       && args[i].neuronName == prefix + Str(Kept(es)[i].fields["neuron_id"])
                       && args[i].dataFile == BuildFilepath(cacheDir, Str(FileKey(Kept(es)[i], useNames).value)))
    decreases |es|
  {
    if |es| > 0 {
      var front := es[..|es| - 1];
      DownloadOnePerEntry(cacheDir, files, front, prefix, load, useNames, fetch);
    }
  }

  /** Every entry must be a dict: a download that completes saw no other kind. */
  lemma {:induction false} CompletedSawOnlyDicts(cacheDir: string, files: map<string, string>, es: seq<Json>, prefix: string,
                                                 load: bool, useNames: bool, fetch: string -> Fetched)
    ensures DownloadAll(cacheDir, files, es, prefix, load, useNames, fetch).2.None? ==> forall i :: 0 <= i < |es| ==> es[i].JObj?
    decreases |es|
  {
    if |es| > 0 {
      var front := es[..|es| - 1];
      CompletedSawOnlyDicts(cacheDir, files, front, prefix, load, useNames, fetch);
      assert forall i :: 0 <= i < |front| ==> front[i] == es[i];
    }
  }

  // ------------------------------------------------------------------ client

  class NeuroMorphoApi {
    var baseUrl: string
    /** `_fields`, filled on first use. */
    var fieldsCache: Option<seq<string>>
    /** `neuromorphorg_cache`. */
    const cacheDir: string
    /** The files on disk, by path. */
    var files: map<string, string>

    constructor (baseUrl: string, cacheDir: string, files: map<string, string>)
      ensures this.baseUrl == baseUrl && this.cacheDir == cacheDir && this.files == files && fieldsCache.None?
    {
      this.baseUrl := baseUrl;
      this.cacheDir := cacheDir;
      this.files := files;
      fieldsCache := None;
    }

    /** The `fields` property: fetched once, then served from `_fields`; a failed
        request raises and leaves `_fields` empty. */
    method Fields(serverFields: Result<seq<string>>) returns (r: Result<seq<string>>)
      modifies this
      ensures r == KnownFields(old(fieldsCache), serverFields)
      ensures r.Ok? ==> fieldsCache == Some(r.value)
      ensures r.Err? ==> fieldsCache == None
      ensures baseUrl == old(baseUrl) && files == old(files)
    {
      if fieldsCache.None? {
        var fs :- serverFields;
        fieldsCache := Some(fs);
      }
      return Ok(fieldsCache.value);
    }

    /** `get_fields_values`: pages 0, 1, ... while the page number is below the page
        count, which each response may update; `requested` are the URLs asked for. */
    method GetFieldsValues(field: string, pages: seq<FieldsPage>) returns (r: Result<seq<string>>, requested: seq<string>)
      ensures r == PagedValues(pages, 0, 1)
      ensures requested == PageUrls(baseUrl, field, RequestCount(pages, 0, 1))
    {
      var current: nat := 0;
      var maxPage := 1;
      var values: seq<string> := [];
      requested := [];
      PrependNothing(PagedValues(pages, 0, 1));
      while current < maxPage
        invariant current <= |pages|
        invariant PagedValues(pages, 0, 1) == Prepend(values, PagedValues(pages, current, maxPage))
        invariant RequestCount(pages, 0, 1) == current + RequestCount(pages, current, maxPage)
        invariant requested == PageUrls(baseUrl, field, current)
        decreases |pages| - current
      {
        requested := requested + [PageUrl(baseUrl, field, current)];
        assert requested == PageUrls(baseUrl, field, current + 1);
        if current >= |pages| {
          return Err(ValueError("page request failed")), requested;
        }
        var req := pages[current];
        var rest := PagedValues(pages, current + 1, req.totalPages.GetOr(maxPage));
        PrependTwice(values, req.fields, rest);
        values := values + req.fields;
        maxPage := req.totalPages.GetOr(maxPage);
        current := current + 1;
      }
      assert values + [] == values;
      return Ok(values), requested;
    }

    /** The URL loop of `get_neurons_metadata`. */
    method BuildQuery(criteria: seq<(string, CritVal)>, size: int, page: int) returns (r: Result<string>)
      ensures AllScalar(criteria) ==> r == Ok(QueryUrl(baseUrl, criteria, size, page))
      ensures !AllScalar(criteria) ==> r == Err(NotImplementedError("Need to join the list"))
    {
      var head := baseUrl + "/select?q=";
      var url := head;
      ghost var text := "";
      var num := 0;
      while num < |criteria|
        invariant 0 <= num <= |criteria|
        invariant AllScalar(criteria[..num])
        invariant CriteriaText(criteria[..num]) == Ok(text) && url == head + text
      {
        var (crit, val) := criteria[num];
        if val.ListVal? {
          return Err(NotImplementedError("Need to join the list"));
        }
        CriteriaTextStep(criteria, num);
        var piece := (if num > 0 then "&fq=" else "") + crit + ":" + val.text;
        if num > 0 {
          url := url + "&fq=";
        }
        url := url + crit + ":" + val.text;
        assert url == head + (text + piece);
        text := text + piece;
        num := num + 1;
      }
      assert criteria[..num] == criteria;
      CriteriaJoined(criteria);
      url := url + "&size=" + IntStr(size) + "&page=" + IntStr(page);
      return Ok(url);
    }

    /** `get_neurons_metadata`: argument checks before any request, the query, and on
        an invalid query the diagnosis. An exception other than ValueError raised by the
        query's request is not caught. */
    method GetNeuronsMetadata(size: int, page: int, criteria: seq<(string, CritVal)>, query: string -> QueryResponse,
                              serverFields: Result<seq<string>>, fieldPages: string -> seq<FieldsPage>)
      returns (r: Result<(seq<Json>, Json)>)
      modifies this
      ensures size < 0 || size > 500 ==> r.Err? && r.error.ValueError? && fieldsCache == old(fieldsCache)
      ensures 0 <= size <= 500 && page < 0 ==> r.Err? && r.error.ValueError? && fieldsCache == old(fieldsCache)
      ensures 0 <= size <= 500 && page >= 0 && !AllScalar(criteria) ==>
                r == Err(NotImplementedError("Need to join the list")) && fieldsCache == old(fieldsCache)
      ensures 0 <= size <= 500 && page >= 0 && AllScalar(criteria) ==>
                var url := QueryUrl(baseUrl, criteria, size, page);
                var fs := KnownFields(old(fieldsCache), serverFields);
                && (query(url).Answered? ==> r == Ok((query(url).neurons, query(url).page)) && fieldsCache == old(fieldsCache))
                && (query(url).Failed? && !query(url).error.ValueError? ==> r == Err(query(url).error) && fieldsCache == old(fieldsCache))
                && (Invalid(query(url)) ==> r == Err(Diagnose(fs, criteria, fieldPages, url)))
      ensures fieldsCache == old(fieldsCache) || (old(fieldsCache).None? && serverFields.Ok? && fieldsCache == Some(serverFields.value))
      ensures baseUrl == old(baseUrl) && files == old(files)
    {
      if size < 0 || size > 500 {
        return Err(ValueError("Invalid size argument. Size should be an integer between 0 and 500"));
      }
      if page < 0 {
        return Err(ValueError("Invalid page argument. Page should be an integer >= 0"));
      }
      var url :- BuildQuery(criteria, size, page);
      var response := query(url);
      if response.Answered? {
        return Ok((response.neurons, response.page));
      }
      if response.Failed? && !response.error.ValueError? {
        return Err(response.error);
      }
      r := Diagnosis(criteria, serverFields, fieldPages, url);
    }

    /** The check of each criterion after a rejected query. */
    method Diagnosis(criteria: seq<(string, CritVal)>, serverFields: Result<seq<string>>, fieldPages: string -> seq<FieldsPage>, url: string)
      returns (r: Result<(seq<Json>, Json)>)
      modifies this
      ensures r == Err(Diagnose(KnownFields(old(fieldsCache), serverFields), criteria, fieldPages, url))
      ensures fieldsCache == old(fieldsCache) || (old(fieldsCache).None? && serverFields.Ok? && fieldsCache == Some(serverFields.value))
      ensures baseUrl == old(baseUrl) && files == old(files)
    {
      ghost var fs0 := KnownFields(fieldsCache, serverFields);
      var i := 0;
      while i < |criteria|
        invariant 0 <= i <= |criteria|
        invariant KnownFields(fieldsCache, serverFields) == fs0
        invariant Diagnose(fs0, criteria, fieldPages, url) == Diagnose(fs0, criteria[i..], fieldPages, url)
        invariant fieldsCache == old(fieldsCache) || (old(fieldsCache).None? && serverFields.Ok? && fieldsCache == Some(serverFields.value))
        invariant baseUrl == old(baseUrl) && files == old(files)
      {
        var (crit, val) := criteria[i];
        var fs :- Fields(serverFields);
        if crit !in fs {
          return Err(ValueError("Query criteria " + crit + " not in available fields"));
        }
        var values, _ := GetFieldsValues(crit, fieldPages(crit));
        if values.Err? {
          return Err(values.error);
        }
        if val.Scalar? && val.text !in values.value {
          return Err(ValueError("Query criteria value " + val.text + " for field " + crit + " not valid."));
        }
        assert criteria[i..][1..] == criteria[i + 1..];
        i := i + 1;
      }
      return Err(ValueError("Invalid query with url: " + url));
    }

    /** One entry of `download_neurons`. */
    method DownloadOne(e: Json, prefix: string, load: bool, useNames: bool, fetch: string -> Fetched)
      returns (r: Result<Step>)
      modifies this
      ensures var s := EntryStep(cacheDir, old(files), e, prefix, load, useNames, fetch);
              && (s.Ok? ==> r == Ok(s.value.0) && files == s.value.1)
              && (s.Err? ==> r == Err(s.error) && files == old(files))
      ensures baseUrl == old(baseUrl) && fieldsCache == old(fieldsCache)
    {
      if !e.JObj? {
        return Err(ValueError(""));
      }
      if "status" in e.fields {
        return Ok(Skipped);
      }
      var key :- FileKey(e, useNames);
      var filepath := BuildFilepath(cacheDir, Str(key));
      var loadCurrent := load;
      if filepath !in files {
        var archive :- Get(e, "archive");
        if !archive.JStr? {
          return Err(AttributeError("object has no attribute 'lower'"));
        }
        var name :- Get(e, "neuron_name");
        var got := fetch(DownloadUrl(archive.s, Str(name)));
        match got {
          case Decoded(text) =>
            files := files[filepath := text];
          case Undecodable =>
            files := files[filepath := ""];
            loadCurrent := false;
          case Raised(err) =>
            if !err.ValueError? {
              return Err(err);
            }
            loadCurrent := false;
        }
      }
      return Ok(Made(NeuronArgs(filepath, prefix + Str(e.fields["neuron_id"]), loadCurrent)));
    }

    /** `download_neurons`: a non-list is wrapped; one neuron per entry without a
        "status" key, in order; a non-dict entry stops the loop with ValueError. */
    method DownloadNeurons(neurons: Json, name: Option<string>, load: bool, useNames: bool, fetch: string -> Fetched)
      returns (r: Result<seq<NeuronArgs>>)
      modifies this
      ensures var (args, fs, err) := DownloadAll(cacheDir, old(files), AsList(neurons), name.GetOr(DefaultPrefix), load, useNames, fetch);
              && files == fs
              && r == (if err.Some? then Err(err.value) else Ok(args))
      ensures baseUrl == old(baseUrl) && fieldsCache == old(fieldsCache)
    {
      var es := AsList(neurons);
      var prefix := name.GetOr(DefaultPrefix);
      var toReturn: seq<NeuronArgs> := [];
      var i := 0;
      while i < |es|
        invariant 0 <= i <= |es|
        invariant DownloadAll(cacheDir, old(files), es[..i], prefix, load, useNames, fetch) == (toReturn, files, None)
        invariant baseUrl == old(baseUrl) && fieldsCache == old(fieldsCache)
      {
        DownloadNext(cacheDir, old(files), es, i, prefix, load, useNames, fetch);
        var step := DownloadOne(es[i], prefix, load, useNames, fetch);
        if step.Err? {
          DownloadStops(cacheDir, old(files), es, i + 1, prefix, load, useNames, fetch);
          return Err(step.error);
        }
        if step.value.Made? {
          toReturn := toReturn + [step.value.args];
        }
        i := i + 1;
      }
      assert es[..i] == es;
      return Ok(toReturn);
    }
  }

  /** The constructor: no connection is a ConnectionError; otherwise the default server
      is used when its health check answers, else the fallback server when its own
      does, else a ConnectionError. */
  method Connect(connected: bool, healthy: string -> bool, cacheDir: string, files: map<string, string>)
    returns (r: Result<NeuroMorphoApi>)
    ensures !connected ==> r.Err? && r.error.ConnectionError?
    ensures connected && healthy(HealthUrl(DefaultBaseUrl)) ==> r.Ok? && r.value.baseUrl == DefaultBaseUrl
    ensures connected && !healthy(HealthUrl(DefaultBaseUrl)) && healthy(HealthUrl(FallbackBaseUrl)) ==>
              r.Ok? && r.value.baseUrl == FallbackBaseUrl
    ensures connected && !healthy(HealthUrl(DefaultBaseUrl)) && !healthy(HealthUrl(FallbackBaseUrl)) ==>
              r.Err? && r.error.ConnectionError?
    ensures r.Ok? ==> fresh(r.value) && r.value.fieldsCache.None? && r.value.cacheDir == cacheDir && r.value.files == files
  {
    if !connected {
      return Err(ConnectionError("You will need to be connected to the internet to use the NeuroMorpOrgAPI class to download neurons"));
    }
    var base := DefaultBaseUrl;
    if !healthy(HealthUrl(base)) {
      base := FallbackBaseUrl;
      if !healthy(HealthUrl(base)) {
        return Err(ConnectionError("It seems that neuromorpho API is down"));
      }
    }
    var api := new NeuroMorphoApi(base, cacheDir, files);
    return Ok(api);
  }
}
