/** `MpinMorphologyAPI` (morphapi/api/mpin_celldb.py): the zebrafish neurons of the
    MPIN atlas. A file is its text, read line by line; the fixed SWC table is a
    two-dimensional array of numbers; the atlas is a pair of functions. */
module Mpin {
  import opened Wrappers
  import opened PyStr
  import opened Values
  import Swc

  // ------------------------------------------------------------- soma line

  /** A line `readline()` gives that starts with "#". */
  predicate IsComment(line: string) {
    |line| > 0 && line[0] == '#'
  }

  /** `file.readline()`: the next line, or "" past the end of the file. */
  function ReadLine(lines: seq<string>, i: nat): string {
    if i < |lines| then lines[i] else ""
  }

  /** How many comment lines the file starts with. */
  function LeadingComments(lines: seq<string>): (k: nat)
    ensures k <= |lines|
    ensures forall j :: 0 <= j < k ==> IsComment(lines[j])
    ensures k < |lines| ==> !IsComment(lines[k])
    decreases |lines|
  {
    if |lines| == 0 || !IsComment(lines[0]) then 0
    else
      var k := LeadingComments(lines[1..]);
      assert forall j :: 1 <= j <= k ==> lines[j] == lines[1..][j - 1];
      k + 1
  }

  /** The line the `while line_start == "#"` loop stops at: the first line after the
      comments. Running out of lines first makes `line[0]` fail on "". */
  function SomaLine(lines: seq<string>): (r: Result<string>)
    ensures r.Ok? <==> LeadingComments(lines) < |lines| && |lines[LeadingComments(lines)]| > 0
    ensures r.Ok? ==> r.value == lines[LeadingComments(lines)] && r.value[0] != '#'
    ensures r.Err? ==> r.error.IndexError?
  {
    var k := LeadingComments(lines);
    var line := ReadLine(lines, k);
    if |line| == 0 then Err(IndexError("string index out of range")) else Ok(line)
  }

  /** `fields[2:-2]`: the fields between the first two and the last two. */
  function Middle<T>(fields: seq<T>): (r: seq<T>)
    ensures |fields| <= 4 ==> r == []
    ensures |fields| > 4 ==> |r| == |fields| - 4 && forall i :: 0 <= i < |r| ==> r[i] == fields[i + 2]
  {
    if |fields| <= 4 then [] else fields[2..|fields| - 2]
  }

  /** `soma_coords_from_file` on the lines of a file: the fields of the soma line
      between the id and type and the radius and parent, as their text (the `float`
      conversion is not part of this model). */
  function SomaCoords(lines: seq<string>): Result<seq<string>> {
    var line :- SomaLine(lines);
    Ok(Middle(Split(line, ' ')))
  }

  /** The reading loop of `soma_coords_from_file`. */
  method SomaCoordsFromFile(text: string) returns (r: Result<seq<string>>)
    ensures r == SomaCoords(Swc.ReadLines(text))
  {
    var lines := Swc.ReadLines(text);
    var lineStart := '#';
    var line := "";
    var i := 0;
    while lineStart == '#'
      invariant 0 <= i <= |lines|
      invariant i <= LeadingComments(lines) || (i == LeadingComments(lines) + 1 && line == lines[i - 1] && |line| > 0)
      invariant lineStart == '#' ==> i <= LeadingComments(lines)
      invariant lineStart != '#' ==> i == LeadingComments(lines) + 1 && line == lines[i - 1] && line[0] == lineStart
      decreases |lines| - i
    {
      line := ReadLine(lines, i);
      if |line| == 0 {
        return Err(IndexError("string index out of range"));
      }
      i := i + 1;
      lineStart := line[0];
    }
    return Ok(Middle(Split(line, ' ')));
  }

  /** Comment lines before the soma line make no difference. */
  lemma {:induction false} CommentsSkipped(comments: seq<string>, rest: seq<string>)
    requires forall j :: 0 <= j < |comments| ==> IsComment(comments[j])
    ensures LeadingComments(comments + rest) == |comments| + LeadingComments(rest)
    ensures SomaCoords(comments + rest) == SomaCoords(rest)
    decreases |comments|
  {
    if |comments| > 0 {
      assert (comments + rest)[1..] == comments[1..] + rest;
      CommentsSkipped(comments[1..], rest);
    } else {
      assert comments + rest == rest;
    }
  }

  /** For a seven-column SWC row `id type x y z radius parent` after the comments, the
      coordinates are its x, y and z fields. */
  lemma SomaRowGivesPosition(comments: seq<string>, fields: seq<string>, rest: seq<string>)
    requires forall j :: 0 <= j < |comments| ==> IsComment(comments[j])
    requires |fields| == 7 && |fields[0]| > 0 && fields[0][0] != '#'
    requires forall i :: 0 <= i < 7 ==> ' ' !in fields[i]
    ensures SomaCoords(comments + [Join(' ', fields)] + rest) == Ok(fields[2..5])
  {
    assert comments + [Join(' ', fields)] + rest == comments + ([Join(' ', fields)] + rest);
    CommentsSkipped(comments, [Join(' ', fields)] + rest);
    SplitJoin(fields, ' ');
    assert Join(' ', fields)[0] == fields[0][0];
  }

  // ----------------------------------------------------------- SWC fixing

  /** The soma radius every fixed file gets. */
  const NewSomaSize: real := 7.0

  /** `map_points_to` from the dataset's "rai" space to "asl": it maps each point, one
      row's coordinate columns, to a point of the same dimension. */
  type PointMap = seq<real> -> seq<real>

  ghost predicate KeepsDimension(convert: PointMap) {
    forall p :: |convert(p)| == |p|
  }

  /** The coordinate columns `2:-2` of a row. */
  function Coords(row: seq<real>): seq<real> {
    if |row| >= 4 then row[2..|row| - 2] else []
  }

  /** A cell of the fixed table, from the row as read: row 0 is the soma (type 1),
      every other row gets type 2, the coordinate columns are those of the converted
      point, and the soma's second-to-last column (the radius) is set last. */
  function FixedCell(row: seq<real>, i: nat, j: nat, convert: PointMap): real
    requires j < |row| && KeepsDimension(convert)
  {
    if i == 0 && j + 2 == |row| then NewSomaSize
    else if 2 <= j < |row| - 2 then convert(Coords(row))[j - 2]
    else if j == 1 then (if i == 0 then 1.0 else 2.0)
    else row[j]
  }

  /** A row of the fixed table. */
  function FixedRow(row: seq<real>, i: nat, convert: PointMap): (r: seq<real>)
    requires KeepsDimension(convert)
    ensures |r| == |row|
  {
    seq(|row|, j requires 0 <= j < |row| => FixedCell(row, i, j, convert))
  }

  /** Row `i` of a table. */
  function RowAt(t: array2<real>, i: nat): (r: seq<real>)
    requires i < t.Length0
    reads t
    ensures |r| == t.Length1 && forall j :: 0 <= j < t.Length1 ==> r[j] == t[i, j]
  {
    seq(t.Length1, j requires 0 <= j < t.Length1 reads t => t[i, j])
  }

  /** `fixed_file_path` defaults to the input path. */
  function OutputPath(filePath: string, fixedFilePath: Option<string>): (r: string)
    ensures fixedFilePath.None? ==> r == filePath
    ensures fixedFilePath.Some? ==> r == fixedFilePath.value
  {
    match fixedFilePath
    case None => filePath
    case Some(p) => p
  }

  /** The column assignments of `fix_mpin_swgfile` on the table read from the file;
      the path the table is written to is returned. An empty table cannot be read,
      and a table with fewer than two columns has no type column. */
  method FixMpinSwcFile(t: array2<real>, filePath: string, fixedFilePath: Option<string>, convert: PointMap) returns (r: Result<string>)
    requires KeepsDimension(convert)
    modifies t
    ensures t.Length0 == 0 ==> r.Err? && r.error.ValueError?
    ensures t.Length0 > 0 && t.Length1 < 2 ==> r.Err? && r.error.IndexError?
    ensures r.Err? ==> unchanged(t)
    ensures t.Length0 > 0 && t.Length1 >= 2 ==> r == Ok(OutputPath(filePath, fixedFilePath))
    ensures r.Ok? ==> forall i, j :: 0 <= i < t.Length0 && 0 <= j < t.Length1 ==>
                        t[i, j] == FixedCell(old(RowAt(t, i)), i, j, convert)
  {
    var outPath := OutputPath(filePath, fixedFilePath);
    if t.Length0 == 0 {
      return Err(ValueError("No columns to parse from file"));
    }
    if t.Length1 < 2 {
      return Err(IndexError("single positional indexer is out-of-bounds"));
    }
    t[0, 1] := 1.0;
    var i := 1;
    while i < t.Length0
      invariant 1 <= i <= t.Length0
      invariant forall a, b :: 0 <= a < t.Length0 && 0 <= b < t.Length1 ==>
                  t[a, b] == (if b == 1 && a == 0 then 1.0 else if b == 1 && a < i then 2.0 else old(t[a, b]))
    {
      t[i, 1] := 2.0;
      i := i + 1;
    }
    label typed:
    ConvertPoints(t, convert);
    t[0, t.Length1 - 2] := NewSomaSize;
    forall a, b | 0 <= a < t.Length0 && 0 <= b < t.Length1
      ensures t[a, b] == FixedCell(old(RowAt(t, a)), a, b, convert)
    {
      CoordsSame(old@typed(RowAt(t, a)), old(RowAt(t, a)));
    }
    return Ok(outPath);
  }

  /** Rows that agree on the coordinate columns have the same point. */
  lemma CoordsSame(r1: seq<real>, r2: seq<real>)
    requires |r1| == |r2| && forall j :: 2 <= j < |r1| - 2 ==> r1[j] == r2[j]
    ensures Coords(r1) == Coords(r2)
  {
  }

  /** `df.iloc[:, 2:-2] = bgspace.map_points_to(...)`: every row's coordinate columns
      are replaced by the converted point; the other columns are kept. */
  method ConvertPoints(t: array2<real>, convert: PointMap)
    requires KeepsDimension(convert)
    modifies t
    ensures forall a, b :: 0 <= a < t.Length0 && 0 <= b < t.Length1 ==>
              t[a, b] == (if 2 <= b < t.Length1 - 2 then convert(Coords(old(RowAt(t, a))))[b - 2] else old(t[a, b]))
  {
    var cols := t.Length1;
    var i := 0;
    while i < t.Length0
      invariant 0 <= i <= t.Length0
      invariant forall a, b :: 0 <= a < t.Length0 && 0 <= b < cols ==>
                  t[a, b] == (if 2 <= b < cols - 2 && a < i then convert(Coords(old(RowAt(t, a))))[b - 2] else old(t[a, b]))
    {
      var row := RowAt(t, i);
      assert row == old(RowAt(t, i));
      var q := convert(Coords(row));
      var j := 2;
      while j < cols - 2
        invariant 2 <= j && (cols >= 4 ==> j <= cols - 2)
        invariant forall a, b :: 0 <= a < t.Length0 && 0 <= b < cols ==>
                    t[a, b] == (if 2 <= b < cols - 2 && (a < i || (a == i && b < j)) then convert(Coords(old(RowAt(t, a))))[b - 2] else old(t[a, b]))
      {
        t[i, j] := q[j - 2];
        j := j + 1;
      }
      i := i + 1;
    }
  }

  /** In an SWC table of seven columns, the soma row gets type 1 and radius 7, every
      other row type 2, x, y and z are the converted point, and the id and parent are
      kept. Fixing a fixed row changes its type and radius no more, but converts its
      point a second time. */
  lemma FixedSwcRow(row: seq<real>, i: nat, convert: PointMap)
    requires |row| == 7 && KeepsDimension(convert)
    ensures var r := FixedRow(row, i, convert);
            && r[0] == row[0] && r[6] == row[6]
            && r[1] == (if i == 0 then 1.0 else 2.0)
            && r[5] == (if i == 0 then 7.0 else row[5])
            && r[2..5] == convert(row[2..5])
    ensures var twice := FixedRow(FixedRow(row, i, convert), i, convert);
            && twice[..2] == FixedRow(row, i, convert)[..2]
            && twice[5..] == FixedRow(row, i, convert)[5..]
            && twice[2..5] == convert(convert(row[2..5]))
  {
    var r := FixedRow(row, i, convert);
    assert Coords(row) == row[2..5];
    assert r[2..5] == convert(row[2..5]);
    var twice := FixedRow(r, i, convert);
    assert Coords(r) == r[2..5];
    assert twice[2..5] == convert(convert(row[2..5]));
  }

  /** With only three columns the radius column is the type column, so the soma
      ends with type 7 rather than 1, and there are no coordinate columns. */
  lemma ThreeColumnsSomaType(row: seq<real>, convert: PointMap)
    requires |row| == 3 && KeepsDimension(convert)
    ensures FixedRow(row, 0, convert) == [row[0], 7.0, row[2]]
  {
  }

  // ------------------------------------------------------------ soma table

  /** One row of `neurons_df`. */
  datatype SomaRow = SomaRow(filename: string, posAp: string, posSi: string, posLr: string, region: int)

  /** The atlas: the structure at a position (None when the position is outside the
      annotation volume and the lookup raises IndexError), and the ids of a list of
      structures. */
  datatype Atlas = Atlas(structureAt: seq<string> -> Option<int>, structureIds: seq<string> -> seq<int>)

  /** A table: the rows in the order their keys were first inserted, as a dict keeps them. */
  type Table = seq<(string, SomaRow)>

  /** `Path(name).stem` for a name ending in ".swc". */
  function Stem(name: string): string {
    if |name| > 4 then name[..|name| - 4] else name
  }

  /** `d[key] = value` on an insertion-ordered dict. */
  function Put(d: Table, key: string, row: SomaRow): Table
    decreases |d|
  {
    if |d| == 0 then [(key, row)]
    else if d[0].0 == key then [(key, row)] + d[1..]
    else [d[0]] + Put(d[1..], key, row)
  }

  /** The dict grows by at most one entry, and every entry is the new one or an old one. */
  lemma {:induction false} PutShape(d: Table, key: string, row: SomaRow)
    ensures var r := Put(d, key, row);
            && (|r| == |d| || |r| == |d| + 1)
            && forall i :: 0 <= i < |r| ==> r[i] == (key, row) || r[i] in d
    decreases |d|
  {
    if |d| > 0 && d[0].0 != key {
      var rest := Put(d[1..], key, row);
      PutShape(d[1..], key, row);
      assert forall i :: 1 <= i < |rest| + 1 ==> ([d[0]] + rest)[i] == rest[i - 1];
    }
  }

  /** `df.loc[key]`: the row stored under a key. */
  function Lookup(d: Table, key: string): (r: Option<SomaRow>)
    ensures r.Some? ==> (key, r.value) in d
    ensures r.None? ==> forall i :: 0 <= i < |d| ==> d[i].0 != key
    decreases |d|
  {
    if |d| == 0 then None
    else if d[0].0 == key then Some(d[0].1)
    else Lookup(d[1..], key)
  }

  /** The last row put under a key is the one looked up, and the other keys keep their rows. */
  lemma {:induction false} LookupPut(d: Table, key: string, row: SomaRow, other: string)
    ensures Lookup(Put(d, key, row), key) == Some(row)
    ensures other != key ==> Lookup(Put(d, key, row), other) == Lookup(d, other)
    decreases |d|
  {
    if |d| > 0 && d[0].0 != key {
      LookupPut(d[1..], key, row, other);
    }
  }

  /** The row one ".swc" file contributes: its coordinates, and the region the atlas
      puts its soma in, 0 outside the atlas. Fewer than three coordinates fail when
      the position is read. */
  function RowOf(atlas: Atlas, name: string, text: string): (r: Result<(string, SomaRow)>)
    ensures r.Ok? ==> r.value.0 == Stem(name) && r.value.1.filename == name
  {
    var coords :- SomaCoords(Swc.ReadLines(text));
    var region := atlas.structureAt(coords).GetOr(0);
    if |coords| < 3 then Err(IndexError("list index out of range"))
    else Ok((Stem(name), SomaRow(name, coords[0], coords[1], coords[2], region)))
  }

  /** The table the loop of `neurons_df` builds over the files still to read, starting
      from the rows built so far; the first failing file ends it. */
  function TableFrom(atlas: Atlas, acc: Table, files: seq<(string, string)>): Result<Table>
    decreases |files|
  {
    if |files| == 0 then Ok(acc)
    else if !EndsWith(files[0].0, ".swc") then TableFrom(atlas, acc, files[1..])
    else
      var row :- RowOf(atlas, files[0].0, files[0].1);
      TableFrom(atlas, Put(acc, row.0, row.1), files[1..])
  }

  /** `neurons_df` computed from the folder of fixed files. */
  function NeuronsTable(atlas: Atlas, folder: seq<(string, string)>): Result<Table> {
    TableFrom(atlas, [], folder)
  }

  /** A built table is empty exactly when it started empty and no file of the folder
      ends in ".swc". */
  lemma {:induction false} EmptyTableIffNoSwc(atlas: Atlas, acc: Table, files: seq<(string, string)>)
    requires TableFrom(atlas, acc, files).Ok?
    ensures TableFrom(atlas, acc, files).value == [] <==>
              acc == [] && forall i :: 0 <= i < |files| ==> !EndsWith(files[i].0, ".swc")
    decreases |files|
  {
    if |files| > 0 {
      if EndsWith(files[0].0, ".swc") {
        var row := RowOf(atlas, files[0].0, files[0].1).value;
        EmptyTableIffNoSwc(atlas, Put(acc, row.0, row.1), files[1..]);
      } else {
        EmptyTableIffNoSwc(atlas, acc, files[1..]);
        assert forall i :: 1 <= i < |files| ==> files[i] == files[1..][i - 1];
      }
    }
  }

  /** Every row of the table comes from a ".swc" file of the folder and is keyed by its
      stem. */
  lemma {:induction false} TableRowsFromFiles(atlas: Atlas, acc: Table, files: seq<(string, string)>)
    requires forall i :: 0 <= i < |acc| ==> acc[i].0 == Stem(acc[i].1.filename)
    requires TableFrom(atlas, acc, files).Ok?
    ensures var t := TableFrom(atlas, acc, files).value;
            forall i :: 0 <= i < |t| ==>
              && t[i].0 == Stem(t[i].1.filename)
              && (t[i] in acc || exists f :: f in files && EndsWith(f.0, ".swc") && t[i].1.filename == f.0)
    decreases |files|
  {
    if |files| > 0 {
      var acc' := acc;
      if EndsWith(files[0].0, ".swc") {
        var row := RowOf(atlas, files[0].0, files[0].1).value;
        acc' := Put(acc, row.0, row.1);
        PutShape(acc, row.0, row.1);
      }
      TableRowsFromFiles(atlas, acc', files[1..]);
      var t := TableFrom(atlas, acc, files).value;
      forall i | 0 <= i < |t|
        ensures t[i] in acc || exists f :: f in files && EndsWith(f.0, ".swc") && t[i].1.filename == f.0
      {
        if t[i] !in acc' {
          var f :| f in files[1..] && EndsWith(f.0, ".swc") && t[i].1.filename == f.0;
          assert f in files;
        } else if t[i] !in acc {
          assert t[i].1.filename == files[0].0;
        }
      }
    }
  }

  /** A soma outside the atlas is in region 0. */
  lemma OutsideAtlasIsRegionZero(atlas: Atlas, name: string, text: string)
    requires RowOf(atlas, name, text).Ok?
    requires atlas.structureAt(SomaCoords(Swc.ReadLines(text)).value) == None
    ensures RowOf(atlas, name, text).value.1.region == 0
  {
  }

  /** `get_neurons_by_structure`: the keys, in table order, whose region is one of `ids`. */
  function InRegions(t: Table, ids: seq<int>): (r: seq<string>)
    ensures |r| <= |t|
    decreases |t|
  {
    if |t| == 0 then []
    else
      var front := InRegions(t[..|t| - 1], ids);
      if t[|t| - 1].1.region in ids then front + [t[|t| - 1].0] else front
  }

  /** A key is returned exactly when some row under it lies in one of the regions. */
  lemma {:induction false} InRegionsMembers(t: Table, ids: seq<int>, key: string)
    ensures key in InRegions(t, ids) <==> exists i :: 0 <= i < |t| && t[i].0 == key && t[i].1.region in ids
    decreases |t|
  {
    if |t| > 0 {
      var front := t[..|t| - 1];
      InRegionsMembers(front, ids, key);
      if exists i :: 0 <= i < |t| && t[i].0 == key && t[i].1.region in ids {
        var i :| 0 <= i < |t| && t[i].0 == key && t[i].1.region in ids;
        if i < |front| {
          assert front[i] == t[i];
        }
      }
      if exists i :: 0 <= i < |front| && front[i].0 == key && front[i].1.region in ids {
        var i :| 0 <= i < |front| && front[i].0 == key && front[i].1.region in ids;
        assert t[i] == front[i];
      }
    }
  }

  /** The neuron `load_neurons` makes for one id: its fixed file and the name
      "mpin_" + id; an id that is not a key of the table is a KeyError. */
  function NeuronOf(mpinDir: string, t: Table, nid: Json): (r: Result<NeuronArgs>)
    ensures r.Ok? <==> nid.JStr? && Lookup(t, nid.s).Some?
    ensures r.Err? ==> r.error.KeyError?
  {
    var row := if nid.JStr? then Lookup(t, nid.s) else None;
    if row.None? then Err(KeyError(Str(nid)))
    else Ok(NeuronArgs(PathJoin(PathJoin(mpinDir, "fixed"), row.value.filename), "mpin_" + Str(nid), true))
  }

  /** A neuron found in the table is named "mpin_" + id and loads the row's file. */
  lemma NeuronOfNamed(mpinDir: string, t: Table, nid: Json)
    requires NeuronOf(mpinDir, t, nid).Ok?
    ensures var n := NeuronOf(mpinDir, t, nid).value;
            && n.neuronName == "mpin_" + Str(nid) && n.loadFile
            && EndsWith(n.dataFile, Lookup(t, nid.s).value.filename)
  {
  }

  /** The neurons for the ids still to load, after those loaded so far. */
  function NeuronsFrom(mpinDir: string, t: Table, acc: seq<NeuronArgs>, ids: seq<Json>): Result<seq<NeuronArgs>> {
    Collect(nid => NeuronOf(mpinDir, t, nid), acc, ids)
  }

  /** A load fails exactly when some id is not in the table. */
  lemma NeuronsFailOnMissingId(mpinDir: string, t: Table, acc: seq<NeuronArgs>, ids: seq<Json>)
    ensures NeuronsFrom(mpinDir, t, acc, ids).Ok? <==> forall i :: 0 <= i < |ids| ==> NeuronOf(mpinDir, t, ids[i]).Ok?
  {
    CollectOk(nid => NeuronOf(mpinDir, t, nid), acc, ids);
  }

  /** A load that succeeds gives, after the neurons already made, one neuron per id, in
      order, each the neuron of that id. */
  lemma NeuronsPerId(mpinDir: string, t: Table, acc: seq<NeuronArgs>, ids: seq<Json>)
    requires NeuronsFrom(mpinDir, t, acc, ids).Ok?
    ensures var r := NeuronsFrom(mpinDir, t, acc, ids).value;
            && |r| == |acc| + |ids|
            && r[..|acc|] == acc
            && (forall i :: 0 <= i < |ids| ==> NeuronOf(mpinDir, t, ids[i]) == Ok(r[|acc| + i]))
  {
    CollectEach(nid => NeuronOf(mpinDir, t, nid), acc, ids);
  }

  /** One step of the loop in `load_neurons` over `ids[k..]`, with `acc` the neurons
      of `ids[..k]`: it stops at an id that fails, or the looked-up neuron extends
      the accumulator. */
  lemma NeuronsFromStep(mpinDir: string, t: Table, acc: seq<NeuronArgs>, ids: seq<Json>, k: nat)
    requires k < |ids|
    requires NeuronsFrom(mpinDir, t, acc, ids[k..]) == NeuronsFrom(mpinDir, t, [], ids)
    ensures NeuronOf(mpinDir, t, ids[k]).Err? ==>
              NeuronsFrom(mpinDir, t, [], ids) == Err(NeuronOf(mpinDir, t, ids[k]).error)
    ensures NeuronOf(mpinDir, t, ids[k]).Ok? ==>
              NeuronsFrom(mpinDir, t, acc + [NeuronOf(mpinDir, t, ids[k]).value], ids[k + 1..])
              == NeuronsFrom(mpinDir, t, [], ids)
  {
    var rest := ids[k..];
    assert rest[0] == ids[k];
    assert rest[1..] == ids[k + 1..];
    CollectStep(nid => NeuronOf(mpinDir, t, nid), acc, rest);
  }

  /** The loop in `load_neurons` once every id is looked up. */
  lemma NeuronsFromDone(mpinDir: string, t: Table, acc: seq<NeuronArgs>, ids: seq<Json>)
    requires NeuronsFrom(mpinDir, t, acc, ids[|ids|..]) == NeuronsFrom(mpinDir, t, [], ids)
    ensures NeuronsFrom(mpinDir, t, [], ids) == Ok(acc)
  {
    assert ids[|ids|..] == [];
  }

  // ------------------------------------------------------------------ client

  class MpinMorphologyApi {
    /** `mpin_morphology`, the folder the dataset lives in. */
    const mpinDir: string
    /** The files of the "fixed" folder, by name, in listing order. */
    const folder: seq<(string, string)>
    /** `_neurons_df`, computed on first use. */
    var neuronsDf: Option<Table>

    /** `__init__` once the dataset is on disk. */
    constructor (mpinDir: string, folder: seq<(string, string)>)
      ensures this.mpinDir == mpinDir && this.folder == folder && neuronsDf == None
    {
      this.mpinDir := mpinDir;
      this.folder := folder;
      neuronsDf := None;
    }

    /** The table `neurons_df` yields in the current state: the cached one, or the
        one built from the folder. */
    function CachedTable(atlas: Atlas): Result<Table>
      reads this
    {
      if neuronsDf.Some? then Ok(neuronsDf.value) else NeuronsTable(atlas, folder)
    }

    /** The `neurons_df` property: built once from the folder, then kept. */
    method NeuronsDf(atlas: Atlas) returns (r: Result<Table>)
      modifies this
      ensures r == old(CachedTable(atlas))
      ensures old(neuronsDf).Some? ==> neuronsDf == old(neuronsDf)
      ensures old(neuronsDf).None? ==> r == NeuronsTable(atlas, folder)
      ensures old(neuronsDf).None? ==> neuronsDf == (if r.Ok? then Some(r.value) else None)
    {
      if neuronsDf.Some? {
        return Ok(neuronsDf.value);
      }
      var table: Table := [];
      var k := 0;
      while k < |folder|
        invariant 0 <= k <= |folder|
        invariant TableFrom(atlas, table, folder[k..]) == NeuronsTable(atlas, folder)
        invariant neuronsDf == None
      {
        assert folder[k..][1..] == folder[k + 1..];
        var (name, text) := folder[k];
        if EndsWith(name, ".swc") {
          var coords := SomaCoordsFromFile(text);
          if coords.Err? {
            return Err(coords.error);
          }
          var region := atlas.structureAt(coords.value).GetOr(0);
          if |coords.value| < 3 {
            return Err(IndexError("list index out of range"));
          }
          table := Put(table, Stem(name), SomaRow(name, coords.value[0], coords.value[1], coords.value[2], region));
        }
        k := k + 1;
      }
      assert folder[k..] == [];
      neuronsDf := Some(table);
      return Ok(table);
    }

    /** `get_neurons_by_structure`. A folder without `.swc` files gives a frame built
        from an empty dict, which has no `region` column, so reading it raises. */
    method GetNeuronsByStructure(atlas: Atlas, regions: seq<string>) returns (r: Result<seq<string>>)
      modifies this
      ensures old(CachedTable(atlas)).Err? ==> r == Err(old(CachedTable(atlas)).error)
      ensures old(CachedTable(atlas)) == Ok([]) ==>
                r == Err(AttributeError("'DataFrame' object has no attribute 'region'"))
      ensures old(CachedTable(atlas)).Ok? && old(CachedTable(atlas)).value != [] ==>
                r == Ok(InRegions(old(CachedTable(atlas)).value, atlas.structureIds(regions)))
    {
      var ids := atlas.structureIds(regions);
      var df :- NeuronsDf(atlas);
      if df == [] {
        return Err(AttributeError("'DataFrame' object has no attribute 'region'"));
      }
      return Ok(InRegions(df, ids));
    }

    /** `load_neurons`: a single id is wrapped; one neuron per id, in order. The table
        is first read for the first id, so an empty list never reads it. */
    method LoadNeurons(atlas: Atlas, neuronId: Json) returns (r: Result<seq<NeuronArgs>>)
      modifies this
      ensures |AsList(neuronId)| == 0 ==> r == Ok([]) && neuronsDf == old(neuronsDf)
      ensures |AsList(neuronId)| > 0 && old(CachedTable(atlas)).Err? ==>
                r == Err(old(CachedTable(atlas)).error)
      ensures |AsList(neuronId)| > 0 && old(CachedTable(atlas)).Ok? ==>
                r == NeuronsFrom(mpinDir, old(CachedTable(atlas)).value, [], AsList(neuronId))
    {
      var ids := AsList(neuronId);
      var toReturn: seq<NeuronArgs> := [];
      var k := 0;
      ghost var t := CachedTable(atlas);
      while k < |ids|
        invariant 0 <= k <= |ids|
        invariant k > 0 ==>
                    && t.Ok? && neuronsDf == Some(t.value)
                    && NeuronsFrom(mpinDir, t.value, toReturn, ids[k..]) == NeuronsFrom(mpinDir, t.value, [], ids)
        invariant k == 0 ==> toReturn == [] && neuronsDf == old(neuronsDf)
      {
        var df :- NeuronsDf(atlas);
        NeuronsFromStep(mpinDir, df, toReturn, ids, k);
        var n :- NeuronOf(mpinDir, df, ids[k]);
        toReturn := toReturn + [n];
        k := k + 1;
      }
      if k == 0 {
        return Ok([]);
      }
      NeuronsFromDone(mpinDir, t.value, toReturn, ids);
      return Ok(toReturn);
    }
  }

  /** `__init__`: the dataset is downloaded when its folder is missing, which needs a
      connection. */
  method Open(mpinDir: string, folderExists: bool, connected: bool, folder: seq<(string, string)>)
    returns (r: Result<MpinMorphologyApi>)
    ensures !folderExists && !connected <==> r.Err?
    ensures r.Err? ==> r.error.ValueError?
    ensures r.Ok? ==> fresh(r.value) && r.value.mpinDir == mpinDir && r.value.folder == folder && r.value.neuronsDf == None
  {
    if !folderExists && !connected {
      return Err(ValueError("An internet connection is required to download the dataset"));
    }
    var api := new MpinMorphologyApi(mpinDir, folder);
    return Ok(api);
  }
}
