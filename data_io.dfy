/** The data helpers of `morphapi/utils/data_io.py`: file-name stripping, the
    checks `save_yaml`/`load_yaml` make on a path, one-level list flattening and
    the list intersection test. A file system is a map from path to content. */
module DataIo {
  import opened Wrappers
  import opened PyStr

  // ------------------------------------------------------------------ names

  /** `os.path.splitext(b)` on a name without '/': the extension starts at the last
      dot, provided some non-dot character comes before that dot. */
  function SplitExt(b: string): (r: (string, string))
    ensures r.0 + r.1 == b
    ensures r.1 == "" || (r.1[0] == '.' && '.' !in r.1[1..])
    ensures r.1 != "" ==> exists k :: 0 <= k < |r.0| && r.0[k] != '.'
  {
    var d := LastIndexOf(b, '.');
    if d >= 0 && exists k :: 0 <= k < d && b[k] != '.' then
      assert b[..d] + b[d..] == b;
      assert forall j :: 0 <= j < |b[d..][1..]| ==> b[d..][1..][j] == b[d + 1 + j];
      (b[..d], b[d..])
    else (b, "")
  }

  /** `get_file_name`: the base name of a path with its final extension removed. */
  function GetFileName(path: string): (r: string)
    ensures '/' !in r
    ensures StartsWith(Basename(path), r)
  {
    var b := Basename(path);
    var r := SplitExt(b).0;
    assert b[..|r|] == r;
    r
  }

  /** The base name of `dir/x` is `x` when `x` holds no '/'. */
  lemma BasenameAfterSlash(dir: string, x: string)
    requires '/' !in x
    ensures Basename(dir + "/" + x) == x
  {
    var p := dir + "/" + x;
    var n := |dir|;
    assert p[n] == '/';
    assert forall j :: n < j < |p| ==> p[j] == x[j - n - 1];
    assert LastIndexOf(p, '/') == n;
    assert p[n + 1..] == x;
  }

  /** The base name of a name without '/' is itself. */
  lemma {:induction false} BasenameOfName(x: string)
    requires '/' !in x
    ensures Basename(x) == x
    decreases |x|
  {
    if |x| > 0 {
      var front := x[..|x| - 1];
      BasenameOfName(front);
      assert x == front + [x[|x| - 1]];
    }
  }

  /** The base name of `os.path.join(dir, x)` is `x` when `x` is a non-empty name. */
  lemma BasenameOfJoin(dir: string, x: string)
    requires '/' !in x && |x| > 0
    ensures Basename(PathJoin(dir, x)) == x
  {
    assert x[0] != '/';
    assert !StartsWith(x, "/");
    if dir == "" {
      BasenameOfName(x);
    } else if EndsWith(dir, "/") {
      var d := dir[..|dir| - 1];
      assert dir == d + "/";
      assert dir + x == d + "/" + x;
      BasenameAfterSlash(d, x);
    } else {
      BasenameAfterSlash(dir, x);
    }
  }

  /** The extension split of `stem.ext` falls at the dot before `ext`. */
  lemma SplitExtOfStem(stem: string, ext: string)
    requires '.' !in ext
    requires exists k :: 0 <= k < |stem| && stem[k] != '.'
    ensures SplitExt(stem + "." + ext).0 == stem
  {
    var x := stem + "." + ext;
    var i := LastIndexOf(x, '.');
    assert x[|stem|] == '.';
    assert i == |stem| by {
      forall j | |stem| < j < |x| ensures x[j] != '.' {
        assert x[j] == ext[j - |stem| - 1];
      }
    }
    var k :| 0 <= k < |stem| && stem[k] != '.';
    assert x[k] == stem[k];
    assert x[..i] == stem;
  }

  /** `get_file_name(os.path.join(dir, stem + "." + ext))` is `stem`: the round trip
      of building a file path from a name and an extension and stripping it again. */
  lemma GetFileNameOfJoin(dir: string, stem: string, ext: string)
    requires '/' !in stem && '/' !in ext && '.' !in ext
    requires exists k :: 0 <= k < |stem| && stem[k] != '.'
    ensures GetFileName(PathJoin(dir, stem + "." + ext)) == stem
  {
    var x := stem + "." + ext;
    assert '/' !in x by {
      forall j | 0 <= j < |x| ensures x[j] != '/' {
        if j < |stem| { assert x[j] == stem[j]; }
        else if j > |stem| { assert x[j] == ext[j - |stem| - 1]; }
      }
    }
    BasenameOfJoin(dir, x);
    SplitExtOfStem(stem, ext);
  }

  // ------------------------------------------------------------------- yaml

  /** The path test of `save_yaml`: the path must end with ".yaml" or ".yml". */
  predicate SaveYamlPathOk(path: string) {
    EndsWith(path, ".yaml") || EndsWith(path, ".yml")
  }

  /** The name test of `load_yaml`: "yml" or "yaml" anywhere in the path. */
  predicate LoadYamlNameOk(path: string) {
    Contains(path, "yml") || Contains(path, "yaml")
  }

  /** `save_yaml(path, content)`: refuses a path without a yaml suffix, otherwise
      (over)writes the file. */
  function SaveYaml<Y>(disk: map<string, Y>, path: string, content: Y): (r: Result<map<string, Y>>)
    ensures r.Ok? <==> SaveYamlPathOk(path)
    ensures r.Ok? ==> r.value == disk[path := content]
    ensures r.Err? ==> r.error.ValueError?
  {
    if !SaveYamlPathOk(path) then Err(ValueError("filepath should end with yaml or yml"))
    else Ok(disk[path := content])
  }

  /** `load_yaml(path)`: refuses None, a path that is not a file, and a path whose
      text names neither "yml" nor "yaml"; otherwise returns the file's content. */
  function LoadYaml<Y>(disk: map<string, Y>, path: Option<string>): (r: Result<Y>)
    ensures r.Ok? <==> path.Some? && path.value in disk && LoadYamlNameOk(path.value)
    ensures r.Ok? ==> r.value == disk[path.value]
    ensures r.Err? ==> r.error.ValueError?
  {
    if path.None? || path.value !in disk then Err(ValueError("unrecognized file path"))
    else if !LoadYamlNameOk(path.value) then Err(ValueError("unrecognized file path"))
    else Ok(disk[path.value])
  }

  /** Every path `save_yaml` accepts passes the name test of `load_yaml`. */
  lemma SaveAcceptedIsLoadAccepted(path: string)
    requires SaveYamlPathOk(path)
    ensures LoadYamlNameOk(path)
  {
    if EndsWith(path, ".yaml") {
      assert path[|path| - 4..] == path[|path| - 5..][1..];
      assert EndsWith(path, "yaml");
      EndsWithContains(path, "yaml");
    } else {
      assert path[|path| - 3..] == path[|path| - 4..][1..];
      assert EndsWith(path, "yml");
      EndsWithContains(path, "yml");
    }
  }

  /** The load test is strictly looser: "params.yml.bak" passes it but not the save test. */
  lemma LoadTestLooserThanSaveTest()
    ensures LoadYamlNameOk("params.yml.bak") && !SaveYamlPathOk("params.yml.bak")
  {
    var p := "params.yml.bak";
    assert p[7..][..3] == "yml";
    assert Contains(p[7..], "yml");
    assert p[1..][6..] == p[7..];
    assert p[2..][5..] == p[7..];
    assert p[3..][4..] == p[7..];
    assert p[4..][3..] == p[7..];
    assert p[5..][2..] == p[7..];
    assert p[6..][1..] == p[7..];
    assert p[|p| - 4..] == ".bak";
    assert p[|p| - 5..] == "l.bak";
  }

  /** Saving to a yaml path and loading the same path gives the content back. */
  lemma SaveLoadRoundTrip<Y>(disk: map<string, Y>, path: string, content: Y)
    requires SaveYamlPathOk(path)
    ensures SaveYaml(disk, path, content).Ok?
    ensures LoadYaml(SaveYaml(disk, path, content).value, Some(path)) == Ok(content)
  {
    SaveAcceptedIsLoadAccepted(path);
  }

  // ------------------------------------------------------------ flattening

  /** A Python list item: either a list or anything else. */
  datatype Item<T> = Atom(value: T) | Nested(items: seq<Item<T>>)

  /** What one item adds to the flattened list: a list's elements, or the item itself. */
  function Contribution<T>(item: Item<T>): seq<Item<T>> {
    match item
    case Nested(xs) => xs
    case Atom(_) => [item]
  }

  /** The flattened list, item by item from the left. */
  function Flatten<T>(lst: seq<Item<T>>): seq<Item<T>>
    decreases |lst|
  {
    if |lst| == 0 then [] else Flatten(lst[..|lst| - 1]) + Contribution(lst[|lst| - 1])
  }

  /** `flatten_list`: one loop that extends with list items and appends the others. */
  method FlattenList<T>(lst: seq<Item<T>>) returns (flat: seq<Item<T>>)
    ensures flat == Flatten(lst)
  {
    flat := [];
    var i := 0;
    while i < |lst|
      invariant 0 <= i <= |lst|
      invariant flat == Flatten(lst[..i])
    {
      assert lst[..i + 1][..i] == lst[..i];
      if lst[i].Nested? {
        flat := flat + lst[i].items;
      } else {
        flat := flat + [lst[i]];
      }
      i := i + 1;
    }
    assert lst[..i] == lst;
  }

  /** Flattening splits over concatenation, so the input order is kept. */
  lemma {:induction false} FlattenAppend<T>(a: seq<Item<T>>, b: seq<Item<T>>)
    ensures Flatten(a + b) == Flatten(a) + Flatten(b)
    decreases |b|
  {
    if |b| == 0 {
      assert a + b == a;
    } else {
      var b' := b[..|b| - 1];
      var ab := a + b;
      assert ab[..|ab| - 1] == a + b';
      assert ab[|ab| - 1] == b[|b| - 1];
      var c := Contribution(b[|b| - 1]);
      assert Flatten(ab) == Flatten(a + b') + c;
      assert Flatten(b) == Flatten(b') + c;
      FlattenAppend(a, b');
    }
  }

  /** A list without list items flattens to itself. */
  lemma {:induction false} FlattenOfAtoms<T>(lst: seq<Item<T>>)
    requires forall i :: 0 <= i < |lst| ==> lst[i].Atom?
    ensures Flatten(lst) == lst
    decreases |lst|
  {
    if |lst| > 0 {
      FlattenOfAtoms(lst[..|lst| - 1]);
    }
  }

  /** Only one level is flattened: an element of a list item, even a list itself,
      appears as it is in the result. */
  lemma {:induction false} FlattenOneLevel<T>(lst: seq<Item<T>>, i: nat, j: nat)
    requires i < |lst| && lst[i].Nested? && j < |lst[i].items|
    ensures lst[i].items[j] in Flatten(lst)
    decreases |lst|
  {
    if i < |lst| - 1 {
      FlattenOneLevel(lst[..|lst| - 1], i, j);
    } else {
      assert Flatten(lst)[|Flatten(lst[..|lst| - 1])| + j] == lst[i].items[j];
    }
  }

  /** Every element of the result comes from the input: it is a non-list item of
      it, or an element of one of its list items. */
  lemma {:induction false} FlattenSource<T>(lst: seq<Item<T>>, x: Item<T>)
    requires x in Flatten(lst)
    ensures exists i :: 0 <= i < |lst| && ((lst[i] == x && x.Atom?) || (lst[i].Nested? && x in lst[i].items))
    decreases |lst|
  {
    var n := |lst| - 1;
    if x in Flatten(lst[..n]) {
      FlattenSource(lst[..n], x);
      var i :| 0 <= i < n && ((lst[..n][i] == x && x.Atom?) || (lst[..n][i].Nested? && x in lst[..n][i].items));
      assert lst[i] == lst[..n][i];
    } else {
      assert x in Contribution(lst[n]);
    }
  }

  // ----------------------------------------------------------- intersection

  /** `[i for i in l1 if i in l2]`. */
  function InBoth<T(==)>(l1: seq<T>, l2: seq<T>): (r: seq<T>)
    ensures forall i :: 0 <= i < |r| ==> r[i] in l1 && r[i] in l2
    ensures forall i :: 0 <= i < |l1| && l1[i] in l2 ==> l1[i] in r
    ensures |r| <= |l1|
  {
    if |l1| == 0 then []
    else (if l1[0] in l2 then [l1[0]] else []) + InBoth(l1[1..], l2)
  }

  /** `is_any_item_in_list`: whether some element of `l1` is also in `l2`. */
  function IsAnyItemInList<T(==)>(l1: seq<T>, l2: seq<T>): (r: bool)
    ensures r <==> exists i :: 0 <= i < |l1| && l1[i] in l2
  {
    var both := InBoth(l1, l2);
    if |both| > 0 then
      assert both[0] in both;
      true
    else false
  }

  /** An empty list on either side never has an item in common. */
  lemma EmptyListsShareNothing<T>(l: seq<T>)
    ensures !IsAnyItemInList([], l) && !IsAnyItemInList(l, [])
  {
  }
}
