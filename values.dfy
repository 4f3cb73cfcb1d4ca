/** The JSON-like values (dicts, lists, strings, numbers) that the API clients read
    from responses and metadata tables. */
module Values {
  import opened Wrappers
  import opened PyStr

  datatype Json =
    | JNull
    | JBool(b: bool)
    | JInt(i: int)
    | JStr(s: string)
    | JList(items: seq<Json>)
    | JObj(fields: map<string, Json>)

  /** `d[key]` on a dict: a KeyError when the key is absent. */
  function Get(j: Json, key: string): (r: Result<Json>)
    requires j.JObj?
    ensures r.Ok? <==> key in j.fields
    ensures r.Ok? ==> r.value == j.fields[key]
    ensures r.Err? ==> r.error == KeyError(key)
  {
    if key in j.fields then Ok(j.fields[key]) else Err(KeyError(key))
  }

  /** `str(v)` for the scalars that ids and names are. */
  function Str(j: Json): string {
    match j
    case JNull => "None"
    case JBool(b) => if b then "True" else "False"
    case JInt(i) => IntStr(i)
    case JStr(s) => s
    case JList(_) => "[...]"
    case JObj(_) => "{...}"
  }

  /** `if not isinstance(x, list): x = [x]`. */
  function AsList(j: Json): (r: seq<Json>)
    ensures j.JList? ==> r == j.items
    ensures !j.JList? ==> r == [j]
  {
    if j.JList? then j.items else [j]
  }

  /** The arguments an API client calls `Neuron(data_file, neuron_name=..., load_file=...)`
      with; the Neuron itself is built by the Morphology module. */
  datatype NeuronArgs = NeuronArgs(dataFile: string, neuronName: string, loadFile: bool)

  /** A loop that appends `f(x)` for each `x` in turn and stops at the first error:
      the results so far are `acc`, the items still to do `xs`. */
  function Collect<A, B>(f: A -> Result<B>, acc: seq<B>, xs: seq<A>): Result<seq<B>>
    decreases |xs|
  {
    if |xs| == 0 then Ok(acc)
    else
      var y :- f(xs[0]);
      Collect(f, acc + [y], xs[1..])
  }

  /** One turn of the loop: a failing item ends it with its error, any other item's
      result is appended. */
  lemma CollectStep<A, B>(f: A -> Result<B>, acc: seq<B>, xs: seq<A>)
    requires |xs| > 0
    ensures f(xs[0]).Err? ==> Collect(f, acc, xs) == Err(f(xs[0]).error)
    ensures f(xs[0]).Ok? ==> Collect(f, acc, xs) == Collect(f, acc + [f(xs[0]).value], xs[1..])
  {
  }

  /** The loop completes exactly when no item fails. */
  lemma {:induction false} CollectOk<A, B>(f: A -> Result<B>, acc: seq<B>, xs: seq<A>)
    ensures Collect(f, acc, xs).Ok? <==> forall i :: 0 <= i < |xs| ==> f(xs[i]).Ok?
    decreases |xs|
  {
    if |xs| > 0 && f(xs[0]).Ok? {
      CollectOk(f, acc + [f(xs[0]).value], xs[1..]);
      assert forall i :: 1 <= i < |xs| ==> xs[i] == xs[1..][i - 1];
    }
  }

  /** A completed loop gives, after `acc`, one result per item, in order. */
  lemma {:induction false} CollectEach<A, B>(f: A -> Result<B>, acc: seq<B>, xs: seq<A>)
    requires Collect(f, acc, xs).Ok?
    ensures var r := Collect(f, acc, xs).value;
            && |r| == |acc| + |xs|
            && r[..|acc|] == acc
            && (forall i :: 0 <= i < |xs| ==> f(xs[i]) == Ok(r[|acc| + i]))
    decreases |xs|
  {
    if |xs| > 0 {
      var y := f(xs[0]).value;
      var acc', rest := acc + [y], xs[1..];
      CollectEach(f, acc', rest);
      var r := Collect(f, acc', rest).value;
      assert r[..|acc|] == r[..|acc'|][..|acc|] == acc'[..|acc|] == acc;
      assert r[|acc|] == acc'[|acc|] == y;
      forall i | 1 <= i < |xs| ensures f(xs[i]) == Ok(r[|acc| + i]) {
        var j := i - 1;
        assert f(rest[j]) == Ok(r[|acc'| + j]);
        assert xs[i] == rest[j] && |acc'| + j == |acc| + i;
      }
    }
  }
}
