/** `Neuron.repair_swc_file` (morphapi/morphology/morphology.py): the SWC file is read
    as lines, each line is normalised (newlines dropped, tabs turned into spaces) and,
    when its second space-separated field is not "1" and its last field is "-1", that
    last field is replaced by "0"; the lines are written back, each followed by a
    newline. */
module Swc {
  import opened Wrappers
  import opened PyStr

  /** `line.replace("\n", "").replace("\t", " ")`. */
  function Normalised(line: string): (r: string)
    ensures '\n' !in r && '\t' !in r
  {
    MapChar(RemoveChar(line, '\n'), '\t', ' ')
  }

  /** The test on a line's fields: at least two of them, the second not "1", the last "-1". */
  predicate NeedsRepair(vals: seq<string>) {
    |vals| >= 2 && vals[1] != "1" && vals[|vals| - 1] == "-1"
  }

  /** One iteration of the loop of `repair_swc_file`. */
  function RepairLine(line: string): string {
    if |line| == 0 then line
    else
      var l := Normalised(line);
      var vals := Split(l, ' ');
      if NeedsRepair(vals) then Join(' ', vals[..|vals| - 1] + ["0"]) else l
  }

  /** The lines after repair: one per input line, in order. */
  function RepairAll(content: seq<string>): (clean: seq<string>)
    ensures |clean| == |content|
    ensures forall i :: 0 <= i < |content| ==> clean[i] == RepairLine(content[i])
  {
    seq(|content|, i requires 0 <= i < |content| => RepairLine(content[i]))
  }

  // ------------------------------------------------------------- file text

  /** `readlines()` on a file opened in text mode: the text cut after every newline,
      each line keeping its newline. The text is taken as text mode returns it, with
      "\r\n" and "\r" already turned into "\n". */
  function ReadLines(t: string): (r: seq<string>)
    decreases |t|
  {
    if |t| == 0 then []
    else if t[0] == '\n' then ["\n"] + ReadLines(t[1..])
    else
      var rest := ReadLines(t[1..]);
      if |rest| == 0 then [[t[0]]] else [[t[0]] + rest[0]] + rest[1..]
  }

  /** The text `write(f"{line}\n")` leaves for each line in turn. */
  function WriteText(lines: seq<string>): string
    decreases |lines|
  {
    if |lines| == 0 then "" else lines[0] + "\n" + WriteText(lines[1..])
  }

  /** What `repair_swc_file` leaves in the file. */
  function RepairText(t: string): string {
    WriteText(RepairAll(ReadLines(t)))
  }

  /** The loop of `repair_swc_file` over the lines read, appending to `clean`. */
  method RepairLines(content: seq<string>) returns (clean: seq<string>)
    ensures clean == RepairAll(content)
  {
    clean := [];
    var i := 0;
    while i < |content|
      invariant 0 <= i <= |content|
      invariant clean == RepairAll(content[..i])
    {
      var line := content[i];
      var out;
      if |line| == 0 {
        out := line;
      } else {
        line := Normalised(line);
        var vals := Split(line, ' ');
        if |vals| < 2 {
          out := line;
        } else if vals[1] != "1" && vals[|vals| - 1] == "-1" {
          assert vals[|vals| - 1 := "0"] == vals[..|vals| - 1] + ["0"];
          vals := vals[|vals| - 1 := "0"];
          out := Join(' ', vals);
        } else {
          out := line;
        }
      }
      assert out == RepairLine(content[i]);
      assert RepairAll(content[..i + 1]) == RepairAll(content[..i]) + [out];
      clean := clean + [out];
      i := i + 1;
    }
    assert content[..i] == content;
  }

  /** The writing loop: each line followed by a newline. */
  method WriteLines(clean: seq<string>) returns (written: string)
    ensures written == WriteText(clean)
  {
    written := "";
    var k := 0;
    while k < |clean|
      invariant 0 <= k <= |clean|
      invariant written + WriteText(clean[k..]) == WriteText(clean)
    {
      assert clean[k..][1..] == clean[k + 1..];
      written := written + (clean[k] + "\n");
      k := k + 1;
    }
    assert clean[k..] == [] && WriteText(clean[k..]) == "";
  }

  /** `repair_swc_file` on the file's text; the length check after the loop is kept
      and, as the postcondition shows, never fails. */
  method RepairSwcFile(text: string) returns (r: Result<string>)
    ensures r == Ok(RepairText(text))
  {
    var content := ReadLines(text);
    var clean := RepairLines(content);
    if |clean| != |content| {
      return Err(ValueError(""));
    }
    var written := WriteLines(clean);
    return Ok(written);
  }

  // ------------------------------------------------------------------ lemmas

  lemma {:induction false} RemoveCharAppend(a: string, b: string, c: char)
    ensures RemoveChar(a + b, c) == RemoveChar(a, c) + RemoveChar(b, c)
    decreases |a|
  {
    if |a| > 0 {
      assert (a + b)[1..] == a[1..] + b;
      RemoveCharAppend(a[1..], b, c);
    } else {
      assert a + b == b;
    }
  }

  lemma MapCharNoop(s: string, a: char, b: char)
    requires a !in s
    ensures MapChar(s, a, b) == s
  {
  }

  /** A normalised line is its own normal form, with or without its newline. */
  lemma NormalisedWithNewline(y: string)
    requires '\n' !in y && '\t' !in y
    ensures Normalised(y + "\n") == y
  {
    RemoveCharAppend(y, "\n", '\n');
    assert RemoveChar("\n", '\n') == "";
    MapCharNoop(y, '\t', ' ');
  }

  lemma {:induction false} SplitKeepsOut(s: string, sep: char, c: char)
    requires c !in s
    ensures forall i :: 0 <= i < |Split(s, sep)| ==> c !in Split(s, sep)[i]
    decreases |s|
  {
    if |s| > 0 {
      SplitKeepsOut(s[1..], sep, c);
    }
  }

  lemma {:induction false} JoinKeepsOut(sep: char, parts: seq<string>, c: char)
    requires c != sep
    requires forall i :: 0 <= i < |parts| ==> c !in parts[i]
    ensures c !in Join(sep, parts)
    decreases |parts|
  {
    if |parts| > 1 {
      JoinKeepsOut(sep, parts[1..], c);
    }
  }

  /** The repaired line's fields: the same number as the normalised line's, all equal
      but possibly the last, which changes from "-1" to "0" exactly when the line needs
      repair; and the line is changed at all exactly then. */
  lemma RepairFields(line: string)
    requires |line| > 0
    ensures var vals := Split(Normalised(line), ' ');
            var out := Split(RepairLine(line), ' ');
            && |out| == |vals|
            && out[..|out| - 1] == vals[..|vals| - 1]
            && (NeedsRepair(vals) ==> out[|out| - 1] == "0")
            && (!NeedsRepair(vals) ==> out == vals)
            && (RepairLine(line) != Normalised(line) <==> NeedsRepair(vals))
  {
    var l := Normalised(line);
    var vals := Split(l, ' ');
    if NeedsRepair(vals) {
      var vals' := vals[..|vals| - 1] + ["0"];
      assert forall i :: 0 <= i < |vals'| ==> ' ' !in vals'[i];
      SplitJoin(vals', ' ');
      assert vals'[|vals'| - 1] == "0" != "-1" == vals[|vals| - 1];
    }
  }

  /** The repaired line holds no newline and no tab. */
  lemma RepairedClean(line: string)
    ensures '\n' !in RepairLine(line) && '\t' !in RepairLine(line)
  {
    if |line| > 0 {
      var l := Normalised(line);
      var vals := Split(l, ' ');
      if NeedsRepair(vals) {
        var vals' := vals[..|vals| - 1] + ["0"];
        SplitKeepsOut(l, ' ', '\n');
        SplitKeepsOut(l, ' ', '\t');
        assert forall i :: 0 <= i < |vals'| ==> '\n' !in vals'[i] && '\t' !in vals'[i];
        JoinKeepsOut(' ', vals', '\n');
        JoinKeepsOut(' ', vals', '\t');
      }
    }
  }

  /** Repairing a repaired line, read back with its newline, changes nothing. */
  lemma RepairLineIdempotent(line: string)
    ensures RepairLine(RepairLine(line) + "\n") == RepairLine(line)
  {
    var y := RepairLine(line);
    RepairedClean(line);
    NormalisedWithNewline(y);
    assert |y + "\n"| > 0;
    if |line| > 0 {
      RepairFields(line);
      var vals := Split(Normalised(line), ' ');
      var out := Split(y, ' ');
      if NeedsRepair(vals) {
        assert !NeedsRepair(out);
      }
    }
  }

  /** Reading back a line written with its newline gives that line and its newline. */
  lemma {:induction false} ReadLinesLine(l: string, t: string)
    requires '\n' !in l
    ensures ReadLines(l + "\n" + t) == [l + "\n"] + ReadLines(t)
    decreases |l|
  {
    if |l| == 0 {
      assert l + "\n" + t == ['\n'] + t;
      assert (['\n'] + t)[1..] == t;
    } else {
      var s := l + "\n" + t;
      assert s[1..] == l[1..] + "\n" + t;
      ReadLinesLine(l[1..], t);
      assert [l[0]] + (l[1..] + "\n") == l + "\n";
    }
  }

  /** `readlines` undoes writing newline-free lines. */
  lemma {:induction false} ReadWritten(lines: seq<string>)
    requires forall i :: 0 <= i < |lines| ==> '\n' !in lines[i]
    ensures ReadLines(WriteText(lines)) == seq(|lines|, i requires 0 <= i < |lines| => lines[i] + "\n")
    decreases |lines|
  {
    if |lines| > 0 {
      ReadWritten(lines[1..]);
      ReadLinesLine(lines[0], WriteText(lines[1..]));
    }
  }

  /** One output line per input line, so the length check can never fire, and a second
      repair of the written file leaves it as it is. */
  lemma RepairTextIdempotent(t: string)
    ensures |RepairAll(ReadLines(t))| == |ReadLines(t)|
    ensures RepairText(RepairText(t)) == RepairText(t)
  {
    var clean := RepairAll(ReadLines(t));
    forall i | 0 <= i < |clean| ensures '\n' !in clean[i] {
      RepairedClean(ReadLines(t)[i]);
    }
    ReadWritten(clean);
    var again := RepairAll(ReadLines(WriteText(clean)));
    forall i | 0 <= i < |clean| ensures again[i] == clean[i] {
      RepairLineIdempotent(ReadLines(t)[i]);
    }
    assert again == clean;
  }
}
