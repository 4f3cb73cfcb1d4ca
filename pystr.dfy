/** The few Python string and `os.path` builtins the modelled code relies on,
    written out over `seq<char>` (posix paths, no Unicode case mapping). */
module PyStr {

  /** `s.split(sep)` for a one-character separator: the pieces between separators,
      empty pieces kept, so there is always at least one piece. */
  function Split(s: string, sep: char): (r: seq<string>)
    ensures |r| >= 1
    ensures forall i :: 0 <= i < |r| ==> sep !in r[i]
    decreases |s|
  {
    if |s| == 0 then [""]
    else
      var rest := Split(s[1..], sep);
      if s[0] == sep then [""] + rest
      else [[s[0]] + rest[0]] + rest[1..]
  }

  /** `sep.join(parts)` for a one-character separator. */
  function Join(sep: char, parts: seq<string>): string
  {
    if |parts| == 0 then ""
    else if |parts| == 1 then parts[0]
    else parts[0] + [sep] + Join(sep, parts[1..])
  }

  /** Joining the pieces of a split gives the string back. */
  lemma {:induction false} JoinSplit(s: string, sep: char)
    ensures Join(sep, Split(s, sep)) == s
    decreases |s|
  {
    if |s| > 0 {
      var rest := Split(s[1..], sep);
      JoinSplit(s[1..], sep);
      if s[0] == sep {
        assert Join(sep, [""] + rest) == "" + [sep] + Join(sep, rest);
      } else if |rest| == 1 {
        assert Split(s, sep) == [[s[0]] + rest[0]];
      } else {
        assert Join(sep, rest) == rest[0] + [sep] + Join(sep, rest[1..]);
        assert Split(s, sep) == [[s[0]] + rest[0]] + rest[1..];
        assert Split(s, sep)[1..] == rest[1..];
      }
    }
  }

  /** A string without the separator splits into itself. */
  lemma {:induction false} SplitWithoutSep(a: string, sep: char)
    requires sep !in a
    ensures Split(a, sep) == [a]
    decreases |a|
  {
    if |a| > 0 {
      SplitWithoutSep(a[1..], sep);
      assert [a[0]] + a[1..] == a;
    }
  }

  /** Splitting at the first separator peels off the piece before it. */
  lemma {:induction false} SplitAtFirst(a: string, b: string, sep: char)
    requires sep !in a
    ensures Split(a + [sep] + b, sep) == [a] + Split(b, sep)
    decreases |a|
  {
    if |a| > 0 {
      var s := a + [sep] + b;
      assert s[1..] == a[1..] + [sep] + b;
      SplitAtFirst(a[1..], b, sep);
      assert [a[0]] + a[1..] == a;
    } else {
      assert a + [sep] + b == [sep] + b;
      assert ([sep] + b)[1..] == b;
    }
  }

  /** Splitting a join of separator-free pieces gives the pieces back. */
  lemma {:induction false} SplitJoin(parts: seq<string>, sep: char)
    requires |parts| >= 1
    requires forall i :: 0 <= i < |parts| ==> sep !in parts[i]
    ensures Split(Join(sep, parts), sep) == parts
    decreases |parts|
  {
    if |parts| == 1 {
      SplitWithoutSep(parts[0], sep);
    } else {
      SplitJoin(parts[1..], sep);
      SplitAtFirst(parts[0], Join(sep, parts[1..]), sep);
      assert [parts[0]] + parts[1..] == parts;
    }
  }

  /** Splitting at a given separator splits each side on its own. */
  lemma {:induction false} SplitAppend(a: string, b: string, sep: char)
    ensures Split(a + [sep] + b, sep) == Split(a, sep) + Split(b, sep)
    decreases |a|
  {
    var s := a + [sep] + b;
    if |a| == 0 {
      assert s == [sep] + b && s[1..] == b;
    } else {
      assert s[1..] == a[1..] + [sep] + b;
      SplitAppend(a[1..], b, sep);
    }
  }

  /** `sep.join(parts)` for a separator of any length. */
  function JoinWith(sep: string, parts: seq<string>): string
    decreases |parts|
  {
    if |parts| == 0 then ""
    else if |parts| == 1 then parts[0]
    else parts[0] + sep + JoinWith(sep, parts[1..])
  }

  /** Appending one more piece to a join adds the separator and the piece. */
  lemma {:induction false} JoinWithAppend(sep: string, parts: seq<string>, last: string)
    requires |parts| > 0
    ensures JoinWith(sep, parts + [last]) == JoinWith(sep, parts) + sep + last
    decreases |parts|
  {
    if |parts| > 1 {
      assert (parts + [last])[1..] == parts[1..] + [last];
      JoinWithAppend(sep, parts[1..], last);
    }
  }

  /** The decimal digit for 0..9. */
  function Digit(d: nat): char
    requires d < 10
  {
    "0123456789"[d]
  }

  /** `str(n)` for an integer. */
  function IntStr(n: int): (r: string)
    ensures |r| > 0
  {
    if n < 0 then "-" + NatStr(-n) else NatStr(n)
  }

  function NatStr(n: nat): (r: string)
    ensures |r| > 0
    ensures forall i :: 0 <= i < |r| ==> '0' <= r[i] <= '9'
  {
    if n < 10 then [Digit(n)] else NatStr(n / 10) + [Digit(n % 10)]
  }

  /** `int(s)` for a string of decimal digits. */
  function ParseNat(s: string): nat
    decreases |s|
  {
    if |s| == 0 then 0
    else ParseNat(s[..|s| - 1]) * 10 + (if '0' <= s[|s| - 1] <= '9' then (s[|s| - 1] - '0') as nat else 0)
  }

  /** Reading back the digits of a number gives the number. */
  lemma {:induction false} ParseNatStr(n: nat)
    ensures ParseNat(NatStr(n)) == n
  {
    if n >= 10 {
      var s := NatStr(n);
      assert s[..|s| - 1] == NatStr(n / 10);
      ParseNatStr(n / 10);
    }
  }

  /** `int(s)` for an optionally signed decimal. */
  function ParseInt(s: string): int {
    if |s| > 0 && s[0] == '-' then -(ParseNat(s[1..]) as int) else ParseNat(s)
  }

  /** `int(str(n)) == n`, so distinct numbers are written differently. */
  lemma ParseIntStr(n: int)
    ensures ParseInt(IntStr(n)) == n
  {
    var s := IntStr(n);
    if n < 0 {
      var digits := NatStr(-n);
      assert s == "-" + digits;
      assert s[0] == '-' && s[1..] == digits;
      ParseNatStr(-n);
      assert ParseInt(s) == -(ParseNat(digits) as int);
    } else {
      var digits := NatStr(n);
      assert s == digits;
      assert '0' <= s[0] <= '9';
      ParseNatStr(n);
      assert ParseInt(s) == ParseNat(digits);
    }
  }

  predicate StartsWith(s: string, prefix: string) {
    |prefix| <= |s| && s[..|prefix|] == prefix
  }

  predicate EndsWith(s: string, suffix: string) {
    |suffix| <= |s| && s[|s| - |suffix|..] == suffix
  }

  /** `sub in s` for strings. */
  predicate Contains(s: string, sub: string)
    decreases |s|
  {
    StartsWith(s, sub) || (|s| > 0 && Contains(s[1..], sub))
  }

  /** A string contains what it ends with. */
  lemma {:induction false} EndsWithContains(s: string, suffix: string)
    requires EndsWith(s, suffix)
    ensures Contains(s, suffix)
    decreases |s|
  {
    if |s| > |suffix| {
      assert s[1..][|s| - 1 - |suffix|..] == s[|s| - |suffix|..];
      EndsWithContains(s[1..], suffix);
    } else {
      assert s[..|suffix|] == s[|s| - |suffix|..];
    }
  }

  /** What a suffix ends with, any extension of it on the left ends with too. */
  lemma EndsWithExtend(p: string, s: string, suffix: string)
    requires EndsWith(s, suffix)
    ensures EndsWith(p + s, suffix)
  {
    assert (p + s)[|p + s| - |suffix|..] == s[|s| - |suffix|..];
  }

  /** When `suffix` is no longer than `s`, `p + s` ends with it exactly when `s` does. */
  lemma EndsWithShort(p: string, s: string, suffix: string)
    requires |suffix| <= |s|
    ensures EndsWith(p + s, suffix) <==> EndsWith(s, suffix)
  {
    assert (p + s)[|p + s| - |suffix|..] == s[|s| - |suffix|..];
  }

  /** `s.rfind(c)`: the last index of `c`, or -1. */
  function LastIndexOf(s: string, c: char): (i: int)
    ensures -1 <= i < |s|
    ensures i >= 0 ==> s[i] == c
    ensures forall j :: i < j < |s| ==> s[j] != c
    ensures i == -1 <==> c !in s
  {
    if |s| == 0 then -1
    else if s[|s| - 1] == c then |s| - 1
    else LastIndexOf(s[..|s| - 1], c)
  }

  /** `os.path.basename(p)`: everything after the last '/'. */
  function Basename(p: string): (r: string)
    ensures '/' !in r
    ensures EndsWith(p, r)
    ensures r == p[LastIndexOf(p, '/') + 1..]
  {
    if |p| == 0 || p[|p| - 1] == '/' then ""
    else
      var front := p[..|p| - 1];
      var r := Basename(front) + [p[|p| - 1]];
      assert p == front + [p[|p| - 1]];
      r
  }

  /** `os.path.join(a, b)` on posix: an absolute `b` wins, otherwise one '/' between them. */
  function PathJoin(a: string, b: string): (r: string)
    ensures EndsWith(r, b)
  {
    if StartsWith(b, "/") then b
    else if a == "" || EndsWith(a, "/") then a + b
    else a + "/" + b
  }

  /** `s.replace(c, "")` for one character. */
  function RemoveChar(s: string, c: char): (r: string)
    ensures c !in r
    ensures |r| <= |s|
    ensures c !in s ==> r == s
  {
    if |s| == 0 then ""
    else (if s[0] == c then "" else [s[0]]) + RemoveChar(s[1..], c)
  }

  /** `s.replace(a, b)` for one character replaced by another. */
  function MapChar(s: string, a: char, b: char): (r: string)
    ensures |r| == |s|
    ensures a != b ==> a !in r
    ensures forall i :: 0 <= i < |s| ==> r[i] == (if s[i] == a then b else s[i])
  {
    if |s| == 0 then ""
    else [if s[0] == a then b else s[0]] + MapChar(s[1..], a, b)
  }

  /** `s.lower()` on ASCII letters (other characters are left alone). */
  function Lower(s: string): (r: string)
    ensures |r| == |s|
    ensures forall i :: 0 <= i < |s| ==> !('A' <= r[i] <= 'Z')
  {
    if |s| == 0 then ""
    else [if 'A' <= s[0] <= 'Z' then (s[0] as int + 32) as char else s[0]] + Lower(s[1..])
  }
}
