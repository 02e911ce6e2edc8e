/** String helpers used by the modelled code: substring search, ASCII case folding,
    whitespace trimming, splitting and joining at a separator, decimal formatting and
    parsing of integers, and the POSIX basename of a path. Strings are sequences of
    characters. */
module Text {
  import opened Wrappers

  predicate StartsWith(s: string, prefix: string)
  {
    |prefix| <= |s| && s[..|prefix|] == prefix
  }

  predicate EndsWith(s: string, suffix: string)
  {
    |suffix| <= |s| && s[|s| - |suffix|..] == suffix
  }

  /** `sub` occurs in `s` (Go `strings.Contains`, Python `in` on strings). */
  predicate Contains(s: string, sub: string)
    decreases |s|
  {
    StartsWith(s, sub) || (|s| > 0 && Contains(s[1..], sub))
  }

  /** `sub` occurs in `s` starting at index `i`. */
  predicate OccursAt(s: string, sub: string, i: int)
  {
    0 <= i <= |s| - |sub| && s[i..i + |sub|] == sub
  }

  /** `Contains` means: `sub` sits in `s` at some position. */
  lemma {:induction false} ContainsAt(s: string, sub: string)
    ensures Contains(s, sub) <==> exists i :: OccursAt(s, sub, i)
    decreases |s|
  {
    if StartsWith(s, sub) {
      assert OccursAt(s, sub, 0);
    } else if |s| > 0 {
      ContainsAt(s[1..], sub);
      if Contains(s[1..], sub) {
        var i :| OccursAt(s[1..], sub, i);
        assert s[1..][i..i + |sub|] == s[i + 1..i + 1 + |sub|];
        assert OccursAt(s, sub, i + 1);
      }
      if exists i :: OccursAt(s, sub, i) {
        var i :| OccursAt(s, sub, i);
        assert i != 0;
        assert s[1..][i - 1..i - 1 + |sub|] == s[i..i + |sub|];
        assert OccursAt(s[1..], sub, i - 1);
      }
    }
  }

  /** Containment is transitive: whatever occurs in a substring of `s` occurs in `s`. */
  lemma ContainsTrans(s: string, mid: string, sub: string)
    requires Contains(s, mid) && Contains(mid, sub)
    ensures Contains(s, sub)
  {
    ContainsAt(s, mid);
    ContainsAt(mid, sub);
    ContainsAt(s, sub);
    var i :| OccursAt(s, mid, i);
    var j :| OccursAt(mid, sub, j);
    forall k | 0 <= k < |sub| ensures s[i + j + k] == sub[k] {
      assert sub[k] == mid[j + k] == s[i + j + k];
    }
    assert s[i + j..i + j + |sub|] == sub;
    assert OccursAt(s, sub, i + j);
  }

  // ---------------------------------------------------------------------------
  // Case folding

  /** Lower-casing of one character; only ASCII letters change. */
  function LowerChar(c: char): char
  {
    if 'A' <= c <= 'Z' then (c as int + 32) as char else c
  }

  function Lower(s: string): (r: string)
    ensures |r| == |s|
    ensures forall i :: 0 <= i < |s| ==> r[i] == LowerChar(s[i])
  {
    if s == [] then [] else [LowerChar(s[0])] + Lower(s[1..])
  }

  // ---------------------------------------------------------------------------
  // Whitespace

  /** The characters Python's `str.strip()` removes. */
  predicate IsPySpace(c: char)
  {
    '\t' <= c <= '\r' || '\U{1C}' <= c <= ' ' || c == '\U{85}' || c == '\U{A0}' || c == '\U{1680}'
    || '\U{2000}' <= c <= '\U{200A}' || c == '\U{2028}' || c == '\U{2029}' || c == '\U{202F}'
    || c == '\U{205F}' || c == '\U{3000}'
  }

  /** The characters of the regular-expression class `\s` in Go's regexp package. */
  predicate IsRegexSpace(c: char)
  {
    c == '\t' || c == '\n' || c == '\U{C}' || c == '\r' || c == ' '
  }

  predicate IsDigit(c: char)
  {
    '0' <= c <= '9'
  }

  predicate AllPySpace(s: string)
  {
    forall i :: 0 <= i < |s| ==> IsPySpace(s[i])
  }

  function TrimLeft(s: string): (r: string)
    ensures |r| <= |s| && r == s[|s| - |r|..]
    ensures AllPySpace(s[..|s| - |r|])
    ensures r == [] || !IsPySpace(r[0])
    decreases |s|
  {
    if s != [] && IsPySpace(s[0]) then
      var r := TrimLeft(s[1..]);
      assert s[..|s| - |r|] == [s[0]] + s[1..][..|s| - 1 - |r|];
      r
    else s
  }

  function TrimRight(s: string): (r: string)
    ensures |r| <= |s| && r == s[..|r|]
    ensures AllPySpace(s[|r|..])
    ensures r == [] || !IsPySpace(r[|r| - 1])
    decreases |s|
  {
    if s != [] && IsPySpace(s[|s| - 1]) then
      var r := TrimRight(s[..|s| - 1]);
      assert s[|r|..] == s[..|s| - 1][|r|..] + [s[|s| - 1]];
      r
    else s
  }

  /** `r` is the run of `s` at offset `a` with only whitespace before and after it. */
  predicate RunAt(s: string, r: string, a: int)
  {
    0 <= a <= |s| - |r| && r == s[a..a + |r|] && AllPySpace(s[..a]) && AllPySpace(s[a + |r|..])
  }

  /** A whitespace-only prefix cut from `s`, then a whitespace-only suffix cut from
      what is left, leaves a run of `s`. */
  lemma CutRun(s: string, l: string, r: string)
    requires |l| <= |s| && l == s[|s| - |l|..] && AllPySpace(s[..|s| - |l|])
    requires |r| <= |l| && r == l[..|r|] && AllPySpace(l[|r|..])
    ensures RunAt(s, r, |s| - |l|)
  {
    var a := |s| - |l|;
    assert s[a..a + |r|] == l[..|r|];
    assert s[a + |r|..] == l[|r|..];
  }

  lemma TrimBothRun(s: string)
    ensures RunAt(s, TrimRight(TrimLeft(s)), |s| - |TrimLeft(s)|)
  {
    var l := TrimLeft(s);
    CutRun(s, l, TrimRight(l));
  }

  /** Python `str.strip()`: `s` without its leading and trailing whitespace. */
  function Strip(s: string): (r: string)
    ensures |r| <= |s|
    // `r` is a run of `s` with only whitespace before and after it, and the run
    // neither starts nor ends with whitespace.
    ensures exists a :: RunAt(s, r, a)
    ensures r == [] || (!IsPySpace(r[0]) && !IsPySpace(r[|r| - 1]))
  {
    TrimBothRun(s);
    TrimRight(TrimLeft(s))
  }

  /** A string with no surrounding whitespace is its own strip. */
  lemma StripUnchanged(s: string)
    requires s == [] || (!IsPySpace(s[0]) && !IsPySpace(s[|s| - 1]))
    ensures Strip(s) == s
  {
  }

  /** Text that starts with a non-space keeps its start under `Strip`, and keeps at
      least everything up to a later non-space character. */
  lemma StripKeepsPrefix(s: string, q: nat)
    requires q < |s| && !IsPySpace(s[0]) && !IsPySpace(s[q])
    ensures q < |Strip(s)| <= |s| && Strip(s) == s[..|Strip(s)|]
  {
    assert TrimLeft(s) == s;
  }

  lemma {:induction false} TrimLeftAppend(x: string, c: char)
    ensures TrimLeft(x) != [] ==> TrimLeft(x + [c]) == TrimLeft(x) + [c]
    ensures TrimLeft(x) == [] ==> TrimLeft(x + [c]) == TrimLeft([c])
    decreases |x|
  {
    if x == [] {
      assert x + [c] == [c];
    } else {
      var y := x + [c];
      assert y[0] == x[0] && y[1..] == x[1..] + [c];
      if IsPySpace(x[0]) {
        assert TrimLeft(x) == TrimLeft(x[1..]);
        assert TrimLeft(y) == TrimLeft(x[1..] + [c]);
        TrimLeftAppend(x[1..], c);
      } else {
        assert TrimLeft(x) == x;
        assert TrimLeft(y) == y;
      }
    }
  }

  /** Trailing whitespace is dropped by `TrimRight` one character at a time. */
  lemma TrimRightSpace(x: string, c: char)
    requires IsPySpace(c)
    ensures TrimRight(x + [c]) == TrimRight(x)
  {
    assert (x + [c])[..|x|] == x;
  }

  /** A line's trailing newline does not change its stripped text. */
  lemma StripNewline(x: string)
    ensures Strip(x + "\n") == Strip(x)
  {
    var y := x + ['\n'];
    assert y == x + "\n";
    TrimLeftAppend(x, '\n');
    if TrimLeft(x) != [] {
      TrimRightSpace(TrimLeft(x), '\n');
    } else {
      assert TrimLeft(['\n']) == [];
    }
    assert TrimRight(TrimLeft(y)) == TrimRight(TrimLeft(x));
  }

  /** A line whose text has no surrounding whitespace strips to that text. */
  lemma StripLine(x: string)
    requires x != [] && !IsPySpace(x[0]) && !IsPySpace(x[|x| - 1])
    ensures Strip(x + "\n") == x
  {
    StripNewline(x);
    StripUnchanged(x);
  }

  // ---------------------------------------------------------------------------
  // Splitting and joining

  /** Index of the first occurrence of `c` in `s`. */
  function IndexOf(s: string, c: char): (i: nat)
    requires c in s
    ensures i < |s| && s[i] == c && c !in s[..i]
  {
    if s[0] == c then 0 else
      var j := IndexOf(s[1..], c);
      assert s[..j + 1] == [s[0]] + s[1..][..j];
      j + 1
  }

  /** In `a`, the separator, then `b`, with no separator in `a`: the first separator
      sits right after `a` and is followed by `b`. */
  lemma FirstSeparator(a: string, c: char, b: string)
    requires c !in a
    ensures var s := a + [c] + b;
      c in s && IndexOf(s, c) == |a| && s[..|a|] == a && s[|a| + 1..] == b
  {
    var s := a + [c] + b;
    assert s[|a|] == c;
    assert s[..|a|] == a;
  }

  /** Go `strings.Split(s, sep)` for a one-character separator: the pieces between the
      separators, so a string with n separators gives n + 1 pieces and "" gives [""]. */
  function Split(s: string, sep: char): (parts: seq<string>)
    ensures |parts| >= 1
    ensures forall p | p in parts :: sep !in p
    decreases |s|
  {
    if sep in s then
      var i := IndexOf(s, sep);
      [s[..i]] + Split(s[i + 1..], sep)
    else [s]
  }

  /** Go `strings.Join(parts, sep)`. */
  function Join(parts: seq<string>, sep: char): string
  {
    if |parts| == 0 then ""
    else if |parts| == 1 then parts[0]
    else parts[0] + [sep] + Join(parts[1..], sep)
  }

  /** Joining the pieces of a split restores the string. */
  lemma {:induction false} JoinSplit(s: string, sep: char)
    ensures Join(Split(s, sep), sep) == s
    decreases |s|
  {
    if sep in s {
      var i := IndexOf(s, sep);
      var head, tail := s[..i], s[i + 1..];
      var parts := Split(tail, sep);
      assert Split(s, sep) == [head] + parts;
      JoinSplit(tail, sep);
      assert ([head] + parts)[1..] == parts;
      assert s == head + [sep] + tail;
    }
  }

  /** Splitting a join of separator-free pieces gives the pieces back. */
  lemma {:induction false} SplitJoin(parts: seq<string>, sep: char)
    requires |parts| >= 1
    requires forall p | p in parts :: sep !in p
    ensures Split(Join(parts, sep), sep) == parts
  {
    if |parts| > 1 {
      var s := Join(parts, sep);
      var rest := Join(parts[1..], sep);
      assert s == parts[0] + [sep] + rest;
      assert sep !in parts[0];
      FirstSeparator(parts[0], sep, rest);
      SplitJoin(parts[1..], sep);
    }
  }

  // ---------------------------------------------------------------------------
  // Decimal integers

  function DigitChar(d: nat): (c: char)
    requires d < 10
    ensures IsDigit(c) && c as int - '0' as int == d
  {
    ('0' as int + d) as char
  }

  function DigitValue(c: char): (d: nat)
    requires IsDigit(c)
    ensures d < 10
  {
    c as int - '0' as int
  }

  predicate AllDigits(s: string)
  {
    forall i :: 0 <= i < |s| ==> IsDigit(s[i])
  }

  /** The value of a string of decimal digits. */
  function DigitsValue(s: string): nat
    requires AllDigits(s)
  {
    if s == [] then 0 else DigitsValue(s[..|s| - 1]) * 10 + DigitValue(s[|s| - 1])
  }

  /** Decimal notation of `n`, without leading zeros (Go `%d`, Python `str`). */
  function NatToString(n: nat): (r: string)
    ensures |r| >= 1 && AllDigits(r)
    ensures |r| > 1 ==> r[0] != '0'
  {
    if n < 10 then [DigitChar(n)] else NatToString(n / 10) + [DigitChar(n % 10)]
  }

  function IntToString(i: int): (r: string)
    ensures |r| >= 1
  {
    if i < 0 then "-" + NatToString(-i) else NatToString(i)
  }

  /** Reading back the decimal notation of `n` gives `n`. */
  lemma {:induction false} NatToStringValue(n: nat)
    ensures DigitsValue(NatToString(n)) == n
  {
    if n >= 10 {
      NatToStringValue(n / 10);
      var s := NatToString(n);
      assert s[..|s| - 1] == NatToString(n / 10);
    }
  }

  /** Python `int(s)` for a decimal string: surrounding whitespace, an optional sign and
      at least one ASCII digit; `None` where Python raises `ValueError`. */
  function ParseInt(s: string): (r: Option<int>)
    ensures r.Some? ==> AllDigits(Strip(s)) || (|Strip(s)| > 1 && Strip(s)[0] in "+-" && AllDigits(Strip(s)[1..]))
  {
    var t := Strip(s);
    if t == [] then None
    else if t[0] == '-' && |t| > 1 && AllDigits(t[1..]) then Some(0 - DigitsValue(t[1..]))
    else if t[0] == '+' && |t| > 1 && AllDigits(t[1..]) then Some(DigitsValue(t[1..]))
    else if AllDigits(t) then Some(DigitsValue(t))
    else None
  }

  /** A non-empty run of digits parses as its value. */
  lemma ParseDigits(d: string)
    requires d != [] && AllDigits(d)
    ensures ParseInt(d) == Some(DigitsValue(d))
  {
    assert IsDigit(d[0]) && IsDigit(d[|d| - 1]);
    StripUnchanged(d);
    assert Strip(d) == d;
  }

  /** A minus sign followed by a non-empty run of digits parses as the negated value. */
  lemma ParseNegatedDigits(d: string)
    requires d != [] && AllDigits(d)
    ensures ParseInt("-" + d) == Some(0 - DigitsValue(d))
  {
    var s := "-" + d;
    assert s[0] == '-' && s[1..] == d && s[|s| - 1] == d[|d| - 1];
    assert IsDigit(d[|d| - 1]);
    StripUnchanged(s);
    assert Strip(s) == s;
  }

  /** Parsing the notation `IntToString` produces gives the number back. */
  lemma IntToStringParses(i: int)
    ensures ParseInt(IntToString(i)) == Some(i)
  {
    if i < 0 {
      var d := NatToString(-i);
      assert IntToString(i) == "-" + d;
      assert DigitsValue(d) == -i by { NatToStringValue(-i); }
      assert ParseInt("-" + d) == Some(0 - DigitsValue(d)) by { ParseNegatedDigits(d); }
    } else {
      var d := NatToString(i);
      assert IntToString(i) == d;
      assert DigitsValue(d) == i by { NatToStringValue(i); }
      assert ParseInt(d) == Some(DigitsValue(d)) by { ParseDigits(d); }
    }
  }

  // ---------------------------------------------------------------------------
  // Paths

  /** Python `os.path.basename` on POSIX: what follows the last '/'. */
  function Basename(p: string): (r: string)
    ensures '/' !in r
    ensures EndsWith(p, r)
    ensures |r| < |p| ==> p[|p| - |r| - 1] == '/'
  {
    if p == [] || p[|p| - 1] == '/' then []
    else
      var init := p[..|p| - 1];
      var r := Basename(init);
      assert p[|p| - |r| - 1..] == init[|init| - |r|..] + [p[|p| - 1]];
      assert |r| < |init| ==> p[|p| - |r| - 2] == init[|init| - |r| - 1];
      r + [p[|p| - 1]]
  }
}
