/**
 * The Python built-ins the event engine leans on, stated over `string`:
 * `str.strip()`, `int(text)`, `str(n)`, `str.format(monster_name=...)` and
 * the way `readlines()` cuts freshly appended text into lines.
 */
module PyText {
  import opened Wrappers

  // ---------------------------------------------------------------------
  // str.strip()
  // ---------------------------------------------------------------------

  /** The characters for which Python's `str.isspace()` holds. */
  predicate IsSpace(c: char) {
    || c == ' ' || c == '\t' || c == '\n' || c == '\r'
    || c == '\U{B}' || c == '\U{C}'
    || ('\U{1C}' <= c <= '\U{1F}')
    || c == '\U{85}' || c == '\U{A0}' || c == '\U{1680}'
    || ('\U{2000}' <= c <= '\U{200A}')
    || c == '\U{2028}' || c == '\U{2029}' || c == '\U{202F}' || c == '\U{205F}' || c == '\U{3000}'
  }

  /** Length of the run of white space that opens `s`. */
  function LeadingSpace(s: string): (k: nat)
    ensures k <= |s|
    ensures forall i :: 0 <= i < k ==> IsSpace(s[i])
    ensures k < |s| ==> !IsSpace(s[k])
  {
    if s != [] && IsSpace(s[0]) then 1 + LeadingSpace(s[1..]) else 0
  }

  /** Length of the run of white space that closes `s`. */
  function TrailingSpace(s: string): (k: nat)
    ensures k <= |s|
    ensures forall i :: |s| - k <= i < |s| ==> IsSpace(s[i])
    ensures k < |s| ==> !IsSpace(s[|s| - 1 - k])
  {
    if s != [] && IsSpace(s[|s| - 1]) then 1 + TrailingSpace(s[..|s| - 1]) else 0
  }

  /**
   * `s.strip()`: the slice of `s` left once the white space at both ends is
   * cut off. Everything cut is white space and the result starts and ends
   * with a non-space character.
   */
  function Strip(s: string): (r: string)
    ensures |r| <= |s|
  {
    var a := LeadingSpace(s);
    if a == |s| then [] else s[a..|s| - TrailingSpace(s)]
  }

  /** A string that is not all white space has its leading run before its trailing one. */
  lemma LeadingBeforeTrailing(s: string)
    requires LeadingSpace(s) < |s|
    ensures LeadingSpace(s) < |s| - TrailingSpace(s)
  {
  }

  /**
   * `Strip` cuts exactly the white space at both ends: the result is the
   * slice after the leading run and everything after it is white space.
   */
  lemma StripCutsOnlySpace(s: string)
    ensures LeadingSpace(s) + |Strip(s)| <= |s|
    ensures Strip(s) == s[LeadingSpace(s)..LeadingSpace(s) + |Strip(s)|]
    ensures forall i :: LeadingSpace(s) + |Strip(s)| <= i < |s| ==> IsSpace(s[i])
  {
    if LeadingSpace(s) < |s| {
      LeadingBeforeTrailing(s);
    }
  }

  /** What `Strip` keeps starts and ends with a character that is not white space. */
  lemma StripEndsNotSpace(s: string)
    ensures Strip(s) != [] ==> !IsSpace(Strip(s)[0]) && !IsSpace(Strip(s)[|Strip(s)| - 1])
  {
    var a := LeadingSpace(s);
    if a < |s| {
      LeadingBeforeTrailing(s);
      var t := TrailingSpace(s);
      var r := s[a..|s| - t];
      assert r[0] == s[a] && r[|r| - 1] == s[|s| - 1 - t];
    }
  }

  /** Stripping twice cuts nothing more. */
  lemma StripIdempotent(s: string)
    ensures Strip(Strip(s)) == Strip(s)
  {
    StripCutsOnlySpace(s);
    StripEndsNotSpace(s);
    var r := Strip(s);
    if r != [] {
      assert LeadingSpace(r) == 0;
      assert TrailingSpace(r) == 0;
    }
  }

  // ---------------------------------------------------------------------
  // int(text) and str(n)
  // ---------------------------------------------------------------------

  predicate IsDigit(c: char) { '0' <= c <= '9' }

  predicate AllDigits(s: string) { forall i :: 0 <= i < |s| ==> IsDigit(s[i]) }

  function DigitValue(c: char): nat
    requires IsDigit(c)
  {
    c as int - '0' as int
  }

  function DigitChar(d: nat): char
    requires d < 10
  {
    ('0' as int + d) as char
  }

  /** The value of a string of decimal digits, most significant first. */
  function DigitsValue(s: string): nat
    requires AllDigits(s)
  {
    if s == [] then 0 else DigitsValue(s[..|s| - 1]) * 10 + DigitValue(s[|s| - 1])
  }

  /** What Python's `int()` accepts here: an optional sign followed by decimal digits. */
  predicate IsIntLiteral(s: string) {
    || (s != [] && AllDigits(s))
    || (|s| >= 2 && (s[0] == '+' || s[0] == '-') && AllDigits(s[1..]))
  }

  /** `int(s)`; `None` stands for the `ValueError` Python raises. */
  function ParseInt(s: string): (r: Option<int>)
    ensures r.Some? <==> IsIntLiteral(s)
  {
    if s != [] && AllDigits(s) then Some(DigitsValue(s))
    else if |s| >= 2 && s[0] == '-' && AllDigits(s[1..]) then Some(-(DigitsValue(s[1..]) as int))
    else if |s| >= 2 && s[0] == '+' && AllDigits(s[1..]) then Some(DigitsValue(s[1..]))
    else None
  }

  /** A capture of `\d+` always converts, and to a value that is not negative. */
  lemma ParseDigitsNonNegative(s: string)
    requires s != [] && AllDigits(s)
    ensures ParseInt(s).Some? && ParseInt(s).value >= 0
  {
  }

  /** `str(n)` for a natural number: its decimal digits, no leading zero. */
  function NatStr(n: nat): (s: string)
    ensures s != [] && AllDigits(s)
    ensures |s| > 1 ==> s[0] != '0'
  {
    if n < 10 then [DigitChar(n)] else NatStr(n / 10) + [DigitChar(n % 10)]
  }

  /** `str(n)` for any integer. */
  function Str(n: int): string {
    if n < 0 then "-" + NatStr(-n) else NatStr(n)
  }

  lemma {:induction false} NatStrValue(n: nat)
    ensures DigitsValue(NatStr(n)) == n
  {
    if n >= 10 {
      NatStrValue(n / 10);
      var s := NatStr(n);
      assert s[..|s| - 1] == NatStr(n / 10);
    }
  }

  /** `int(str(n)) == n`: the amount printed on a row reads back as the amount. */
  lemma StrRoundTrip(n: int)
    ensures ParseInt(Str(n)) == Some(n)
  {
    if n < 0 {
      NatStrValue(-n);
      assert Str(n)[1..] == NatStr(-n);
    } else {
      NatStrValue(n);
    }
  }

  // ---------------------------------------------------------------------
  // template.format(monster_name=name)
  // ---------------------------------------------------------------------

  const Placeholder: string := "{monster_name}"

  predicate BraceFree(s: string) {
    forall i :: 0 <= i < |s| ==> s[i] != '{' && s[i] != '}'
  }

  function Prepend(p: string, r: Option<string>): Option<string> {
    match r
    case Some(t) => Some(p + t)
    case None => None
  }

  /**
   * `t.format(monster_name=name)`: `{{` and `}}` stand for single braces,
   * every `{monster_name}` is replaced by `name`; any other brace is a field
   * Python cannot fill, and `None` stands for the exception it raises.
   */
  function Format(t: string, name: string): (r: Option<string>)
    ensures r.None? ==> !BraceFree(t)
    decreases |t|
  {
    if t == [] then Some([])
    else if |t| >= 2 && t[0] == '{' && t[1] == '{' then Prepend("{", Format(t[2..], name))
    else if |t| >= 2 && t[0] == '}' && t[1] == '}' then Prepend("}", Format(t[2..], name))
    else if |Placeholder| <= |t| && t[..|Placeholder|] == Placeholder then
      Prepend(name, Format(t[|Placeholder|..], name))
    else if t[0] == '{' || t[0] == '}' then None
    else Prepend([t[0]], Format(t[1..], name))
  }

  /** Text without braces passes through `format` as it is, in front of anything. */
  lemma {:induction false} FormatBraceFreePrefix(p: string, rest: string, name: string)
    requires BraceFree(p)
    ensures Format(p + rest, name) == Prepend(p, Format(rest, name))
    decreases |p|
  {
    if p != [] {
      var t := p + rest;
      assert t[0] == p[0];
      assert t[1..] == p[1..] + rest;
      if |t| >= |Placeholder| {
        assert t[..|Placeholder|] != Placeholder by { assert t[0] != Placeholder[0]; }
      }
      FormatBraceFreePrefix(p[1..], rest, name);
      assert Format(t, name) == Prepend([t[0]], Format(t[1..], name));
      match Format(rest, name)
      case Some(x) =>
        assert Format(t[1..], name) == Some(p[1..] + x);
        assert [p[0]] + (p[1..] + x) == p + x;
      case None =>
        assert Format(t[1..], name) == None;
    } else {
      assert p + rest == rest;
      match Format(rest, name)
      case Some(x) => assert p + x == x;
      case None =>
    }
  }

  /** A template without braces is returned unchanged. */
  lemma FormatBraceFree(t: string, name: string)
    requires BraceFree(t)
    ensures Format(t, name) == Some(t)
  {
    FormatBraceFreePrefix(t, [], name);
    assert t + [] == t;
  }

  /** A single placeholder between brace-free text is replaced by the name. */
  lemma FormatSubstitutes(p: string, q: string, name: string)
    requires BraceFree(p) && BraceFree(q)
    ensures Format(p + Placeholder + q, name) == Some(p + name + q)
  {
    var t := Placeholder + q;
    assert t[..|Placeholder|] == Placeholder;
    assert t[|Placeholder|..] == q;
    FormatBraceFree(q, name);
    assert Format(t, name) == Some(name + q);
    assert p + Placeholder + q == p + t;
    FormatBraceFreePrefix(p, t, name);
    assert p + (name + q) == p + name + q;
  }

  // ---------------------------------------------------------------------
  // readlines()
  // ---------------------------------------------------------------------

  /** Index just past the first line of `s`: after its first newline, or the end. */
  function LineEnd(s: string): (k: nat)
    requires s != []
    ensures 0 < k <= |s|
    ensures forall i :: 0 <= i < k - 1 ==> s[i] != '\n'
    ensures k < |s| ==> s[k - 1] == '\n'
  {
    if s[0] == '\n' || |s| == 1 then 1 else 1 + LineEnd(s[1..])
  }

  function Join(lines: seq<string>): string {
    if lines == [] then [] else lines[0] + Join(lines[1..])
  }

  /**
   * The lines `readlines()` returns for the text `s` read from the cursor:
   * each keeps its terminating newline, and a last line without one is
   * returned as well.
   */
  function ReadLines(s: string): (lines: seq<string>)
    ensures forall i :: 0 <= i < |lines| ==> lines[i] != []
    ensures forall i :: 0 <= i < |lines| - 1 ==> lines[i][|lines[i]| - 1] == '\n'
    ensures forall i, j :: 0 <= i < |lines| && 0 <= j < |lines[i]| - 1 ==> lines[i][j] != '\n'
    decreases |s|
  {
    if s == [] then [] else
      var k := LineEnd(s);
      [s[..k]] + ReadLines(s[k..])
  }

  /** Nothing is lost or added: the lines put back together are the text read. */
  lemma {:induction false} ReadLinesJoin(s: string)
    ensures Join(ReadLines(s)) == s
    decreases |s|
  {
    if s != [] {
      var k := LineEnd(s);
      ReadLinesJoin(s[k..]);
      assert ReadLines(s)[1..] == ReadLines(s[k..]);
      assert s[..k] + s[k..] == s;
    }
  }
}
