/** Python string operations the handler relies on: `str.split()` with no
    separator, `s.split(c)[0]` for a one-character separator, and `int(s)`
    on a string. */
module PyText {
  import opened Py

  /** The characters `str.split()` and `str.strip()` treat as whitespace. */
  predicate IsSpace(c: char) {
    ('\t' <= c <= '\r') || ('\U{1C}' <= c <= '\U{1F}') || c == ' '
    || c == '\U{85}' || c == '\U{A0}' || c == '\U{1680}'
    || ('\U{2000}' <= c <= '\U{200A}') || c == '\U{2028}' || c == '\U{2029}'
    || c == '\U{202F}' || c == '\U{205F}' || c == '\U{3000}'
  }

  predicate NoSpace(w: string) {
    forall i :: 0 <= i < |w| ==> !IsSpace(w[i])
  }

  /** What `str.split()` can produce: a non-empty run of non-whitespace. */
  predicate IsToken(w: string) {
    w != [] && NoSpace(w)
  }

  /** `s` with its leading whitespace removed. */
  function SkipSpace(s: string): (r: string)
    ensures |r| <= |s| && r == s[|s| - |r|..]
    ensures forall i :: 0 <= i < |s| - |r| ==> IsSpace(s[i])
    ensures r == [] || !IsSpace(r[0])
  {
    if s != [] && IsSpace(s[0]) then SkipSpace(s[1..]) else s
  }

  /** The longest prefix of `s` without whitespace. */
  function Word(s: string): (w: string)
    ensures w <= s && NoSpace(w)
    ensures |w| == |s| || IsSpace(s[|w|])
  {
    if s == [] || IsSpace(s[0]) then [] else [s[0]] + Word(s[1..])
  }

  /** `s.split()`: runs of whitespace separate the tokens, and leading or
      trailing whitespace yields no empty token. */
  function Split(s: string): (r: seq<string>)
    ensures forall i :: 0 <= i < |r| ==> IsToken(r[i])
    decreases |s|
  {
    var t := SkipSpace(s);
    if t == [] then []
    else
      var w := Word(t);
      WordStarts(t);
      var ws := Split(t[|w|..]);
      TokensCons(w, ws);
      [w] + ws
  }

  /** A string that starts with a non-blank has a non-empty first word. */
  lemma WordStarts(t: string)
    requires t != [] && !IsSpace(t[0])
    ensures Word(t) != []
  {
  }

  lemma TokensCons(w: string, ws: seq<string>)
    requires IsToken(w)
    requires forall i :: 0 <= i < |ws| ==> IsToken(ws[i])
    ensures forall i :: 0 <= i < |[w] + ws| ==> IsToken(([w] + ws)[i])
  {
    assert forall i :: 1 <= i < |ws| + 1 ==> ([w] + ws)[i] == ws[i - 1];
  }

  /** The tokens written out with one blank between neighbours. */
  function JoinSpaced(ws: seq<string>): string {
    if ws == [] then ""
    else if |ws| == 1 then ws[0]
    else ws[0] + " " + JoinSpaced(ws[1..])
  }

  lemma {:induction false} WordOf(w: string, rest: string)
    requires NoSpace(w)
    requires rest == [] || IsSpace(rest[0])
    ensures Word(w + rest) == w
  {
    if w != [] {
      assert (w + rest)[1..] == w[1..] + rest;
      WordOf(w[1..], rest);
    }
  }

  /** The first token of `tok + rest`, when `rest` is empty or starts with
      whitespace, is `tok`. */
  lemma SplitHead(tok: string, rest: string)
    requires IsToken(tok)
    requires rest == [] || IsSpace(rest[0])
    ensures Split(tok + rest) != [] && Split(tok + rest)[0] == tok
    ensures Split(tok + rest) == [tok] + Split(rest)
  {
    var s := tok + rest;
    assert s[0] == tok[0];
    assert SkipSpace(s) == s;
    WordOf(tok, rest);
    assert s[|tok|..] == rest;
  }

  lemma SplitLeadingSpace(c: char, s: string)
    requires IsSpace(c)
    ensures Split([c] + s) == Split(s)
  {
    assert ([c] + s)[1..] == s;
    assert SkipSpace([c] + s) == SkipSpace(s);
  }

  /** Splitting undoes joining: `" ".join(ws).split() == ws` for tokens. */
  lemma {:induction false} SplitJoin(ws: seq<string>)
    requires forall i :: 0 <= i < |ws| ==> IsToken(ws[i])
    ensures Split(JoinSpaced(ws)) == ws
  {
    if ws == [] {
    } else if |ws| == 1 {
      SplitHead(ws[0], "");
      assert ws[0] + "" == ws[0];
      assert Split("") == [];
    } else {
      var tail := ws[1..];
      assert ws == [ws[0]] + tail;
      assert forall i :: 0 <= i < |tail| ==> tail[i] == ws[i + 1];
      var rest := JoinSpaced(tail);
      assert JoinSpaced(ws) == ws[0] + ([' '] + rest);
      SplitHead(ws[0], [' '] + rest);
      SplitLeadingSpace(' ', rest);
      SplitJoin(tail);
    }
  }

  /** Joining two non-empty runs of tokens puts one blank between them. */
  lemma {:induction false} JoinSpacedAppend(a: seq<string>, b: seq<string>)
    requires a != [] && b != []
    ensures JoinSpaced(a + b) == JoinSpaced(a) + " " + JoinSpaced(b)
  {
    assert (a + b)[0] == a[0];
    if |a| > 1 {
      assert (a + b)[1..] == a[1..] + b;
      JoinSpacedAppend(a[1..], b);
    } else {
      assert (a + b)[1..] == b;
    }
  }

  /** `s.split(c)[0]`: the text before the first `c`, or all of `s`. */
  function BeforeFirst(s: string, c: char): (r: string)
    ensures r <= s && c !in r
    ensures |r| == |s| || s[|r|] == c
  {
    if s == [] || s[0] == c then [] else [s[0]] + BeforeFirst(s[1..], c)
  }

  /** Cutting at `c` keeps exactly the part before its first occurrence. */
  lemma {:induction false} BeforeFirstAt(s: string, c: char, tail: string)
    requires c !in s
    ensures BeforeFirst(s + [c] + tail, c) == s
  {
    if s != [] {
      assert (s + [c] + tail)[1..] == s[1..] + [c] + tail;
      BeforeFirstAt(s[1..], c, tail);
    }
  }

  /** A string without `c` is left whole. */
  lemma {:induction false} BeforeFirstAbsent(s: string, c: char)
    requires c !in s
    ensures BeforeFirst(s, c) == s
  {
    if s != [] {
      BeforeFirstAbsent(s[1..], c);
    }
  }

  /** The whitespace `int()` strips from a string: the ASCII spaces
      `\t`..`\r` and ` `, and any character beyond ASCII that is
      whitespace. The ASCII separators `\x1c`..`\x1f`, which
      `str.split()` does treat as whitespace, are kept, so they make the
      parse fail. */
  predicate IsIntSpace(c: char) {
    ('\t' <= c <= '\r') || c == ' ' || (c > '\U{7F}' && IsSpace(c))
  }

  /** `s` with the leading whitespace `int()` skips removed. */
  function SkipIntSpace(s: string): (r: string)
    ensures |r| <= |s| && r == s[|s| - |r|..]
    ensures forall i :: 0 <= i < |s| - |r| ==> IsIntSpace(s[i])
    ensures r == [] || !IsIntSpace(r[0])
  {
    if s != [] && IsIntSpace(s[0]) then SkipIntSpace(s[1..]) else s
  }

  /** `s` with the trailing whitespace `int()` skips removed. */
  function StripEnd(s: string): (r: string)
    ensures r <= s
    ensures forall i :: |r| <= i < |s| ==> IsIntSpace(s[i])
    ensures r == [] || !IsIntSpace(r[|r| - 1])
  {
    if s != [] && IsIntSpace(s[|s| - 1]) then StripEnd(s[..|s| - 1]) else s
  }

  function Strip(s: string): string {
    StripEnd(SkipIntSpace(s))
  }

  predicate IsDigit(c: char) {
    '0' <= c <= '9'
  }

  /** A base-10 literal as `int()` accepts it: digits, with single
      underscores allowed between two digits. */
  predicate IsNumeral(s: string) {
    && s != []
    && IsDigit(s[0]) && IsDigit(s[|s| - 1])
    && (forall i :: 0 <= i < |s| ==> IsDigit(s[i]) || s[i] == '_')
    && (forall i :: 0 <= i < |s| - 1 ==> s[i] == '_' ==> s[i + 1] != '_')
  }

  /** The number the digits of `s` spell, underscores ignored. */
  function NumeralValue(s: string): nat
    requires forall i :: 0 <= i < |s| ==> IsDigit(s[i]) || s[i] == '_'
  {
    if s == [] then 0
    else if s[|s| - 1] == '_' then NumeralValue(s[..|s| - 1])
    else
      assert IsDigit(s[|s| - 1]);
      NumeralValue(s[..|s| - 1]) * 10 + (s[|s| - 1] as int - '0' as int)
  }

  /** `int(s)` for a string `s`. */
  function ParseInt(s: string): (r: Result<int>)
    ensures r.Err? ==> r.error == ValueError
  {
    var t := Strip(s);
    if t != [] && (t[0] == '-' || t[0] == '+') then
      if IsNumeral(t[1..]) then
        var v: int := NumeralValue(t[1..]);
        Ok(if t[0] == '-' then -v else v)
      else Err(ValueError)
    else if IsNumeral(t) then Ok(NumeralValue(t))
    else Err(ValueError)
  }

  /** `str(n)` for a natural number. */
  function DecimalString(n: nat): (s: string)
    ensures s != [] && forall i :: 0 <= i < |s| ==> IsDigit(s[i])
  {
    if n < 10 then [('0' as int + n) as char]
    else DecimalString(n / 10) + [('0' as int + n % 10) as char]
  }

  lemma {:induction false} DecimalValue(n: nat)
    ensures NumeralValue(DecimalString(n)) == n
  {
    var s := DecimalString(n);
    if n >= 10 {
      assert s[..|s| - 1] == DecimalString(n / 10);
      DecimalValue(n / 10);
    } else {
      assert s[..|s| - 1] == [];
    }
  }

  /** `int(str(n)) == n`. */
  lemma ParseDecimal(n: nat)
    ensures ParseInt(DecimalString(n)) == Ok(n)
  {
    var s := DecimalString(n);
    DigitsFacts(s);
    DecimalValue(n);
  }

  /** A run of digits is left alone by `strip()` and is a numeral. */
  lemma DigitsFacts(s: string)
    requires s != [] && forall i :: 0 <= i < |s| ==> IsDigit(s[i])
    ensures Strip(s) == s && IsNumeral(s) && s[0] != '-' && s[0] != '+'
  {
    DigitsNoLeadingSpace(s);
    DigitsNoTrailingSpace(s);
  }

  lemma DigitsNoLeadingSpace(s: string)
    requires s != [] && IsDigit(s[0])
    ensures SkipIntSpace(s) == s
  {
    assert !IsIntSpace(s[0]);
  }

  lemma DigitsNoTrailingSpace(s: string)
    requires s != [] && IsDigit(s[|s| - 1])
    ensures StripEnd(s) == s
  {
    assert !IsIntSpace(s[|s| - 1]);
  }

  /** `int(s)` fails when `s` holds a character that is neither a digit,
      an underscore, a sign nor whitespace `int()` strips (`"1.5"`,
      `"12G"`, `"\x1c5"`). */
  lemma ParseRejects(s: string, k: nat)
    requires k < |s|
    requires !IsDigit(s[k]) && s[k] != '_' && s[k] != '-' && s[k] != '+' && !IsIntSpace(s[k])
    ensures ParseInt(s) == Err(ValueError)
  {
    var a := SkipIntSpace(s);
    var t := StripEnd(a);
    var d := |s| - |a|;
    assert d <= k;
    assert a[k - d] == s[k];
    assert k - d < |t|;
    assert t[k - d] == s[k];
    if t != [] && (t[0] == '-' || t[0] == '+') {
      assert k - d > 0;
      assert t[1..][k - d - 1] == s[k];
    }
  }

  /** An ASCII separator is whitespace to `str.split()` but not to
      `int()`: `int("\x1c5")` raises ValueError. */
  lemma SeparatorNotStripped()
    ensures IsSpace('\U{1C}') && !IsIntSpace('\U{1C}')
    ensures ParseInt(['\U{1C}', '5']) == Err(ValueError)
  {
    ParseRejects(['\U{1C}', '5'], 0);
  }
}
