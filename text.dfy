/** The JavaScript string primitives the editor relies on: the `\s` character
    class, `trim`, `split` on a fixed separator, `join`, and the decimal
    rendering of a non-negative integer inside a template literal. */
module Text {

  /** ECMAScript LineTerminator: the characters after which a multiline `^` matches. */
  predicate IsLineTerminator(c: char) {
    c == '\n' || c == '\r' || c == '\U{2028}' || c == '\U{2029}'
  }

  /** ECMAScript WhiteSpace plus LineTerminator: what the regex class `\s`
      matches and what `String.prototype.trim` removes. Listed as a string so
      that membership is one lookup rather than a chain of comparisons. */
  const WsChars: string :=
    "\n\r\U{2028}\U{2029}\t\U{000B}\U{000C} \U{00A0}\U{1680}"
    + "\U{2000}\U{2001}\U{2002}\U{2003}\U{2004}\U{2005}\U{2006}\U{2007}\U{2008}\U{2009}\U{200A}"
    + "\U{202F}\U{205F}\U{3000}\U{FEFF}"

  predicate IsWs(c: char) {
    WsFrom(c, 0)
  }

  /** `c` occurs in `WsChars` at index `i` or later. */
  predicate WsFrom(c: char, i: nat)
    decreases |WsChars| - i
  {
    i < |WsChars| && (WsChars[i] == c || WsFrom(c, i + 1))
  }

  /** Every line terminator is whitespace. */
  lemma {:induction false} LineTerminatorIsWs(c: char)
    requires IsLineTerminator(c)
    ensures IsWs(c)
  {
    if c == '\U{2028}' || c == '\U{2029}' {
      assert WsFrom(c, 2);
    }
  }

  /** The code points outside every whitespace range: printable ASCII, and
      everything from U+00A1 to U+167F and from U+200B to U+2027 (the bullet
      U+2022 among them). */
  predicate Visible(c: char) {
    ('!' <= c <= '~') || ('\U{00A1}' <= c < '\U{1680}') || ('\U{200B}' <= c < '\U{2028}')
  }

  lemma {:induction false} WsFromNotVisible(c: char, i: nat)
    requires WsFrom(c, i)
    ensures !Visible(c)
    decreases |WsChars| - i
  {
    if WsChars[i] != c {
      WsFromNotVisible(c, i + 1);
    } else {
      assert forall j :: 0 <= j < |WsChars| ==> !Visible(WsChars[j]);
    }
  }

  /** No visible character is whitespace. */
  lemma {:induction false} VisibleNotWs(c: char)
    requires Visible(c)
    ensures !IsWs(c)
  {
    if IsWs(c) {
      WsFromNotVisible(c, 0);
    }
  }

  predicate AllWs(s: string) {
    forall i :: 0 <= i < |s| ==> IsWs(s[i])
  }

  predicate IsDigit(c: char) {
    '0' <= c <= '9'
  }

  /** The end of the whitespace run of `s` that starts at `i`: what `\s*`
      matches greedily at position `i`. */
  function WsRunFrom(s: string, i: nat): (j: nat)
    requires i <= |s|
    ensures i <= j <= |s|
    ensures forall k :: i <= k < j ==> IsWs(s[k])
    ensures j < |s| ==> !IsWs(s[j])
    decreases |s| - i
  {
    if i < |s| && IsWs(s[i]) then WsRunFrom(s, i + 1) else i
  }

  /** The start of the whitespace run of `s` that ends at `j`, not going
      below `lo`. */
  function WsRunBack(s: string, lo: nat, j: nat): (i: nat)
    requires lo <= j <= |s|
    ensures lo <= i <= j
    ensures forall k :: i <= k < j ==> IsWs(s[k])
    ensures lo < i ==> !IsWs(s[i - 1])
    decreases j
  {
    if lo < j && IsWs(s[j - 1]) then WsRunBack(s, lo, j - 1) else j
  }

  /** The text after its leading whitespace run. */
  function TrimStart(s: string): string
  {
    s[WsRunFrom(s, 0)..]
  }

  /** `s.trim()`: the slice between the leading and the trailing whitespace
      runs. */
  function Trim(s: string): string
  {
    var a := WsRunFrom(s, 0);
    s[a..WsRunBack(s, a, |s|)]
  }

  /** `trim` yields the empty string exactly for whitespace-only input, and
      otherwise a string that begins and ends with a visible character, the
      first one being the first visible character of `s`. */
  lemma {:induction false} TrimShape(s: string)
    ensures Trim(s) == [] <==> AllWs(s)
    ensures Trim(s) != [] ==> !IsWs(Trim(s)[0]) && !IsWs(Trim(s)[|Trim(s)| - 1])
    ensures Trim(s) != [] ==> Trim(s)[0] == TrimStart(s)[0]
  {
    var a := WsRunFrom(s, 0);
    if a < |s| {
      assert !IsWs(s[a]);
    }
  }

  /** `trim` is `trimStart` with the trailing whitespace run cut off. */
  lemma {:induction false} TrimOfTrimStart(s: string)
    ensures |Trim(s)| <= |TrimStart(s)| && Trim(s) == TrimStart(s)[..|Trim(s)|]
    ensures forall j :: |Trim(s)| <= j < |TrimStart(s)| ==> IsWs(TrimStart(s)[j])
  {
    var a := WsRunFrom(s, 0);
    var b := WsRunBack(s, a, |s|);
    var u := TrimStart(s);
    assert Trim(s) == u[..b - a];
    forall j | b - a <= j < |u|
      ensures IsWs(u[j])
    {
      assert u[j] == s[a + j];
    }
  }

  /** `trimStart` is empty exactly for whitespace-only input. */
  lemma {:induction false} TrimStartEmpty(s: string)
    ensures TrimStart(s) == [] <==> AllWs(s)
  {
    var a := WsRunFrom(s, 0);
    if a < |s| {
      assert !IsWs(s[a]);
    }
  }

  /** `parts.join(sep)`. */
  function Join(parts: seq<string>, sep: string): string
  {
    if |parts| == 0 then ""
    else if |parts| == 1 then parts[0]
    else parts[0] + sep + Join(parts[1..], sep)
  }

  /** Prepending a character to the first part prepends it to the join. */
  lemma {:induction false} JoinConsFirst(c: char, parts: seq<string>, sep: string)
    requires |parts| >= 1
    ensures Join([[c] + parts[0]] + parts[1..], sep) == [c] + Join(parts, sep)
  {
    var q := [[c] + parts[0]] + parts[1..];
    assert q[1..] == parts[1..];
  }

  predicate HasBlankLine(s: string) {
    exists i :: 0 <= i < |s| - 1 && s[i] == '\n' && s[i + 1] == '\n'
  }

  /** A text without line breaks has no blank line. */
  lemma {:induction false} NoNewlineNoBlankLine(s: string)
    requires '\n' !in s
    ensures !HasBlankLine(s)
  {
    forall i | 0 <= i < |s| - 1
      ensures s[i] != '\n'
    {
      assert s[i] in s;
    }
  }

  /** `s.split('\n\n')`: occurrences of the separator are taken left to
      right without overlap, so "a\n\n\nb" gives ["a", "\nb"]. */
  function SplitParagraphs(s: string): (r: seq<string>)
    ensures |r| >= 1
    decreases |s|
  {
    if |s| < 2 then [s]
    else if s[0] == '\n' && s[1] == '\n' then [""] + SplitParagraphs(s[2..])
    else
      var rest := SplitParagraphs(s[1..]);
      [[s[0]] + rest[0]] + rest[1..]
  }

  /** No piece contains the separator; the first piece is a prefix of the input. */
  lemma {:induction false} SplitParagraphsNoBlankLine(s: string)
    ensures forall i :: 0 <= i < |SplitParagraphs(s)| ==> !HasBlankLine(SplitParagraphs(s)[i])
    ensures |SplitParagraphs(s)[0]| <= |s| && SplitParagraphs(s)[0] == s[..|SplitParagraphs(s)[0]|]
    decreases |s|
  {
    if |s| < 2 {
    } else if s[0] == '\n' && s[1] == '\n' {
      SplitParagraphsNoBlankLine(s[2..]);
    } else {
      SplitParagraphsNoBlankLine(s[1..]);
      var rest := SplitParagraphs(s[1..]);
      ConsNoBlankLine(s, rest[0]);
      ReplaceFirstPiece([s[0]] + rest[0], rest);
    }
  }

  /** A character that does not open a blank line, put in front of the
      piece without one that follows it, gives a piece without one. */
  lemma {:induction false} ConsNoBlankLine(s: string, p: string)
    requires |s| >= 2 && !(s[0] == '\n' && s[1] == '\n')
    requires !HasBlankLine(p) && |p| <= |s| - 1 && p == s[1..][..|p|]
    ensures !HasBlankLine([s[0]] + p) && [s[0]] + p == s[..|p| + 1]
  {
    var first := [s[0]] + p;
    forall i | 0 <= i < |first| - 1
      ensures !(first[i] == '\n' && first[i + 1] == '\n')
    {
      if i == 0 {
        assert first[1] == s[1];
      } else {
        assert first[i] == p[i - 1] && first[i + 1] == p[i];
      }
    }
  }

  /** Replacing the first piece by one without a blank line keeps every
      piece free of one. */
  lemma {:induction false} ReplaceFirstPiece(first: string, rest: seq<string>)
    requires |rest| >= 1 && !HasBlankLine(first)
    requires forall i :: 0 <= i < |rest| ==> !HasBlankLine(rest[i])
    ensures forall i :: 0 <= i < |[first] + rest[1..]| ==> !HasBlankLine(([first] + rest[1..])[i])
  {
    var r := [first] + rest[1..];
    assert forall i :: 1 <= i < |r| ==> r[i] == rest[i];
  }

  /** A text without a blank line is a single piece. */
  lemma {:induction false} SplitParagraphsOne(s: string)
    requires !HasBlankLine(s)
    ensures SplitParagraphs(s) == [s]
    decreases |s|
  {
    if |s| >= 2 {
      assert !(s[0] == '\n' && s[1] == '\n');
      SplitParagraphsOne(s[1..]);
      assert s == [s[0]] + s[1..];
    }
  }

  /** Joining the pieces with the separator gives the input back. */
  lemma {:induction false} SplitParagraphsJoin(s: string)
    ensures Join(SplitParagraphs(s), "\n\n") == s
    decreases |s|
  {
    if |s| < 2 {
    } else if s[0] == '\n' && s[1] == '\n' {
      var rest := SplitParagraphs(s[2..]);
      SplitParagraphsJoin(s[2..]);
      JoinCons("", rest, "\n\n");
      assert s == "" + "\n\n" + s[2..];
    } else {
      var rest := SplitParagraphs(s[1..]);
      SplitParagraphsJoin(s[1..]);
      JoinConsFirst(s[0], rest, "\n\n");
      assert s == [s[0]] + s[1..];
    }
  }

  /** Separating two texts by a blank line splits into the pieces of each,
      provided the first does not end with a line break (which would be
      taken as the start of the separator). */
  lemma {:induction false} SplitParagraphsAppend(a: string, b: string)
    requires a == [] || a[|a| - 1] != '\n'
    ensures SplitParagraphs(a + "\n\n" + b) == SplitParagraphs(a) + SplitParagraphs(b)
    decreases |a|
  {
    if a == [] {
      SplitParagraphsSeparator(b);
      assert a + "\n\n" + b == "\n\n" + b;
    } else if |a| == 1 {
      SplitParagraphsLast(a[0], b);
      assert a == [a[0]];
    } else if a[0] == '\n' && a[1] == '\n' {
      SplitParagraphsAppend(a[2..], b);
      SplitParagraphsLeadingSeparator(a, b);
    } else {
      SplitParagraphsAppend(a[1..], b);
      SplitParagraphsAppendStep(a, b);
    }
  }

  lemma {:induction false} SplitParagraphsSeparator(b: string)
    ensures SplitParagraphs("\n\n" + b) == [""] + SplitParagraphs(b)
  {
    assert ("\n\n" + b)[2..] == b;
  }

  lemma {:induction false} SplitParagraphsLast(c: char, b: string)
    requires c != '\n'
    ensures SplitParagraphs([c] + "\n\n" + b) == [[c]] + SplitParagraphs(b)
  {
    var s := [c] + "\n\n" + b;
    assert s[0] == c && s[1..] == "\n\n" + b;
    SplitParagraphsSeparator(b);
    assert [c] + "" == [c];
  }

  lemma {:induction false} SplitParagraphsLeadingSeparator(a: string, b: string)
    requires |a| >= 2 && a[0] == '\n' && a[1] == '\n'
    requires SplitParagraphs(a[2..] + "\n\n" + b) == SplitParagraphs(a[2..]) + SplitParagraphs(b)
    ensures SplitParagraphs(a + "\n\n" + b) == SplitParagraphs(a) + SplitParagraphs(b)
  {
    var s := a + "\n\n" + b;
    assert s[0] == '\n' && s[1] == '\n' && s[2..] == a[2..] + "\n\n" + b;
    AppendAssoc([""], SplitParagraphs(a[2..]), SplitParagraphs(b));
  }

  lemma {:induction false} SplitParagraphsAppendStep(a: string, b: string)
    requires |a| >= 2 && !(a[0] == '\n' && a[1] == '\n')
    requires SplitParagraphs(a[1..] + "\n\n" + b) == SplitParagraphs(a[1..]) + SplitParagraphs(b)
    ensures SplitParagraphs(a + "\n\n" + b) == SplitParagraphs(a) + SplitParagraphs(b)
  {
    var s := a + "\n\n" + b;
    var ra := SplitParagraphs(a[1..]);
    var rb := SplitParagraphs(b);
    assert s[0] == a[0] && s[1] == a[1] && s[1..] == a[1..] + "\n\n" + b;
    assert (ra + rb)[0] == ra[0];
    ConsFirst([a[0]] + ra[0], ra, rb);
  }

  lemma AppendAssoc<T>(a: seq<T>, b: seq<T>, c: seq<T>)
    ensures a + b + c == a + (b + c)
  {
  }

  lemma {:induction false} ConsFirst<T>(x: T, ra: seq<T>, rb: seq<T>)
    requires |ra| >= 1
    ensures [x] + (ra + rb)[1..] == ([x] + ra[1..]) + rb
  {
    assert (ra + rb)[1..] == ra[1..] + rb;
  }

  /** `s.split('\n')`. */
  function SplitLines(s: string): (r: seq<string>)
    ensures |r| >= 1
    ensures forall i :: 0 <= i < |r| ==> '\n' !in r[i]
  {
    if s == [] then [""]
    else if s[0] == '\n' then [""] + SplitLines(s[1..])
    else
      var rest := SplitLines(s[1..]);
      [[s[0]] + rest[0]] + rest[1..]
  }

  function CountChar(s: string, c: char): nat
  {
    if s == [] then 0 else (if s[0] == c then 1 else 0) + CountChar(s[1..], c)
  }

  /** One line more than there are line breaks, and the lines joined with
      "\n" give the input back. */
  lemma {:induction false} SplitLinesJoin(s: string)
    ensures |SplitLines(s)| == CountChar(s, '\n') + 1
    ensures Join(SplitLines(s), "\n") == s
  {
    if s == [] {
    } else if s[0] == '\n' {
      var rest := SplitLines(s[1..]);
      SplitLinesJoin(s[1..]);
      JoinCons("", rest, "\n");
      assert s == "" + "\n" + s[1..];
    } else {
      var rest := SplitLines(s[1..]);
      SplitLinesJoin(s[1..]);
      JoinConsFirst(s[0], rest, "\n");
      assert s == [s[0]] + s[1..];
    }
  }

  /** A first part in front of at least one more is followed by the separator. */
  lemma {:induction false} JoinCons(p: string, parts: seq<string>, sep: string)
    requires |parts| >= 1
    ensures Join([p] + parts, sep) == p + sep + Join(parts, sep)
  {
    assert ([p] + parts)[1..] == parts;
  }

  /** Lines without line breaks, joined with "\n", split back into themselves. */
  lemma {:induction false} SplitLinesOfJoin(lines: seq<string>)
    requires |lines| >= 1
    requires forall i :: 0 <= i < |lines| ==> '\n' !in lines[i]
    ensures SplitLines(Join(lines, "\n")) == lines
  {
    if |lines| == 1 {
      SplitLinesOne(lines[0]);
    } else {
      SplitLinesOfJoin(lines[1..]);
      SplitLinesCons(lines[0], Join(lines[1..], "\n"));
    }
  }

  lemma {:induction false} SplitLinesOne(line: string)
    requires '\n' !in line
    ensures SplitLines(line) == [line]
    decreases |line|
  {
    if line != [] {
      SplitLinesOne(line[1..]);
      assert line == [line[0]] + line[1..];
    }
  }

  /** A line without a line break is the first piece, the rest is split on its own. */
  lemma {:induction false} SplitLinesCons(line: string, rest: string)
    requires '\n' !in line
    ensures SplitLines(line + "\n" + rest) == [line] + SplitLines(rest)
    decreases |line|
  {
    var s := line + "\n" + rest;
    if line == [] {
      assert s == "\n" + rest;
      assert s[1..] == rest;
    } else {
      SplitLinesCons(line[1..], rest);
      assert s[1..] == line[1..] + "\n" + rest;
      assert line == [line[0]] + line[1..];
    }
  }

  function DigitChar(d: nat): (c: char)
    requires d < 10
    ensures IsDigit(c)
  {
    ('0' as int + d) as char
  }

  /** `${n}` for a non-negative integer: decimal, no leading zeros. */
  function NatToString(n: nat): (r: string)
    ensures r != [] && forall i :: 0 <= i < |r| ==> IsDigit(r[i])
    ensures |r| > 1 ==> r[0] != '0'
  {
    if n < 10 then [DigitChar(n)] else NatToString(n / 10) + [DigitChar(n % 10)]
  }

  function DigitsValue(s: string): nat
    requires forall i :: 0 <= i < |s| ==> IsDigit(s[i])
  {
    if s == [] then 0
    else
      assert IsDigit(s[|s| - 1]);
      10 * DigitsValue(s[..|s| - 1]) + (s[|s| - 1] as int - '0' as int)
  }

  /** Reads a decimal numeral back; `None` for anything that is not one. */
  function ParseNat(s: string): Option<nat>
  {
    if s != [] && forall i :: 0 <= i < |s| ==> IsDigit(s[i]) then Some(DigitsValue(s)) else None
  }

  lemma {:induction false} ParseNatToString(n: nat)
    ensures ParseNat(NatToString(n)) == Some(n)
  {
    var s := NatToString(n);
    if n < 10 {
      assert s[..|s| - 1] == [];
      assert DigitsValue(s) == n;
    } else {
      ParseNatToString(n / 10);
      assert s[..|s| - 1] == NatToString(n / 10);
      assert DigitsValue(s) == 10 * (n / 10) + n % 10;
    }
  }

  datatype Option<+T> = None | Some(value: T)
}
