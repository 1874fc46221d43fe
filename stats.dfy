/** `updateStats`: the word count and the reading time shown under the
    editor and stored on the document. */
module Stats {
  import opened Text

  /** Words read per minute. */
  const WordsPerMinute: nat := 200

  /** The first whitespace character at or after `i`, or the end. */
  function WordEnd(s: string, i: nat): (j: nat)
    requires i <= |s|
    ensures i <= j <= |s|
    ensures forall k :: i <= k < j ==> !IsWs(s[k])
    ensures j < |s| ==> IsWs(s[j])
    decreases |s| - i
  {
    if i < |s| && !IsWs(s[i]) then WordEnd(s, i + 1) else i
  }

  // `t.split(/\s+/)` from position `i`: the piece up to the next whitespace
  // character, then the separator is the whole whitespace run there.
  function SplitWsFrom(t: string, i: nat): (r: seq<string>)
    requires i <= |t|
    ensures |r| >= 1
    decreases |t| - i
  {
    var b := WordEnd(t, i);
    if b == |t| then [t[i..]] else [t[i..b]] + SplitWsFrom(t, WsRunFrom(t, b))
  }

  // `t.split(/\s+/)`: "" gives [""], and a leading or trailing whitespace
  // run gives an empty first or last piece.
  function SplitWs(t: string): (r: seq<string>)
    ensures |r| >= 1
  {
    SplitWsFrom(t, 0)
  }

  /** `content.trim() ? content.trim().split(/\s+/).length : 0`. */
  function WordCount(content: string): nat
  {
    var t := Trim(content);
    if t == [] then 0 else |SplitWs(t)|
  }

  predicate NoWs(w: string) {
    forall j :: 0 <= j < |w| ==> !IsWs(w[j])
  }

  /** The maximal runs of non-whitespace characters of `s` from `i` on, in
      order: the words a reader sees. */
  function WordsFrom(s: string, i: nat): seq<string>
    requires i <= |s|
    decreases |s| - i
  {
    var a := WsRunFrom(s, i);
    if a == |s| then []
    else
      var b := WordEnd(s, a);
      [s[a..b]] + WordsFrom(s, b)
  }

  function Words(s: string): seq<string>
  {
    WordsFrom(s, 0)
  }

  /** Every word is non-empty and free of whitespace. */
  lemma {:induction false} WordsAreRuns(s: string, i: nat)
    requires i <= |s|
    ensures forall k :: 0 <= k < |WordsFrom(s, i)| ==>
      WordsFrom(s, i)[k] != [] && NoWs(WordsFrom(s, i)[k])
    decreases |s| - i
  {
    var a := WsRunFrom(s, i);
    if a < |s| {
      var b := WordEnd(s, a);
      WordsAreRuns(s, b);
      var r := WordsFrom(s, i);
      assert r == [s[a..b]] + WordsFrom(s, b);
      forall k | 1 <= k < |r|
        ensures r[k] == WordsFrom(s, b)[k - 1]
      {
      }
    }
  }

  /** `Math.ceil(words / 200)`. */
  function ReadingTime(words: nat): (minutes: nat)
    ensures words <= WordsPerMinute * minutes
    ensures minutes == 0 || WordsPerMinute * (minutes - 1) < words
  {
    (words + WordsPerMinute - 1) / WordsPerMinute
  }

  /** Skipping whitespace first does not change the words. */
  lemma {:induction false} WordsSkip(s: string, i: nat)
    requires i <= |s|
    ensures WordsFrom(s, i) == WordsFrom(s, WsRunFrom(s, i))
  {
    var a := WsRunFrom(s, i);
    assert WsRunFrom(s, a) == a;
  }

  /** On a string that begins and ends with a visible character, the regex
      split from a visible character yields exactly the words. */
  lemma {:induction false} SplitWsFromWords(t: string, i: nat)
    requires i < |t| && !IsWs(t[i]) && !IsWs(t[|t| - 1])
    ensures SplitWsFrom(t, i) == WordsFrom(t, i)
    decreases |t| - i
  {
    assert WsRunFrom(t, i) == i;
    var b := WordEnd(t, i);
    if b < |t| {
      var c := WsRunFrom(t, b);
      assert c < |t|;
      SplitWsFromWords(t, c);
      WordsSkip(t, b);
    } else {
      assert WordsFrom(t, b) == [];
      assert t[i..b] == t[i..];
      assert WordsFrom(t, i) == [t[i..b]] + WordsFrom(t, b);
    }
  }

  /** The whitespace run from `i` is determined by where it stops. */
  lemma {:induction false} WsRunIs(s: string, i: nat, j: nat)
    requires i <= j <= |s|
    requires forall k :: i <= k < j ==> IsWs(s[k])
    requires j < |s| ==> !IsWs(s[j])
    ensures WsRunFrom(s, i) == j
  {
  }

  lemma {:induction false} WordEndIs(s: string, i: nat, j: nat)
    requires i <= j <= |s|
    requires forall k :: i <= k < j ==> !IsWs(s[k])
    requires j < |s| ==> IsWs(s[j])
    ensures WordEnd(s, i) == j
  {
  }

  /** `t` occurs in `s` at offset `a`. */
  predicate PlacedAt(t: string, s: string, a: nat) {
    a + |t| <= |s| && forall k :: 0 <= k < |t| ==> t[k] == s[a + k]
  }

  /** A whitespace run that stops inside `t` stops at the same place in `s`. */
  lemma {:induction false} WsRunInSlice(t: string, s: string, a: nat, i: nat)
    requires PlacedAt(t, s, a) && i <= |t|
    ensures WsRunFrom(t, i) < |t| ==> WsRunFrom(s, a + i) == a + WsRunFrom(t, i)
  {
    var x := WsRunFrom(t, i);
    if x < |t| {
      forall k | a + i <= k < a + x
        ensures IsWs(s[k])
      {
        assert t[k - a] == s[k];
      }
      assert t[x] == s[a + x];
      WsRunIs(s, a + i, a + x);
    }
  }

  /** A whitespace run that reaches the end of `t` runs on to the end of `s`
      when only whitespace follows `t`. */
  lemma {:induction false} WsRunPastSlice(t: string, s: string, a: nat, i: nat)
    requires PlacedAt(t, s, a) && i <= |t| && WsRunFrom(s, a + |t|) == |s|
    ensures WsRunFrom(t, i) == |t| ==> WsRunFrom(s, a + i) == |s|
  {
    if WsRunFrom(t, i) == |t| {
      forall k | a + i <= k < |s|
        ensures IsWs(s[k])
      {
        if k < a + |t| {
          assert t[k - a] == s[k];
        }
      }
      WsRunIs(s, a + i, |s|);
    }
  }

  /** A word inside `t` ends where the same word of `s` ends, when `t` is
      followed by whitespace or the end of `s`. */
  lemma {:induction false} WordEndOfSlice(t: string, s: string, a: nat, x: nat)
    requires PlacedAt(t, s, a) && x <= |t|
    requires a + |t| < |s| ==> IsWs(s[a + |t|])
    ensures WordEnd(s, a + x) == a + WordEnd(t, x)
  {
    var b := WordEnd(t, x);
    forall k | a + x <= k < a + b
      ensures !IsWs(s[k])
    {
      assert t[k - a] == s[k];
    }
    if b < |t| {
      assert t[b] == s[a + b];
    }
    WordEndIs(s, a + x, a + b);
  }

  lemma {:induction false} SliceOfSlice(t: string, s: string, a: nat, x: nat, b: nat)
    requires PlacedAt(t, s, a) && x <= b <= |t|
    ensures t[x..b] == s[a + x..a + b]
  {
    var l, r := t[x..b], s[a + x..a + b];
    forall k | 0 <= k < |l|
      ensures l[k] == r[k]
    {
      assert l[k] == t[x + k];
    }
  }

  /** One step of the word scan: the word that starts where the whitespace
      run from `i` ends, then the words after it. */
  lemma {:induction false} WordsFromAt(s: string, i: nat, x: nat, b: nat, w: string)
    requires i <= |s| && x == WsRunFrom(s, i) && x < |s| && b == WordEnd(s, x) && w == s[x..b]
    ensures FirstWordThen(s, i, w, b)
  {
  }

  /** The scan of `s` from `i` finds `w` first and then goes on from `b`. */
  predicate FirstWordThen(s: string, i: nat, w: string, b: nat)
    requires i <= |s| && b <= |s|
  {
    WordsFrom(s, i) == [w] + WordsFrom(s, b)
  }

  /** The scan of `t` from `i` and the scan of `s` from `j` find the same words. */
  predicate SameWords(t: string, i: nat, s: string, j: nat)
    requires i <= |t| && j <= |s|
  {
    WordsFrom(t, i) == WordsFrom(s, j)
  }

  /** The first word of `t` from `i` is the first word of `s` from `a + i`,
      and both scans continue from the same place. */
  lemma {:induction false} SliceStep(t: string, s: string, a: nat, i: nat, x: nat, b: nat, j: nat, e: nat)
    requires PlacedAt(t, s, a) && i <= |t|
    requires a + |t| < |s| ==> IsWs(s[a + |t|])
    requires x == WsRunFrom(t, i) && x < |t| && b == WordEnd(t, x)
    requires j == a + i && e == a + b
    ensures FirstWordThen(t, i, t[x..b], b) && FirstWordThen(s, j, t[x..b], e)
  {
    var w, y := t[x..b], a + x;
    WsRunInSlice(t, s, a, i);
    WordEndOfSlice(t, s, a, x);
    SliceOfSlice(t, s, a, x, b);
    assert y == WsRunFrom(s, j) && y < |s| && e == WordEnd(s, y) && w == s[y..e];
    WordsFromAt(t, i, x, b, w);
    WordsFromAt(s, j, y, e, w);
  }

  /** When the scans of `t` and `s` agree after the next word of `t`, they
      agree from before it. */
  lemma {:induction false} SliceWordsStep(t: string, s: string, a: nat, i: nat, x: nat, b: nat, j: nat)
    requires PlacedAt(t, s, a) && i <= |t| && j == a + i && WsRunFrom(s, a + |t|) == |s|
    requires x == WsRunFrom(t, i) && x < |t| && b == WordEnd(t, x)
    requires SameWords(t, b, s, a + b)
    ensures SameWords(t, i, s, j)
  {
    SliceStep(t, s, a, i, x, b, j, a + b);
  }

  /** A scan whose whitespace run reaches the end finds no words. */
  lemma {:induction false} NoWordsFrom(s: string, i: nat)
    requires i <= |s| && WsRunFrom(s, i) == |s|
    ensures WordsFrom(s, i) == []
  {
  }

  /** The words of `t` are the words of `s` from the same place, when only
      whitespace follows `t` in `s`. */
  lemma {:induction false} WordsOfSlice(t: string, s: string, a: nat, i: nat, j: nat)
    requires PlacedAt(t, s, a) && i <= |t| && j == a + i && WsRunFrom(s, a + |t|) == |s|
    ensures SameWords(t, i, s, j)
    decreases |t| - i
  {
    var x := WsRunFrom(t, i);
    if x < |t| {
      var b := WordEnd(t, x);
      WordsOfSlice(t, s, a, b, a + b);
      SliceWordsStep(t, s, a, i, x, b, j);
    } else {
      SliceNoWords(t, s, a, i, j);
    }
  }

  /** Past the last word of the slice, neither scan finds a word. */
  lemma {:induction false} SliceNoWords(t: string, s: string, a: nat, i: nat, j: nat)
    requires PlacedAt(t, s, a) && i <= |t| && j == a + i && WsRunFrom(s, a + |t|) == |s|
    requires WsRunFrom(t, i) == |t|
    ensures SameWords(t, i, s, j)
  {
    WsRunPastSlice(t, s, a, i);
    NoWordsFrom(t, i);
    NoWordsFrom(s, j);
  }

  /** The word count is the number of maximal runs of non-whitespace
      characters, and for a text that is not blank, the pieces the regex
      split produces are exactly those runs, in order. */
  lemma {:induction false} WordCountIsWords(content: string)
    ensures WordCount(content) == |Words(content)|
    ensures Trim(content) != [] ==> SplitWs(Trim(content)) == Words(content)
  {
    TrimShape(content);
    var a := WsRunFrom(content, 0);
    var e := WsRunBack(content, a, |content|);
    var t := Trim(content);
    if t != [] {
      assert t[0] == content[a] && t[|t| - 1] == content[e - 1];
      SplitWsFromWords(t, 0);
      assert PlacedAt(t, content, a);
      WsRunIs(content, e, |content|);
      WordsOfSlice(t, content, a, 0, a);
      WordsSkip(content, 0);
    } else {
      assert WsRunFrom(content, 0) == |content|;
    }
  }

  /** Blank text has no words; any visible character makes at least one. */
  lemma {:induction false} WordCountZeroIffBlank(content: string)
    ensures WordCount(content) == 0 <==> AllWs(content)
  {
    TrimShape(content);
    if !AllWs(content) {
      assert |SplitWs(Trim(content))| >= 1;
    }
  }

  /** The reading time is zero exactly for an empty text, and one more
      minute is added for each further 200 words or part thereof. */
  lemma {:induction false} ReadingTimeSteps(words: nat)
    ensures ReadingTime(words) == 0 <==> words == 0
    ensures words > 0 ==> ReadingTime(words + WordsPerMinute) == ReadingTime(words) + 1
  {
  }
}
