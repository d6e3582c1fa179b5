/**
 * The string operations the components rely on, with JavaScript's meaning:
 * `String.prototype.trim`, the regular-expression class `\s`,
 * `split(/\s+/)` followed by a filter of empty fields, `indexOf`, and the
 * `maxLength` cap a text input puts on what can be typed into it.
 */
module Text {

  /** JavaScript whitespace: WhiteSpace and LineTerminator, the set `trim` removes and `\s` matches. */
  predicate IsSpace(c: char) {
    || c == '\t' || c == '\n' || c == '\U{000B}' || c == '\U{000C}' || c == '\r' || c == ' '
    || c == '\U{00A0}' || c == '\U{1680}' || ('\U{2000}' <= c <= '\U{200A}')
    || c == '\U{2028}' || c == '\U{2029}' || c == '\U{202F}' || c == '\U{205F}'
    || c == '\U{3000}' || c == '\U{FEFF}'
  }

  /** Every character is whitespace (the empty string included). */
  predicate Blank(s: string) {
    forall i :: 0 <= i < |s| ==> IsSpace(s[i])
  }

  /** Leading whitespace removed. */
  function TrimStart(s: string): (r: string)
    ensures |r| <= |s|
  {
    if s != [] && IsSpace(s[0]) then TrimStart(s[1..]) else s
  }

  /** `TrimStart` removes a blank prefix and keeps the rest, which does not start with whitespace. */
  lemma {:induction false} TrimStartSplits(s: string)
    ensures var r := TrimStart(s);
      && r == s[|s| - |r|..] && Blank(s[..|s| - |r|]) && (r != [] ==> !IsSpace(r[0]))
  {
    if s != [] && IsSpace(s[0]) {
      TrimStartSplits(s[1..]);
      var r := TrimStart(s);
      assert s[1..][|s| - 1 - |r|..] == s[|s| - |r|..];
      assert s[..|s| - |r|] == [s[0]] + s[1..][..|s| - 1 - |r|];
    }
  }

  /** Trailing whitespace removed. */
  function TrimEnd(s: string): (r: string)
    ensures |r| <= |s|
  {
    if s != [] && IsSpace(s[|s| - 1]) then TrimEnd(s[..|s| - 1]) else s
  }

  /** `TrimEnd` removes a blank suffix and keeps the rest, which does not end with whitespace. */
  lemma {:induction false} TrimEndSplits(s: string)
    ensures var r := TrimEnd(s);
      && r == s[..|r|] && Blank(s[|r|..]) && (r != [] ==> !IsSpace(r[|r| - 1]))
  {
    if s != [] && IsSpace(s[|s| - 1]) {
      TrimEndSplits(s[..|s| - 1]);
      var r := TrimEnd(s);
      assert s[..|s| - 1][..|r|] == s[..|r|];
      assert s[|r|..] == s[..|s| - 1][|r|..] + [s[|s| - 1]];
    }
  }

  /** `s.trim()`. */
  function Trim(s: string): (r: string)
    ensures |r| <= |s|
    ensures r != [] ==> !IsSpace(r[0]) && !IsSpace(r[|r| - 1])
    ensures r == [] <==> Blank(s)
  {
    var a := TrimStart(s);
    var r := TrimEnd(a);
    TrimStartSplits(s);
    TrimEndSplits(a);
    assert r != [] ==> !IsSpace(r[0]) by {
      if r != [] { assert r[0] == a[0]; }
    }
    assert r == [] ==> Blank(s) by {
      if r == [] {
        assert s == s[..|s| - |a|] + a;
        assert a == a[..0] + a[0..];
      }
    }
    r
  }

  /** Length of the maximal run of non-whitespace characters that starts `s`. */
  function RunLen(s: string): (n: nat)
    ensures n <= |s|
    ensures forall i :: 0 <= i < n ==> !IsSpace(s[i])
    ensures n < |s| ==> IsSpace(s[n])
  {
    if s == [] || IsSpace(s[0]) then 0 else 1 + RunLen(s[1..])
  }

  /** Length of the maximal run of whitespace that starts `s`. */
  function SpaceLen(s: string): (n: nat)
    ensures n <= |s|
    ensures Blank(s[..n])
    ensures n < |s| ==> !IsSpace(s[n])
  {
    if s == [] || !IsSpace(s[0]) then 0 else 1 + SpaceLen(s[1..])
  }

  /** `s.split(/\s+/)`: the fields between maximal whitespace runs, with the empty
      field before a leading run and after a trailing one. */
  function SplitWs(s: string): (fs: seq<string>)
    ensures |fs| >= 1
    decreases |s|
  {
    if s == [] then [""]
    else if IsSpace(s[0]) then [""] + SplitWs(s[SpaceLen(s)..])
    else
      var n := RunLen(s);
      if n == |s| then [s] else [s[..n]] + SplitWs(s[n + SpaceLen(s[n..])..])
  }

  /** `.filter(Boolean)`, equally `.filter((w) => w.length > 0)`: the non-empty fields, in order. */
  function NonEmpty(fs: seq<string>): (r: seq<string>)
  {
    if fs == [] then [] else (if fs[0] == "" then [] else [fs[0]]) + NonEmpty(fs[1..])
  }

  /** The words of `s`: its maximal runs of non-whitespace characters, in order. */
  function Words(s: string): (ws: seq<string>)
    decreases |s|
  {
    if s == [] then []
    else if IsSpace(s[0]) then Words(s[1..])
    else
      var n := RunLen(s);
      [s[..n]] + Words(s[n..])
  }

  /** The filter keeps only non-empty fields of the list and never adds any. */
  lemma {:induction false} NonEmptyKeepsFields(fs: seq<string>)
    ensures |NonEmpty(fs)| <= |fs|
    ensures forall w :: w in NonEmpty(fs) ==> w != "" && w in fs
  {
    if fs != [] {
      NonEmptyKeepsFields(fs[1..]);
    }
  }

  /** Every word is a non-empty run of non-whitespace characters. */
  lemma {:induction false} WordsAreRuns(s: string)
    ensures forall w :: w in Words(s) ==> w != "" && forall i :: 0 <= i < |w| ==> !IsSpace(w[i])
    decreases |s|
  {
    if s != [] {
      if IsSpace(s[0]) {
        WordsAreRuns(s[1..]);
      } else {
        WordsAreRuns(s[RunLen(s)..]);
      }
    }
  }

  /** `text.trim().split(/\s+/).filter(Boolean).length`: the number of words of the text, whatever
      whitespace surrounds them. */
  function CountWords(text: string): (n: nat)
    ensures n == |Words(text)|
  {
    SplitFilterIsWords(Trim(text));
    WordsOfTrim(text);
    |NonEmpty(SplitWs(Trim(text)))|
  }

  lemma {:induction false} NonEmptyAppend(a: seq<string>, b: seq<string>)
    ensures NonEmpty(a + b) == NonEmpty(a) + NonEmpty(b)
  {
    if a == [] {
      assert a + b == b;
    } else {
      assert (a + b)[1..] == a[1..] + b;
      NonEmptyAppend(a[1..], b);
    }
  }

  /** Leading whitespace does not change the words. */
  lemma {:induction false} WordsSkipSpaces(s: string, k: nat)
    requires k <= |s| && Blank(s[..k])
    ensures Words(s) == Words(s[k..])
  {
    if k > 0 {
      assert IsSpace(s[..k][0]);
      assert s[1..][..k - 1] == s[1..k];
      WordsSkipSpaces(s[1..], k - 1);
      assert s[1..][k - 1..] == s[k..];
    }
  }

  lemma {:induction false} RunLenAppendBlank(a: string, b: string)
    requires b == [] || IsSpace(b[0])
    ensures RunLen(a + b) == RunLen(a)
  {
    if a != [] && !IsSpace(a[0]) {
      assert (a + b)[1..] == a[1..] + b;
      RunLenAppendBlank(a[1..], b);
    } else if a == [] {
      assert a + b == b;
    }
  }

  /** Trailing whitespace does not change the words. */
  lemma {:induction false} WordsAppendBlank(a: string, b: string)
    requires Blank(b)
    ensures Words(a + b) == Words(a)
    decreases |a|
  {
    if a == [] {
      assert a + b == b;
      WordsSkipSpaces(b, |b|);
      assert b[|b|..] == [];
    } else if IsSpace(a[0]) {
      assert (a + b)[1..] == a[1..] + b;
      WordsAppendBlank(a[1..], b);
    } else {
      RunLenAppendBlank(a, b);
      var n := RunLen(a);
      assert (a + b)[..n] == a[..n];
      assert (a + b)[n..] == a[n..] + b;
      WordsAppendBlank(a[n..], b);
    }
  }

  lemma {:induction false} WordsOfTrimStart(s: string)
    ensures Words(TrimStart(s)) == Words(s)
  {
    TrimStartSplits(s);
    WordsSkipSpaces(s, |s| - |TrimStart(s)|);
  }

  lemma {:induction false} WordsOfTrimEnd(a: string)
    ensures Words(TrimEnd(a)) == Words(a)
  {
    var r := TrimEnd(a);
    TrimEndSplits(a);
    assert a == r + a[|r|..];
    WordsAppendBlank(r, a[|r|..]);
  }

  /** Trimming does not change the words. */
  lemma {:induction false} WordsOfTrim(s: string)
    ensures Words(Trim(s)) == Words(s)
  {
    WordsOfTrimStart(s);
    WordsOfTrimEnd(TrimStart(s));
    assert Trim(s) == TrimEnd(TrimStart(s));
  }

  /** The split-then-filter of the source computes exactly the words. */
  lemma {:induction false} SplitFilterIsWords(s: string)
    ensures NonEmpty(SplitWs(s)) == Words(s)
    decreases |s|
  {
    if s == [] {
    } else if IsSpace(s[0]) {
      var k := SpaceLen(s);
      NonEmptyAppend([""], SplitWs(s[k..]));
      SplitFilterIsWords(s[k..]);
      WordsSkipSpaces(s, k);
    } else {
      var n := RunLen(s);
      if n == |s| {
        assert Words(s[n..]) == [];
        assert s[..n] == s;
      } else {
        var m := SpaceLen(s[n..]);
        NonEmptyAppend([s[..n]], SplitWs(s[n + m..]));
        SplitFilterIsWords(s[n + m..]);
        WordsSkipSpaces(s[n..], m);
        assert s[n..][m..] == s[n + m..];
      }
    }
  }

  /** A string has no words exactly when it is blank. */
  lemma {:induction false} WordsEmptyIffBlank(s: string)
    ensures Words(s) == [] <==> Blank(s)
    decreases |s|
  {
    if s != [] {
      if IsSpace(s[0]) {
        WordsEmptyIffBlank(s[1..]);
        if Blank(s[1..]) {
          forall i | 0 <= i < |s| ensures IsSpace(s[i]) {
            if i > 0 { assert s[i] == s[1..][i - 1]; }
          }
        }
      }
    }
  }

  /** No words exactly when the text is empty or blank. */
  lemma {:induction false} CountWordsZeroIffBlank(text: string)
    ensures CountWords(text) == 0 <==> Blank(text)
  {
    WordsEmptyIffBlank(text);
  }

  /** The text `t` stands at offset `i` of `s`. */
  predicate OccursAt(s: string, t: string, i: int) {
    0 <= i && i + |t| <= |s| && s[i..i + |t|] == t
  }

  /** `s.indexOf(t, i)`: the first offset at or after `i` where `t` stands, or -1. */
  function IndexOfFrom(s: string, t: string, i: nat): (r: int)
    ensures r == -1 || (i <= r && OccursAt(s, t, r))
    ensures r == -1 ==> forall j :: i <= j ==> !OccursAt(s, t, j)
    ensures r != -1 ==> forall j :: i <= j < r ==> !OccursAt(s, t, j)
    decreases |s| - i
  {
    if i + |t| > |s| then -1
    else if s[i..i + |t|] == t then i
    else IndexOfFrom(s, t, i + 1)
  }

  /** `s.indexOf(t)`: the first offset where `t` stands, or -1 when it stands nowhere. */
  function IndexOf(s: string, t: string): (r: int)
    ensures r == -1 <==> forall j :: !OccursAt(s, t, j)
    ensures r != -1 ==> OccursAt(s, t, r) && forall j :: 0 <= j < r ==> !OccursAt(s, t, j)
  {
    IndexOfFrom(s, t, 0)
  }

  /** What a text input with `maxLength` lets through: the value, cut to the cap. */
  function CapInput(v: string, maxLength: nat): (r: string)
    ensures |r| <= maxLength && r <= v
    ensures |v| <= maxLength ==> r == v
    ensures |v| >= maxLength ==> |r| == maxLength
  {
    if |v| <= maxLength then v else v[..maxLength]
  }

  /** What a text input with `maxLength` makes of inserting `t` at offset `pos` of its value `v`:
      the inserted text is cut to the room left under the cap, and a value already at or over the
      cap takes nothing and is kept as it is. */
  function InsertCapped(v: string, pos: nat, t: string, maxLength: nat): (r: string)
    requires pos <= |v|
    ensures |v| <= |r| <= |v| + |t|
    ensures |v| <= maxLength ==> |r| <= maxLength
    ensures |v| >= maxLength ==> r == v
    ensures |v| + |t| <= maxLength ==> r == v[..pos] + t + v[pos..]
    ensures r[..pos] == v[..pos] && r[|r| - (|v| - pos)..] == v[pos..]
    ensures r[pos..|r| - (|v| - pos)] <= t
  {
    var room := if |v| >= maxLength then 0 else maxLength - |v|;
    var kept := if |t| <= room then |t| else room;
    v[..pos] + t[..kept] + v[pos..]
  }

  /** Typing or pasting at the end of a value within the cap is where the input's rule and
      `CapInput` of the value with the text appended agree. */
  lemma AppendAtEndIsCapInput(v: string, t: string, maxLength: nat)
    requires |v| <= maxLength
    ensures InsertCapped(v, |v|, t, maxLength) == CapInput(v + t, maxLength)
  {
    if |v| + |t| > maxLength {
      assert (v + t)[..maxLength] == v + t[..maxLength - |v|];
    }
  }

  /** Inserting anywhere but the end, or into a value already over the cap, gives a different
      value from `CapInput` of the attempted value. */
  lemma InsertCappedDiffersElsewhere()
    ensures InsertCapped("ab", 0, "XY", 3) == "Xab"
    ensures CapInput("XY" + "ab", 3) == "XYa"
    ensures InsertCapped("abcd", 4, "", 3) == "abcd"
    ensures CapInput("abcd", 3) == "abc"
  {
    assert InsertCapped("ab", 0, "XY", 3) == "" + "X" + "ab";
    assert ("XY" + "ab")[..3] == "XYa";
    assert "abcd"[..3] == "abc";
  }
}
