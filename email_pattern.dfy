/**
 * The email test both contributor forms run on the trimmed value: the regular
 * expression `/\S+@\S+\.\S+/`, unanchored, evaluated with `RegExp.prototype.test`.
 * `Matches` scans the string; `Shaped` is the reference reading of the pattern
 * (four offsets delimiting the three `\S+` runs), and `MatchesIffShaped` shows
 * the two agree on every string.
 */
module EmailPattern {
  import opened Text

  /** No whitespace in positions `[i, j)` of `s`. */
  predicate NonSpaceSpan(s: string, i: int, j: int)
    requires 0 <= i <= j <= |s|
  {
    forall k :: i <= k < j ==> !IsSpace(s[k])
  }

  /** `s[a..p]`, `s[p+1..d]` and `s[d+1..e]` are non-empty runs of non-whitespace,
      `s[p]` is '@' and `s[d]` is '.': one match of the pattern. */
  predicate Shape(s: string, a: int, p: int, d: int, e: int) {
    && 0 <= a < p && p + 1 < d && d + 1 < e <= |s|
    && NonSpaceSpan(s, a, p) && s[p] == '@'
    && NonSpaceSpan(s, p + 1, d) && s[d] == '.'
    && NonSpaceSpan(s, d + 1, e)
  }

  /** The pattern matches somewhere in `s`. */
  ghost predicate Shaped(s: string) {
    exists a, p, d, e :: Shape(s, a, p, d, e)
  }

  /** From offset `j` on: a non-empty run of non-whitespace, then '.', then a non-whitespace character. */
  predicate DotTail(s: string, j: nat)
    decreases |s| - j
  {
    j + 2 < |s| && !IsSpace(s[j]) && ((s[j + 1] == '.' && !IsSpace(s[j + 2])) || DotTail(s, j + 1))
  }

  /** Some '@' at or after offset `p` has a non-whitespace character before it and a `DotTail` after it. */
  predicate AtFrom(s: string, p: nat): (b: bool)
    ensures b ==> 5 <= |s|
    decreases |s| - p
  {
    p < |s| && ((1 <= p && s[p] == '@' && !IsSpace(s[p - 1]) && DotTail(s, p + 1)) || AtFrom(s, p + 1))
  }

  /** `/\S+@\S+\.\S+/.test(s)`. A match needs at least five characters: one for each of the
      three runs, the '@' and the '.'. */
  predicate Matches(s: string): (b: bool)
    ensures b ==> 5 <= |s|
  {
    AtFrom(s, 0)
  }

  predicate TailShape(s: string, j: int, d: int, e: int) {
    0 <= j < d && d + 1 < e <= |s| && NonSpaceSpan(s, j, d) && s[d] == '.' && NonSpaceSpan(s, d + 1, e)
  }

  lemma {:induction false} DotTailIffTailShape(s: string, j: nat)
    ensures DotTail(s, j) <==> exists d, e :: TailShape(s, j, d, e)
    decreases |s| - j
  {
    if DotTail(s, j) {
      if s[j + 1] == '.' && !IsSpace(s[j + 2]) {
        assert TailShape(s, j, j + 1, j + 3);
      } else {
        DotTailIffTailShape(s, j + 1);
        var d, e :| TailShape(s, j + 1, d, e);
        assert TailShape(s, j, d, e);
      }
    }
    if exists d, e :: TailShape(s, j, d, e) {
      var d, e :| TailShape(s, j, d, e);
      if d > j + 1 {
        assert TailShape(s, j + 1, d, e);
        DotTailIffTailShape(s, j + 1);
      } else {
        assert !IsSpace(s[j + 2]);
      }
    }
  }

  lemma {:induction false} AtFromIffShape(s: string, p: nat)
    ensures AtFrom(s, p) <==> exists a, q, d, e :: p <= q && Shape(s, a, q, d, e)
    decreases |s| - p
  {
    if AtFrom(s, p) {
      if 1 <= p && s[p] == '@' && !IsSpace(s[p - 1]) && DotTail(s, p + 1) {
        DotTailIffTailShape(s, p + 1);
        var d, e :| TailShape(s, p + 1, d, e);
        assert Shape(s, p - 1, p, d, e);
      } else {
        AtFromIffShape(s, p + 1);
        var a, q, d, e :| p + 1 <= q && Shape(s, a, q, d, e);
        assert p <= q && Shape(s, a, q, d, e);
      }
    }
    if exists a, q, d, e :: p <= q && Shape(s, a, q, d, e) {
      var a, q, d, e :| p <= q && Shape(s, a, q, d, e);
      if q == p {
        assert TailShape(s, p + 1, d, e);
        DotTailIffTailShape(s, p + 1);
        assert !IsSpace(s[p - 1]);
      } else {
        assert p + 1 <= q && Shape(s, a, q, d, e);
        AtFromIffShape(s, p + 1);
      }
    }
  }

  /** The scan agrees with the reading of the pattern on every string. */
  lemma {:induction false} MatchesIffShaped(s: string)
    ensures Matches(s) <==> Shaped(s)
  {
    AtFromIffShape(s, 0);
  }

  /** A match needs an '@' followed later by a '.'. */
  lemma {:induction false} MatchHasAtThenDot(s: string)
    requires Matches(s)
    ensures exists p, d :: 0 < p < d < |s| - 1 && s[p] == '@' && s[d] == '.'
  {
    MatchesIffShaped(s);
    var a, p, d, e :| Shape(s, a, p, d, e);
    assert 0 < p < d < |s| - 1 && s[p] == '@' && s[d] == '.';
  }

  /** The pattern is unanchored: text before and after a match does not stop it matching. */
  lemma {:induction false} MatchesInContext(pre: string, s: string, post: string)
    requires Matches(s)
    ensures Matches(pre + s + post)
  {
    MatchesIffShaped(s);
    var a, p, d, e :| Shape(s, a, p, d, e);
    ShapeInContext(pre, s, post, a, p, d, e);
    MatchesIffShaped(pre + s + post);
  }

  lemma {:induction false} ShapeInContext(pre: string, s: string, post: string, a: int, p: int, d: int, e: int)
    requires Shape(s, a, p, d, e)
    ensures Shape(pre + s + post, |pre| + a, |pre| + p, |pre| + d, |pre| + e)
  {
    var t := pre + s + post;
    var k := |pre|;
    assert forall i :: 0 <= i < |s| ==> t[k + i] == s[i];
    SpanShift(t, s, k, a, p);
    SpanShift(t, s, k, p + 1, d);
    SpanShift(t, s, k, d + 1, e);
  }

  lemma {:induction false} SpanShift(t: string, s: string, k: nat, i: int, j: int)
    requires 0 <= i <= j <= |s| && k + |s| <= |t|
    requires forall x :: 0 <= x < |s| ==> t[k + x] == s[x]
    requires NonSpaceSpan(s, i, j)
    ensures NonSpaceSpan(t, k + i, k + j)
  {
    forall x | k + i <= x < k + j
      ensures !IsSpace(t[x])
    {
      assert t[x] == s[x - k];
    }
  }

  lemma {:induction false} ExampleMatches()
    ensures Matches("a@b.c")
    ensures !Matches("a@b")
    ensures !Matches("a @b.c")
    ensures !Matches("@b.c")
  {
    assert DotTail("a@b.c", 2);
  }
}
