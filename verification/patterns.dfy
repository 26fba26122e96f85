/** The regular expressions of the engine, all of the shape `a1|a2|...` where each alternative is
    literal text, possibly `p1.*p2.*...`. `.` does not match a line terminator, so the pieces of
    one alternative must appear in order on one line. Flag `i` folds ASCII case on both sides. */
module Patterns {
  import opened Wrappers
  import opened Text

  /** Alternatives, each an ordered list of literal pieces joined by `.*`. */
  datatype Pattern = Pattern(alts: seq<seq<string>>)

  /** What `.` refuses to match. */
  predicate IsLineTerminator(c: char) {
    c == '\n' || c == '\r' || c == '\U{2028}' || c == '\U{2029}'
  }

  predicate OnOneLine(s: string) {
    forall i :: 0 <= i < |s| ==> !IsLineTerminator(s[i])
  }

  /** The pieces occur in order in `t`, the first one right at the start of `t` or after a stretch
      of non-terminator characters (the `.*` before it). */
  predicate ChainOnLine(t: string, parts: seq<string>)
    decreases |parts|, |t|
  {
    || |parts| == 0
    || (parts[0] <= t && ChainOnLine(t[|parts[0]|..], parts[1..]))
    || (|t| > 0 && !IsLineTerminator(t[0]) && ChainOnLine(t[1..], parts))
  }

  /** An unanchored search for the alternative `parts[0].*parts[1].*...` in `t`. */
  predicate Chain(t: string, parts: seq<string>)
    decreases |t|
  {
    || |parts| == 0
    || (parts[0] <= t && ChainOnLine(t[|parts[0]|..], parts[1..]))
    || (|t| > 0 && Chain(t[1..], parts))
  }

  /** `/alts/.test(t)`, case-sensitive. */
  predicate Test(p: Pattern, t: string) {
    exists k :: 0 <= k < |p.alts| && Chain(t, p.alts[k])
  }

  /** `/alts/i.test(t)`. */
  predicate TestI(p: Pattern, t: string) {
    exists k :: 0 <= k < |p.alts| && Chain(Lower(t), LowerAll(p.alts[k]))
  }

  /** A pattern of plain words, `w1|w2|...`. */
  function Words(ws: seq<string>): (p: Pattern)
    ensures |p.alts| == |ws|
    ensures forall k :: 0 <= k < |ws| ==> p.alts[k] == [ws[k]]
  {
    Pattern(seq(|ws|, k requires 0 <= k < |ws| => [ws[k]]))
  }

  /** A one-piece alternative is a plain substring search. */
  lemma {:induction false} ChainOfWord(t: string, w: string)
    ensures Chain(t, [w]) <==> Contains(t, w)
    decreases |t|
  {
    assert [w][1..] == [];
    if |t| > 0 {
      ChainOfWord(t[1..], w);
    }
  }

  /** For a pattern of plain words, `test` is "some word occurs". */
  lemma TestWords(ws: seq<string>, t: string)
    ensures Test(Words(ws), t) <==> exists k :: 0 <= k < |ws| && Contains(t, ws[k])
  {
    forall k | 0 <= k < |ws| ensures Chain(t, Words(ws).alts[k]) <==> Contains(t, ws[k]) {
      ChainOfWord(t, ws[k]);
    }
  }

  /** `a.*b` matches when `b` follows `a` later on the same line. */
  lemma {:induction false} ChainOnLineGap(y: string, b: string, z: string)
    requires OnOneLine(y)
    ensures ChainOnLine(y + b + z, [b])
    decreases |y|
  {
    assert [b][1..] == [];
    if |y| == 0 {
      assert y + b + z == b + z;
      assert b <= b + z;
    } else {
      assert (y + b + z)[0] == y[0];
      assert (y + b + z)[1..] == y[1..] + b + z;
      ChainOnLineGap(y[1..], b, z);
    }
  }

  lemma {:induction false} ChainSameLine(x: string, a: string, y: string, b: string, z: string)
    requires OnOneLine(y)
    ensures Chain(x + a + y + b + z, [a, b])
    decreases |x|
  {
    var t := x + a + y + b + z;
    if |x| == 0 {
      assert t == a + (y + b + z);
      assert a <= t && t[|a|..] == y + b + z;
      assert [a, b][1..] == [b];
      ChainOnLineGap(y, b, z);
    } else {
      assert t[1..] == x[1..] + a + y + b + z;
      ChainSameLine(x[1..], a, y, b, z);
    }
  }

  // ---------------------------------------------------------------------------
  // Global matching: `(t.match(/w1|w2|.../g) || []).length`

  predicate NonEmptyWords(ws: seq<string>) {
    forall k :: 0 <= k < |ws| ==> ws[k] != ""
  }

  /** The first word, in pattern order, that matches at the head of `t`. */
  function FirstAt(t: string, ws: seq<string>): (r: Option<nat>)
    ensures r.Some? ==> r.value < |ws| && ws[r.value] <= t
    ensures r.None? ==> forall k :: 0 <= k < |ws| ==> !(ws[k] <= t)
  {
    if |ws| == 0 then None
    else if ws[0] <= t then Some(0)
    else match FirstAt(t, ws[1..])
      case Some(k) => Some(k + 1)
      case None => None
  }

  /** Number of non-overlapping matches found scanning left to right, as `String.prototype.match`
      with flag `g` reports them. */
  function CountMatches(t: string, ws: seq<string>): nat
    requires NonEmptyWords(ws)
    decreases |t|
  {
    if |t| == 0 then 0
    else match FirstAt(t, ws)
      case Some(k) => 1 + CountMatches(t[|ws[k]|..], ws)
      case None => CountMatches(t[1..], ws)
  }

  /** No match at all exactly when none of the words occurs. */
  lemma {:induction false} CountMatchesZero(t: string, ws: seq<string>)
    requires NonEmptyWords(ws)
    ensures CountMatches(t, ws) == 0 <==> forall k :: 0 <= k < |ws| ==> !Contains(t, ws[k])
    decreases |t|
  {
    if |t| > 0 {
      CountMatchesZero(t[1..], ws);
      match FirstAt(t, ws)
      case Some(k) =>
        assert Contains(t, ws[k]);
      case None =>
    }
  }

  /** `(t.match(/.../gi) || []).length`: both sides folded to lower case. */
  function CountMatchesI(t: string, ws: seq<string>): nat
    requires NonEmptyWords(ws)
  {
    var lws := LowerAll(ws);
    assert NonEmptyWords(lws) by {
      forall k | 0 <= k < |ws| ensures lws[k] != "" {
        assert |lws[k]| == |ws[k]|;
      }
    }
    CountMatches(Lower(t), lws)
  }

  /** No case-insensitive match at all exactly when no word occurs in either letter case. */
  lemma CountMatchesIZero(t: string, ws: seq<string>)
    requires NonEmptyWords(ws)
    ensures CountMatchesI(t, ws) == 0 <==> forall k :: 0 <= k < |ws| ==> !Contains(Lower(t), Lower(ws[k]))
  {
    var lws := LowerAll(ws);
    assert NonEmptyWords(lws) by {
      forall k | 0 <= k < |ws| ensures lws[k] != "" {
        assert |lws[k]| == |ws[k]|;
      }
    }
    CountMatchesZero(Lower(t), lws);
  }
}
