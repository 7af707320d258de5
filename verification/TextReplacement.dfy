/**
 Textual replacement as `bytes.ReplaceAll` and `strings.ReplaceAll` perform it,
 and when it can be carried out piece by piece.
 */
module TextReplacement {

  // ------------------------------------------------------- text replacement

  /** `bytes.ReplaceAll` for a pattern of at least two characters. */
  function ReplaceAll(s: string, p: string, r: string): string
    requires |p| >= 2
  {
    if |s| < |p| then s
    else if s[..|p|] == p then r + ReplaceAll(s[|p|..], p, r)
    else [s[0]] + ReplaceAll(s[1..], p, r)
  }

  predicate Contains(s: string, p: string) {
    |s| >= |p| && (s[..|p|] == p || (s != [] && Contains(s[1..], p)))
  }

  /** The characters x and y stand next to each other somewhere in p. */
  ghost predicate Adjacent(p: string, x: char, y: char) {
    exists k :: 0 < k < |p| && p[k - 1] == x && p[k] == y
  }

  lemma {:induction false} ReplaceUntouched(s: string, p: string, r: string)
    requires |p| >= 2 && !Contains(s, p)
    ensures ReplaceAll(s, p, r) == s
  {
    if |s| >= |p| {
      ReplaceUntouched(s[1..], p, r);
      assert s == [s[0]] + s[1..];
    }
  }

  lemma ReplaceAfter(c: char, s: string, p: string, r: string)
    requires |p| >= 2 && c != p[0]
    ensures ReplaceAll([c] + s, p, r) == [c] + ReplaceAll(s, p, r)
  {
    var t := [c] + s;
    assert t[1..] == s;
    assert |t| >= |p| ==> t[..|p|][0] == c;
  }

  lemma ShortUntouched(s: string, p: string, r: string)
    requires |p| >= 2 && |s| < |p|
    ensures ReplaceAll(s, p, r) == s
  {
  }

  /** Replacement distributes over a concatenation whose seam is not an adjacent
      pair of the pattern. */
  lemma {:induction false} ReplaceConcat(a: string, b: string, p: string, r: string)
    requires |p| >= 2
    requires a == [] || b == [] || !Adjacent(p, a[|a| - 1], b[0])
    ensures ReplaceAll(a + b, p, r) == ReplaceAll(a, p, r) + ReplaceAll(b, p, r)
    decreases |a|
  {
    if a == [] {
      assert a + b == b;
    } else if b == [] {
      assert a + b == a;
      ShortUntouched(b, p, r);
    } else if |a + b| < |p| {
      ShortUntouched(a, p, r);
      ShortUntouched(b, p, r);
    } else if (a + b)[..|p|] == p {
      MatchStaysLeft(a, b, p);
      ReplaceConcat(a[|p|..], b, p, r);
      MatchedPrefix(a, b, p, r);
    } else {
      NoMatchInPrefix(a, b, p, r);
      ReplaceConcat(a[1..], b, p, r);
      SkippedPrefix(a, b, p, r);
    }
  }

  lemma MatchedPrefix(a: string, b: string, p: string, r: string)
    requires |p| >= 2 && |a| >= |p| && a[..|p|] == p
    requires ReplaceAll(a[|p|..] + b, p, r) == ReplaceAll(a[|p|..], p, r) + ReplaceAll(b, p, r)
    ensures ReplaceAll(a + b, p, r) == ReplaceAll(a, p, r) + ReplaceAll(b, p, r)
  {
    assert (a + b)[..|p|] == a[..|p|] && (a + b)[|p|..] == a[|p|..] + b;
    ReplaceMatch(a + b, p, r);
    ReplaceMatch(a, p, r);
    Regroup(r, ReplaceAll(a[|p|..], p, r), ReplaceAll(b, p, r));
  }

  lemma SkippedPrefix(a: string, b: string, p: string, r: string)
    requires |p| >= 2 && a != [] && |a + b| >= |p| && (a + b)[..|p|] != p
    requires ReplaceAll(a, p, r) == [a[0]] + ReplaceAll(a[1..], p, r)
    requires ReplaceAll(a[1..] + b, p, r) == ReplaceAll(a[1..], p, r) + ReplaceAll(b, p, r)
    ensures ReplaceAll(a + b, p, r) == ReplaceAll(a, p, r) + ReplaceAll(b, p, r)
  {
    assert (a + b)[1..] == a[1..] + b;
    ReplaceSkip(a + b, p, r);
    Regroup([a[0]], ReplaceAll(a[1..], p, r), ReplaceAll(b, p, r));
  }

  lemma ReplaceSkip(s: string, p: string, r: string)
    requires |s| >= |p| >= 2 && s[..|p|] != p
    ensures ReplaceAll(s, p, r) == [s[0]] + ReplaceAll(s[1..], p, r)
  {
  }

  lemma ReplaceMatch(s: string, p: string, r: string)
    requires |s| >= |p| >= 2 && s[..|p|] == p
    ensures ReplaceAll(s, p, r) == r + ReplaceAll(s[|p|..], p, r)
  {
  }

  lemma Regroup(a: string, b: string, c: string)
    ensures a + (b + c) == (a + b) + c
  {
  }

  lemma MatchStaysLeft(a: string, b: string, p: string)
    requires a != [] && b != [] && |a + b| >= |p| && (a + b)[..|p|] == p
    requires !Adjacent(p, a[|a| - 1], b[0])
    ensures |a| >= |p| && a[..|p|] == p
  {
    var s := a + b;
    assert forall i | 0 <= i < |p| :: s[i] == p[i];
    assert s[|a| - 1] == a[|a| - 1] && s[|a|] == b[0];
    assert |a| >= |p|;
    assert a[..|p|] == s[..|p|];
  }

  lemma NoMatchInPrefix(a: string, b: string, p: string, r: string)
    requires |p| >= 2 && a != [] && |a + b| >= |p| && (a + b)[..|p|] != p
    ensures ReplaceAll(a, p, r) == [a[0]] + ReplaceAll(a[1..], p, r)
  {
    if |a| >= |p| {
      assert (a + b)[..|p|] == a[..|p|];
    } else {
      ShortUntouched(a, p, r);
      ShortUntouched(a[1..], p, r);
    }
  }

  lemma ReplaceWrapped(open: string, body: string, close: string, p: string, r: string)
    requires |p| >= 2 && open != [] && body != [] && close != []
    requires !Adjacent(p, open[|open| - 1], body[0]) && !Adjacent(p, body[|body| - 1], close[0])
    ensures ReplaceAll(open + body + close, p, r)
         == ReplaceAll(open, p, r) + ReplaceAll(body, p, r) + ReplaceAll(close, p, r)
  {
    ReplaceConcat(open, body, p, r);
    ReplaceConcat(open + body, close, p, r);
  }

  /** A pattern maps to its replacement; a piece without it is kept. */
  lemma ReplacePattern(p: string, r: string)
    requires |p| >= 2
    ensures ReplaceAll(p, p, r) == r
  {
    assert p[|p|..] == "";
    ShortUntouched("", p, r);
  }

  lemma OtherPair(s: string, p: string, r: string)
    requires |p| == |s| == 2 && (s[0] != p[0] || s[1] != p[1])
    ensures ReplaceAll(s, p, r) == s
  {
    assert s[..2] == s && s == [s[0]] + s[1..];
    ShortUntouched(s[1..], p, r);
  }

  lemma {:induction false} AbsentFirst(s: string, p: string, r: string)
    requires |p| >= 2 && p[0] !in s
    ensures ReplaceAll(s, p, r) == s
  {
    if s == [] {
      ShortUntouched(s, p, r);
    } else {
      assert s == [s[0]] + s[1..];
      ReplaceAfter(s[0], s[1..], p, r);
      AbsentFirst(s[1..], p, r);
    }
  }

  /** Brackets and opening braces: every replacement that fires lowers this. */
  function Weight(s: string): nat {
    if s == [] then 0 else (if s[0] == '[' || s[0] == ']' || s[0] == '{' then 1 else 0) + Weight(s[1..])
  }

  lemma {:induction false} WeightConcat(a: string, b: string)
    ensures Weight(a + b) == Weight(a) + Weight(b)
  {
    if a == [] {
      assert a + b == b;
    } else {
      assert (a + b)[1..] == a[1..] + b;
      WeightConcat(a[1..], b);
    }
  }

  lemma WeightWrapped(a: string, b: string, c: string)
    ensures Weight(a + b + c) == Weight(a) + Weight(b) + Weight(c)
  {
    WeightConcat(a, b);
    WeightConcat(a + b, c);
  }

  lemma {:induction false} ReplaceLightens(s: string, p: string, r: string)
    requires |p| >= 2 && Weight(r) < Weight(p)
    ensures Weight(ReplaceAll(s, p, r)) <= Weight(s)
    ensures Contains(s, p) ==> Weight(ReplaceAll(s, p, r)) < Weight(s)
  {
    if |s| >= |p| {
      if s[..|p|] == p {
        ReplaceLightens(s[|p|..], p, r);
        assert s == p + s[|p|..];
        WeightConcat(p, s[|p|..]);
        WeightConcat(r, ReplaceAll(s[|p|..], p, r));
      } else {
        ReplaceLightens(s[1..], p, r);
        assert s == [s[0]] + s[1..];
        WeightConcat([s[0]], ReplaceAll(s[1..], p, r));
        WeightConcat([s[0]], s[1..]);
      }
    }
  }

  lemma {:induction false} ContainsFirst(s: string, p: string)
    requires p != [] && Contains(s, p)
    ensures p[0] in s
  {
    if s[..|p|] == p {
      assert s[0] == p[0];
    } else {
      ContainsFirst(s[1..], p);
    }
  }
}
