/** Two parts of a text with a separator between them, and whitespace that does not matter. */
module Spellings {
  import opened Options
  import opened Text

  predicate Blank(s: string) {
    forall k :: 0 <= k < |s| ==> IsWhitespace(s[k])
  }

  /** Whitespace at neither end. */
  predicate Bare(s: string) {
    s != "" ==> !IsWhitespace(s[0]) && !IsWhitespace(s[|s| - 1])
  }

  /** The two parts with the separator between them, and whitespace around each. */
  ghost predicate SpelledWith(
    raw: string, sep: char, left: string, right: string, a: string, b: string, c: string, d: string)
  {
    && raw == a + left + b + [sep] + c + right + d
    && Blank(a) && Blank(b) && Blank(c) && Blank(d)
  }

  ghost predicate SpelledApart(raw: string, sep: char, left: string, right: string) {
    && Bare(left) && Bare(right) && sep !in left
    && exists a, b, c, d :: SpelledWith(raw, sep, left, right, a, b, c, d)
  }

  lemma {:induction false} TrimUnique(s: string, a: string, m: string, b: string)
    requires s == a + m + b && Blank(a) && Blank(b) && Bare(m)
    ensures Trim(s) == m
  {
    var from, to := TrimStrips(s);
    if m == "" {
      assert forall k :: 0 <= k < |s| ==> IsWhitespace(s[k]);
    } else {
      assert s[|a|] == m[0] && s[|a| + |m| - 1] == m[|m| - 1];
      assert from <= |a| && |a| + |m| <= to;
    }
  }

  lemma {:induction false} TrimParts(s: string) returns (a: string, b: string)
    ensures s == a + Trim(s) + b && Blank(a) && Blank(b) && Bare(Trim(s))
  {
    var from, to := TrimStrips(s);
    a, b := s[..from], s[to..];
  }

  /** The part before the separator once the whole is trimmed. */
  function LeftPart(left: string, b: string): string {
    if left == "" then "" else left + b
  }

  function RightPart(c: string, right: string): string {
    if right == "" then "" else c + right
  }

  lemma {:induction false} PartsTrim(left: string, b: string, c: string, right: string)
    requires Bare(left) && Bare(right) && Blank(b) && Blank(c)
    ensures Trim(LeftPart(left, b)) == left && Trim(RightPart(c, right)) == right
  {
    TrimUnique(LeftPart(left, b), "", left, if left == "" then "" else b);
    TrimUnique(RightPart(c, right), if right == "" then "" else c, right, "");
  }

  lemma {:induction false} WholeTrims(
    sep: char, left: string, right: string, a: string, b: string, c: string, d: string)
    requires Bare(left) && Bare(right) && !IsWhitespace(sep) && Blank(a) && Blank(b) && Blank(c) && Blank(d)
    ensures Trim(a + left + b + [sep] + c + right + d) == LeftPart(left, b) + [sep] + RightPart(c, right)
  {
    var before, after := if left == "" then a + b else a, if right == "" then c + d else d;
    SameText(sep, left, right, a, b, c, d);
    BareCut(sep, left, b, c, right);
    TrimUnique(a + left + b + [sep] + c + right + d, before, LeftPart(left, b) + [sep] + RightPart(c, right), after);
  }

  lemma SameText(sep: char, left: string, right: string, a: string, b: string, c: string, d: string)
    ensures a + left + b + [sep] + c + right + d
         == (if left == "" then a + b else a)
            + (LeftPart(left, b) + [sep] + RightPart(c, right))
            + (if right == "" then c + d else d)
  {
    var x, y := LeftPart(left, b), RightPart(c, right);
    var before, after := if left == "" then a + b else a, if right == "" then c + d else d;
    assert a + left + b == before + x;
    assert c + right + d == y + after;
    Around(sep, a + left + b, c, right, d);
    assert (before + x) + [sep] + (y + after) == before + (x + [sep] + y) + after;
  }

  lemma Around(sep: char, p: string, c: string, right: string, d: string)
    ensures p + [sep] + c + right + d == p + [sep] + (c + right + d)
  {}

  lemma BareCut(sep: char, left: string, b: string, c: string, right: string)
    requires Bare(left) && Bare(right) && !IsWhitespace(sep)
    ensures Bare(LeftPart(left, b) + [sep] + RightPart(c, right))
  {
    var s := LeftPart(left, b) + [sep] + RightPart(c, right);
    assert s[0] == if left == "" then sep else left[0];
    assert s[|s| - 1] == if right == "" then sep else right[|right| - 1];
  }

  lemma NotInBlank(b: string, sep: char)
    requires Blank(b) && !IsWhitespace(sep)
    ensures sep !in b
  {}

  lemma {:induction false} CutIsSpelled(raw: string, sep: char, x: string, y: string)
    requires Trim(raw) == x + [sep] + y
    ensures exists a, b, c, d :: SpelledWith(raw, sep, Trim(x), Trim(y), a, b, c, d)
  {
    var a, d := TrimParts(raw);
    var a', b := TrimParts(x);
    var c, d' := TrimParts(y);
    Nested(sep, a, a', Trim(x), b, c, Trim(y), d', d);
    assert SpelledWith(raw, sep, Trim(x), Trim(y), a + a', b, c, d' + d);
  }

  lemma Nested(sep: char, a: string, a': string, x: string, b: string, c: string, y: string, d': string, d: string)
    ensures a + ((a' + x + b) + [sep] + (c + y + d')) + d == (a + a') + x + b + [sep] + c + y + (d' + d)
  {
    var inner := x + b + [sep] + c + y;
    assert (a' + x + b) + [sep] + (c + y + d') == a' + inner + d';
    assert a + (a' + inner + d') + d == (a + a') + inner + (d' + d);
    assert (a + a') + inner == (a + a') + x + b + [sep] + c + y;
  }

  lemma {:induction false} TrimIsPart(s: string, c: char)
    requires c !in s
    ensures c !in Trim(s)
  {
    var a, b := TrimParts(s);
  }

  /**
   Trimming, cutting at the first separator and trimming both parts gives the parts that the text
   spells, and nothing iff it has no separator.
   */
  lemma {:induction false} CutIsSpelling(raw: string, sep: char, left: string, right: string)
    requires !IsWhitespace(sep)
    ensures var cut := SplitOnce(Trim(raw), sep);
      && (cut.Some? && Trim(cut.value.0) == left && Trim(cut.value.1) == right <==> SpelledApart(raw, sep, left, right))
      && (cut.None? <==> sep !in raw)
  {
    SplitOnceCuts(Trim(raw), sep);
    var a, d := TrimParts(raw);
    NotInBlank(a, sep);
    NotInBlank(d, sep);
    if SplitOnce(Trim(raw), sep).Some? {
      var (x, y) := SplitOnce(Trim(raw), sep).value;
      CutIsSpelled(raw, sep, x, y);
      var _, _ := TrimParts(x);
      var _, _ := TrimParts(y);
      TrimIsPart(x, sep);
    }
    if SpelledApart(raw, sep, left, right) {
      SpelledIsCut(raw, sep, left, right);
    }
  }

  lemma {:induction false} SpelledIsCut(raw: string, sep: char, left: string, right: string)
    requires SpelledApart(raw, sep, left, right) && !IsWhitespace(sep)
    ensures var cut := SplitOnce(Trim(raw), sep);
      cut.Some? && Trim(cut.value.0) == left && Trim(cut.value.1) == right
  {
    var a, b, c, d :| SpelledWith(raw, sep, left, right, a, b, c, d);
    WholeTrims(sep, left, right, a, b, c, d);
    PartsTrim(left, b, c, right);
    NotInBlank(b, sep);
    SplitOnceUnique(LeftPart(left, b), sep, RightPart(c, right));
  }
}
