/** The transcript detectors with an exact meaning: error cascades and context bloat (src/brain/autopsy.rs). */
module Detectors {
  import opened Numbers
  import opened Options
  import opened Text
  import opened Walker

  datatype Severity = Info | Warning | Critical

  // ---------------------------------------------------------------- error cascades

  /** A finding of `detect_error_cascades`. */
  datatype Cascade = Cascade(
    severity: Severity, tool: string, length: nat, detail: string, tokensWasted: nat, firstMessage: nat, lastMessage: nat)

  /** Calls `i`, ..., `j - 1` are errors of one tool. */
  ghost predicate SameToolErrors(calls: seq<ToolCall>, i: nat, j: nat)
    requires i < j <= |calls|
  {
    forall k :: i <= k < j ==> calls[k].isError && calls[k].toolName == calls[i].toolName
  }

  /** A run of same-tool errors that can be extended at neither end. */
  ghost predicate MaximalRun(calls: seq<ToolCall>, i: nat, j: nat) {
    && i < j <= |calls| && SameToolErrors(calls, i, j)
    && (i > 0 ==> !(calls[i - 1].isError && calls[i - 1].toolName == calls[i].toolName))
    && (j < |calls| ==> !(calls[j].isError && calls[j].toolName == calls[i].toolName))
  }

  function SeverityOf(length: nat): Severity {
    if length >= 5 then Critical else if length >= 3 then Warning else Info
  }

  const MAX_DETAIL: nat := 120

  /** The quoted first error; `None` where slicing it at byte 120 panics inside a character. */
  function DetailOf(c: ToolCall): Option<string> {
    var text := if c.resultContent.Some? then c.resultContent.value else "(unknown)";
    if ByteLen(text) <= MAX_DETAIL then Some("First error: " + text)
    else
      match TruncateAt(text, MAX_DETAIL)
      case None => None
      case Some(kept) => Some("First error: " + kept + "...")
  }

  /** The quoted text is longer than 120 bytes and byte 120 is inside one of its characters. */
  ghost predicate QuotePanics(c: ToolCall) {
    c.resultContent.Some? && CutsCharacter(c.resultContent.value, MAX_DETAIL)
  }

  lemma UnknownFits()
    ensures ByteLen("(unknown)") <= MAX_DETAIL
  {
    AsciiByteLen("(unknown)");
  }

  lemma {:induction false} DetailPanicsIff(c: ToolCall)
    ensures DetailOf(c).None? <==> QuotePanics(c)
  {
    UnknownFits();
    if c.resultContent.Some? && ByteLen(c.resultContent.value) > MAX_DETAIL {
      TruncateFailsIff(c.resultContent.value, MAX_DETAIL);
    }
  }

  function CascadeOf(calls: seq<ToolCall>, i: nat, j: nat): Cascade
    requires i < j <= |calls| && DetailOf(calls[i]).Some?
  {
    Cascade(SeverityOf(j - i), calls[i].toolName, j - i, DetailOf(calls[i]).value,
            SaturatingSub(calls[j - 1].tokensAtCall, calls[i].tokensAtCall), calls[i].messageIdx, calls[j - 1].messageIdx)
  }

  /** The runs are, in order and without overlap, exactly the maximal ones of two or more that start before `n`. */
  ghost predicate RunsUpto(calls: seq<ToolCall>, runs: seq<(nat, nat)>, n: nat) {
    && (forall k :: 0 <= k < |runs| ==> RunAt(calls, runs, k, n))
    && (forall k, l :: 0 <= k < l < |runs| ==> Apart(runs, k, l))
    && (forall i: nat, j: nat {:trigger Listed(runs, i, j)} ::
          MaximalRun(calls, i, j) && j - i >= 2 && i < n ==> Listed(runs, i, j))
  }

  ghost predicate RunAt(calls: seq<ToolCall>, runs: seq<(nat, nat)>, k: nat, n: nat)
    requires k < |runs|
  {
    MaximalRun(calls, runs[k].0, runs[k].1) && runs[k].1 - runs[k].0 >= 2 && runs[k].1 <= n
  }

  ghost predicate Apart(runs: seq<(nat, nat)>, k: nat, l: nat)
    requires k < l < |runs|
  {
    runs[k].1 <= runs[l].0
  }

  ghost predicate Listed(runs: seq<(nat, nat)>, i: nat, j: nat) {
    exists k :: 0 <= k < |runs| && runs[k] == (i, j)
  }

  /** One finding per run, each describing its run. */
  ghost predicate Reported(calls: seq<ToolCall>, runs: seq<(nat, nat)>, findings: seq<Cascade>) {
    |findings| == |runs| && forall k :: 0 <= k < |runs| ==> Describes(calls, runs[k], findings[k])
  }

  ghost predicate Describes(calls: seq<ToolCall>, run: (nat, nat), f: Cascade) {
    run.0 < run.1 <= |calls| && DetailOf(calls[run.0]).Some? && f == CascadeOf(calls, run.0, run.1)
  }

  /** `n` does not cut a run in two. */
  ghost predicate Boundary(calls: seq<ToolCall>, n: nat)
    requires n <= |calls|
  {
    0 < n < |calls| ==> !(calls[n - 1].isError && calls[n].isError && calls[n - 1].toolName == calls[n].toolName)
  }

  /** Two maximal runs that share a call are one. */
  lemma {:induction false} MaximalRunFrom(calls: seq<ToolCall>, i: nat, j: nat, a: nat, b: nat)
    requires MaximalRun(calls, i, j) && MaximalRun(calls, a, b) && i <= a < j
    ensures a == i && b == j
  {
    assert calls[a].toolName == calls[i].toolName;
    assert a == i;
  }

  lemma {:induction false} SkipCall(calls: seq<ToolCall>, runs: seq<(nat, nat)>, n: nat)
    requires n < |calls| && !calls[n].isError && RunsUpto(calls, runs, n)
    ensures RunsUpto(calls, runs, n + 1) && Boundary(calls, n + 1)
  {
    var m := n + 1;
    forall k | 0 <= k < |runs| ensures RunAt(calls, runs, k, m) {
      assert RunAt(calls, runs, k, n);
    }
    forall i: nat, j: nat | MaximalRun(calls, i, j) && j - i >= 2 && i < n + 1 ensures Listed(runs, i, j) {
      assert calls[i].isError;
    }
  }

  /** A maximal run that starts where the search stands is the next one; a run of one is not reported. */
  lemma {:induction false} AddRun(calls: seq<ToolCall>, runs: seq<(nat, nat)>, n: nat, j: nat)
    requires n < j <= |calls| && RunsUpto(calls, runs, n) && MaximalRun(calls, n, j)
    ensures RunsUpto(calls, if j - n >= 2 then runs + [(n, j)] else runs, j) && Boundary(calls, j)
  {
    var all := if j - n >= 2 then runs + [(n, j)] else runs;
    forall k | 0 <= k < |all| ensures RunAt(calls, all, k, j) {
      if k < |runs| {
        assert RunAt(calls, runs, k, n) && all[k] == runs[k];
      }
    }
    forall k, l | 0 <= k < l < |all| ensures Apart(all, k, l) {
      assert RunAt(calls, runs, k, n);
      if l < |runs| {
        assert Apart(runs, k, l);
      }
    }
    forall a: nat, b: nat | MaximalRun(calls, a, b) && b - a >= 2 && a < j ensures Listed(all, a, b) {
      if a >= n {
        MaximalRunFrom(calls, n, j, a, b);
        assert all[|runs|] == (n, j);
      } else {
        assert Listed(runs, a, b);
        var k :| 0 <= k < |runs| && runs[k] == (a, b);
        assert all[k] == (a, b);
      }
    }
  }

  /** Some cascade quotes an error text that cannot be cut at byte 120. */
  ghost predicate SomeDetailPanics(calls: seq<ToolCall>) {
    exists i: nat, j: nat :: MaximalRun(calls, i, j) && j - i >= 2 && QuotePanics(calls[i])
  }

  /** Two consecutive errors of one tool, the first of which is 119 ASCII characters and then a two-byte one. */
  lemma {:induction false} CascadeThatPanics() returns (calls: seq<ToolCall>)
    ensures |calls| == 2 && calls[0].isError && calls[1].isError && calls[0].toolName == calls[1].toolName
    ensures SomeDetailPanics(calls)
  {
    var text := WideCharacterCuts(MAX_DETAIL, "");
    var input := ToolInput(None, "{}");
    calls := [ToolCall(0, "Bash", input, true, Some(text), 0), ToolCall(1, "Bash", input, true, Some("no"), 0)];
    assert MaximalRun(calls, 0, 2) && QuotePanics(calls[0]);
  }

  /** The search's variables when it stands at call `n`. */
  ghost predicate FoundUpto(calls: seq<ToolCall>, runs: seq<(nat, nat)>, findings: seq<Cascade>, n: nat) {
    n <= |calls| && Boundary(calls, n) && RunsUpto(calls, runs, n) && Reported(calls, runs, findings)
  }

  lemma {:induction false} FoundNothing(calls: seq<ToolCall>, runs: seq<(nat, nat)>, findings: seq<Cascade>, n: nat)
    requires FoundUpto(calls, runs, findings, n) && n < |calls| && !calls[n].isError
    ensures FoundUpto(calls, runs, findings, n + 1)
  {
    SkipCall(calls, runs, n);
  }

  lemma {:induction false} FoundShort(calls: seq<ToolCall>, runs: seq<(nat, nat)>, findings: seq<Cascade>, n: nat, j: nat)
    requires FoundUpto(calls, runs, findings, n) && MaximalRun(calls, n, j) && j - n < 2
    ensures FoundUpto(calls, runs, findings, j)
  {
    AddRun(calls, runs, n, j);
  }

  lemma {:induction false} FoundRun(calls: seq<ToolCall>, runs: seq<(nat, nat)>, findings: seq<Cascade>, n: nat, j: nat)
    requires FoundUpto(calls, runs, findings, n) && MaximalRun(calls, n, j) && j - n >= 2 && DetailOf(calls[n]).Some?
    ensures FoundUpto(calls, runs + [(n, j)], findings + [CascadeOf(calls, n, j)], j)
  {
    AddRun(calls, runs, n, j);
    ReportOne(calls, runs, findings, n, j);
  }

  lemma {:induction false} FoundPanic(calls: seq<ToolCall>, n: nat, j: nat)
    requires MaximalRun(calls, n, j) && j - n >= 2 && DetailOf(calls[n]).None?
    ensures SomeDetailPanics(calls)
  {
    DetailPanicsIff(calls[n]);
  }

  lemma {:induction false} NoPanic(calls: seq<ToolCall>, runs: seq<(nat, nat)>, findings: seq<Cascade>)
    requires RunsUpto(calls, runs, |calls|) && Reported(calls, runs, findings)
    ensures !SomeDetailPanics(calls)
  {
    forall i: nat, j: nat | MaximalRun(calls, i, j) && j - i >= 2 ensures !QuotePanics(calls[i]) {
      DetailPanicsIff(calls[i]);
      assert Listed(runs, i, j);
      var k :| 0 <= k < |runs| && runs[k] == (i, j);
      assert Describes(calls, runs[k], findings[k]);
    }
  }

  /**
   `detect_error_cascades`: exactly the maximal runs of two or more consecutive errors of one
   tool, in order and disjoint. `None` is the panic of slicing inside a character, which
   happens exactly when some such run's first error text is over 120 bytes and byte 120 is
   inside one of its characters.
   */
  method DetectErrorCascades(calls: seq<ToolCall>) returns (r: Option<seq<Cascade>>, ghost runs: seq<(nat, nat)>)
    ensures r.None? <==> SomeDetailPanics(calls)
    ensures r.Some? ==> RunsUpto(calls, runs, |calls|) && Reported(calls, runs, r.value)
  {
    var findings: seq<Cascade> := [];
    runs := [];
    var i := 0;
    while i < |calls|
      invariant FoundUpto(calls, runs, findings, i)
    {
      if !calls[i].isError {
        FoundNothing(calls, runs, findings, i);
        i := i + 1;
        continue;
      }
      var chainLen := ChainLength(calls, i);
      var next := i + chainLen;
      if chainLen < 2 {
        FoundShort(calls, runs, findings, i, next);
        i := next;
        continue;
      }
      var finding := Report(calls, i, chainLen);
      if finding.None? {
        FoundPanic(calls, i, next);
        return None, runs;
      }
      FoundRun(calls, runs, findings, i, next);
      findings := findings + [finding.value];
      runs := runs + [(i, next)];
      i := next;
    }
    NoPanic(calls, runs, findings);
    r := Some(findings);
  }

  lemma {:induction false} ReportOne(calls: seq<ToolCall>, runs: seq<(nat, nat)>, findings: seq<Cascade>, i: nat, j: nat)
    requires Reported(calls, runs, findings) && i < j <= |calls| && DetailOf(calls[i]).Some?
    ensures Reported(calls, runs + [(i, j)], findings + [CascadeOf(calls, i, j)])
  {}

  /** The finding for one cascade. */
  method Report(calls: seq<ToolCall>, i: nat, chainLen: nat) returns (r: Option<Cascade>)
    requires 2 <= chainLen && i + chainLen <= |calls|
    ensures r.None? <==> DetailOf(calls[i]).None?
    ensures r.Some? ==> r.value == CascadeOf(calls, i, i + chainLen)
  {
    var last := calls[i + chainLen - 1];
    var wasted := SaturatingSub(last.tokensAtCall, calls[i].tokensAtCall);
    var severity := if chainLen >= 5 then Critical else if chainLen >= 3 then Warning else Info;
    var detail := DetailOf(calls[i]);
    if detail.None? {
      return None;
    }
    r := Some(Cascade(severity, calls[i].toolName, chainLen, detail.value, wasted, calls[i].messageIdx, last.messageIdx));
  }

  /** The inner loop: how far the errors of the tool called at `i` go. */
  method ChainLength(calls: seq<ToolCall>, i: nat) returns (chainLen: nat)
    requires i < |calls| && calls[i].isError && Boundary(calls, i)
    ensures MaximalRun(calls, i, i + chainLen)
  {
    chainLen := 1;
    while i + chainLen < |calls| && calls[i + chainLen].isError && calls[i + chainLen].toolName == calls[i].toolName
      invariant 1 <= chainLen && i + chainLen <= |calls|
      invariant SameToolErrors(calls, i, i + chainLen)
    {
      chainLen := chainLen + 1;
    }
  }

  function WastedTokens(findings: seq<Cascade>): nat {
    if findings == [] then 0 else WastedTokens(findings[..|findings| - 1]) + findings[|findings| - 1].tokensWasted
  }

  /** On a walked transcript, disjoint cascades cannot waste more than the session used. */
  lemma {:induction false} CascadeWasteBounded(
    calls: seq<ToolCall>, runs: seq<(nat, nat)>, findings: seq<Cascade>, total: nat)
    requires CallMarksOk(calls, total)
    requires RunsUpto(calls, runs, |calls|) && Reported(calls, runs, findings)
    ensures WastedTokens(findings) <= total
  {
    WasteUpto(calls, total, runs, findings, |runs|);
    assert findings[..|runs|] == findings;
    assert MarkBefore(calls, runs, |runs|) <= total;
  }

  lemma {:induction false} WasteUpto(
    calls: seq<ToolCall>, total: nat, runs: seq<(nat, nat)>, findings: seq<Cascade>, n: nat)
    requires CallMarksOk(calls, total)
    requires RunsUpto(calls, runs, |calls|) && Reported(calls, runs, findings) && n <= |runs|
    ensures WastedTokens(findings[..n]) <= MarkBefore(calls, runs, n)
    decreases n
  {
    if n > 0 {
      var m := n - 1;
      WasteUpto(calls, total, runs, findings, m);
      assert findings[..n][..m] == findings[..m];
      assert Describes(calls, runs[m], findings[m]);
      RunSpan(calls, total, runs, m);
    }
  }

  /** The mark of the last call of the n-th run. */
  ghost function MarkBefore(calls: seq<ToolCall>, runs: seq<(nat, nat)>, n: nat): nat
    requires n <= |runs|
  {
    if n == 0 || runs[n - 1].1 == 0 || runs[n - 1].1 > |calls| then 0 else calls[runs[n - 1].1 - 1].tokensAtCall
  }

  /** A run starts no lower than the run before it ended, and ends no lower than it starts. */
  lemma {:induction false} RunSpan(calls: seq<ToolCall>, total: nat, runs: seq<(nat, nat)>, m: nat)
    requires CallMarksOk(calls, total) && RunsUpto(calls, runs, |calls|) && m < |runs|
    ensures runs[m].0 < runs[m].1 <= |calls|
    ensures MarkBefore(calls, runs, m) <= calls[runs[m].0].tokensAtCall <= MarkBefore(calls, runs, m + 1)
  {
    assert RunAt(calls, runs, m, |calls|);
    if m > 0 {
      assert Apart(runs, m - 1, m) && RunAt(calls, runs, m - 1, |calls|);
    }
  }

  // ---------------------------------------------------------------- context bloat

  const WINDOW: nat := 8

  datatype Bloat = Bloat(severity: Severity, tokensWasted: nat, first: nat, last: nat)

  function SumEdits(edits: seq<nat>): nat {
    if edits == [] then 0 else SumEdits(edits[..|edits| - 1]) + edits[|edits| - 1]
  }

  /** The tokens that the window of 8 messages from `i` used. */
  function WindowTokens(curve: seq<nat>, i: nat): nat
    requires i + WINDOW <= |curve|
  {
    SaturatingSub(curve[i + WINDOW - 1], if i == 0 then 0 else curve[i - 1])
  }

  /** A share of the session, in percent. */
  function Percent(tokens: nat, total: nat): real {
    (tokens as real / AtLeastOne(total) as real) * 100.0
  }

  lemma PercentAbove(tokens: nat, total: nat, p: nat)
    ensures Percent(tokens, total) > p as real <==> 100 * tokens > p * AtLeastOne(total)
  {
    var t := AtLeastOne(total) as real;
    var q := tokens as real / t;
    assert q * t == tokens as real;
    if q * 100.0 > p as real {
      assert (q * 100.0 - p as real) * t > 0.0;
    } else {
      assert (p as real - q * 100.0) * t >= 0.0;
    }
    assert (q * 100.0) * t == 100.0 * tokens as real;
  }

  /** More than 15% of the session's tokens in 8 messages without an edit. */
  predicate Bloated(curve: seq<nat>, edits: seq<nat>, total: nat, i: nat)
    requires |edits| == |curve|
  {
    i + WINDOW <= |curve|
    && 100 * WindowTokens(curve, i) > 15 * AtLeastOne(total)
    && SumEdits(edits[i..i + WINDOW]) == 0
  }

  function BloatAt(curve: seq<nat>, total: nat, i: nat): Bloat
    requires i + WINDOW <= |curve|
  {
    var tokens := WindowTokens(curve, i);
    Bloat(if 100 * tokens > 30 * AtLeastOne(total) then Critical else Warning, tokens, i, i + WINDOW - 1)
  }

  /**
   The findings are bloated windows, each starting past the end of the one before it, and every
   bloated window that starts before `n` starts inside a reported one.
   */
  ghost predicate BloatUpto(curve: seq<nat>, edits: seq<nat>, total: nat, findings: seq<Bloat>, n: nat)
    requires |edits| == |curve|
  {
    && (forall k :: 0 <= k < |findings| ==> BloatOk(curve, edits, total, findings[k], n))
    && Disjoint(findings)
    && (forall i :: 0 <= i < n && Bloated(curve, edits, total, i) ==> Covered(findings, i))
  }

  ghost predicate BloatOk(curve: seq<nat>, edits: seq<nat>, total: nat, f: Bloat, n: nat)
    requires |edits| == |curve|
  {
    Bloated(curve, edits, total, f.first) && f == BloatAt(curve, total, f.first) && f.first + WINDOW <= n
  }

  ghost predicate Disjoint(findings: seq<Bloat>) {
    forall k, l :: 0 <= k < l < |findings| ==> findings[k].last < findings[l].first
  }

  ghost predicate Covered(findings: seq<Bloat>, i: nat) {
    exists k :: 0 <= k < |findings| && findings[k].first <= i <= findings[k].last
  }

  lemma {:induction false} CoverGrows(findings: seq<Bloat>, f: Bloat, i: nat)
    requires Covered(findings, i) || f.first <= i <= f.last
    ensures Covered(findings + [f], i)
  {
    var all := findings + [f];
    if Covered(findings, i) {
      var k :| 0 <= k < |findings| && findings[k].first <= i <= findings[k].last;
      assert all[k] == findings[k];
    } else {
      assert all[|findings|] == f;
    }
  }

  lemma {:induction false} BloatSkips(curve: seq<nat>, edits: seq<nat>, total: nat, findings: seq<Bloat>, n: nat)
    requires |edits| == |curve| && BloatUpto(curve, edits, total, findings, n) && !Bloated(curve, edits, total, n)
    ensures BloatUpto(curve, edits, total, findings, n + 1)
  {}

  lemma {:induction false} DisjointAdds(findings: seq<Bloat>, f: Bloat)
    requires Disjoint(findings) && forall k :: 0 <= k < |findings| ==> findings[k].last < f.first
    ensures Disjoint(findings + [f])
  {}

  lemma {:induction false} BloatOkLater(curve: seq<nat>, edits: seq<nat>, total: nat, f: Bloat, n: nat, m: nat)
    requires |edits| == |curve| && BloatOk(curve, edits, total, f, n) && n <= m
    ensures BloatOk(curve, edits, total, f, m) && f.last < n
  {}

  lemma {:induction false} BloatAdds(curve: seq<nat>, edits: seq<nat>, total: nat, findings: seq<Bloat>, n: nat)
    requires |edits| == |curve| && BloatUpto(curve, edits, total, findings, n) && Bloated(curve, edits, total, n)
    ensures BloatUpto(curve, edits, total, findings + [BloatAt(curve, total, n)], n + WINDOW)
  {
    var f := BloatAt(curve, total, n);
    var all, m := findings + [f], n + WINDOW;
    forall k | 0 <= k < |findings| ensures BloatOk(curve, edits, total, findings[k], m) && findings[k].last < f.first {
      BloatOkLater(curve, edits, total, findings[k], n, m);
    }
    DisjointAdds(findings, f);
    forall i | 0 <= i < m && Bloated(curve, edits, total, i) ensures Covered(all, i) {
      CoverGrows(findings, f, i);
    }
  }

  /** `detect_context_bloat`. */
  method DetectContextBloat(curve: seq<nat>, edits: seq<nat>, total: nat) returns (findings: seq<Bloat>)
    requires |edits| == |curve|
    ensures BloatUpto(curve, edits, total, findings, |curve|)
  {
    findings := [];
    if |curve| < WINDOW || |edits| < WINDOW {
      return;
    }
    var i := 0;
    while i + WINDOW <= |curve|
      invariant 0 <= i <= |curve|
      invariant BloatUpto(curve, edits, total, findings, i)
    {
      var tokensStart := if i == 0 then 0 else curve[i - 1];
      var tokensEnd := curve[i + WINDOW - 1];
      var windowTokens := SaturatingSub(tokensEnd, tokensStart);
      var windowPct := Percent(windowTokens, total);
      var editsInWindow := SumEdits(edits[i..i + WINDOW]);
      PercentAbove(windowTokens, total, 15);
      PercentAbove(windowTokens, total, 30);
      if windowPct > 15.0 && editsInWindow == 0 {
        BloatAdds(curve, edits, total, findings, i);
        findings := findings + [Bloat(if windowPct > 30.0 then Critical else Warning, windowTokens, i, i + WINDOW - 1)];
        i := i + WINDOW;
      } else {
        BloatSkips(curve, edits, total, findings, i);
        i := i + 1;
      }
    }
    BloatEnds(curve, edits, total, findings, i);
  }

  lemma {:induction false} BloatEnds(curve: seq<nat>, edits: seq<nat>, total: nat, findings: seq<Bloat>, n: nat)
    requires |edits| == |curve| && BloatUpto(curve, edits, total, findings, n) && n <= |curve| < n + WINDOW
    ensures BloatUpto(curve, edits, total, findings, |curve|)
  {}

  ghost predicate CurveOk(curve: seq<nat>, total: nat) {
    && (forall i, j :: 0 <= i <= j < |curve| ==> curve[i] <= curve[j])
    && (forall i :: 0 <= i < |curve| ==> curve[i] <= total)
  }

  lemma {:induction false} BloatUses(
    curve: seq<nat>, edits: seq<nat>, total: nat, findings: seq<Bloat>, n: nat, share: nat)
    requires |edits| == |curve| && CurveOk(curve, total) && BloatUpto(curve, edits, total, findings, |curve|)
    requires 0 < n <= |findings| && share == 15 * AtLeastOne(total)
    ensures findings[n - 1].last < |curve| && n * share < 100 * curve[findings[n - 1].last]
    decreases n
  {
    var f := findings[n - 1];
    assert BloatOk(curve, edits, total, f, |curve|);
    assert f.last == f.first + WINDOW - 1;
    if n > 1 {
      BloatUses(curve, edits, total, findings, n - 1, share);
      assert findings[n - 2].last < f.first;
      assert curve[findings[n - 2].last] <= curve[f.first - 1];
      OneMore(n - 1, share);
    }
  }

  lemma OneMore(n: nat, share: nat)
    ensures (n + 1) * share == n * share + share
  {}

  lemma MoreTimes(a: nat, b: nat, share: nat)
    requires a <= b
    ensures a * share <= b * share
  {}

  /** However long the session, at most six windows can each hold more than 15% of its tokens. */
  lemma {:induction false} AtMostSixBloats(curve: seq<nat>, edits: seq<nat>, total: nat, findings: seq<Bloat>)
    requires |edits| == |curve| && CurveOk(curve, total) && BloatUpto(curve, edits, total, findings, |curve|)
    ensures |findings| <= 6
  {
    var n, share := |findings|, 15 * AtLeastOne(total);
    if n >= 7 {
      BloatUses(curve, edits, total, findings, n, share);
      MoreTimes(7, n, share);
    }
  }

  /** The walker's curve is one the bound applies to. */
  lemma {:induction false} WalkCurveOk(msgs: seq<Message>, curve: seq<nat>, edits: seq<nat>)
    requires Tracks(msgs, curve, edits)
    ensures CurveOk(curve, TotalTokens(msgs))
  {
    forall i, j | 0 <= i <= j < |curve| ensures curve[i] <= curve[j] <= TotalTokens(msgs) {
      CurveGrows(msgs, curve, edits, i, j);
    }
  }

  lemma {:induction false} CurveGrows(msgs: seq<Message>, curve: seq<nat>, edits: seq<nat>, i: nat, j: nat)
    requires Tracks(msgs, curve, edits) && i <= j < |curve|
    ensures curve[i] <= curve[j] <= TotalTokens(msgs)
  {
    TokensGrow(msgs, i + 1, j + 1);
    TokensGrow(msgs, j + 1, |msgs|);
    assert msgs[..|msgs|] == msgs;
  }
}
