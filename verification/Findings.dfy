/** What the findings and the cost figures say, in terms of the transcript and its calls. */
module Findings {
  import opened Numbers
  import opened Options
  import opened Text
  import opened Walker
  import opened Transcripts
  import opened Detectors
  import opened Costs

  // ---------------------------------------------------------------- cascades

  /** The error is quoted whole up to 120 bytes, and as its first 120 bytes with an ellipsis beyond that. */
  ghost predicate QuotesError(c: ToolCall, detail: string) {
    var text := if c.resultContent == None then "(unknown)" else c.resultContent.value;
    if ByteLen(text) <= 120 then detail == "First error: " + text
    else exists kept :: FirstBytes(text, kept, 120) && detail == "First error: " + kept + "..."
  }

  lemma {:induction false} DetailQuotes(c: ToolCall)
    ensures DetailOf(c).Some? ==> QuotesError(c, DetailOf(c).value)
  {
    var text := if c.resultContent == None then "(unknown)" else c.resultContent.value;
    if ByteLen(text) > 120 && DetailOf(c).Some? {
      assert FirstBytes(text, TruncateAt(text, 120).value, 120);
    }
  }

  /** Critical from five errors on, a warning from three on. */
  predicate GradesLength(severity: Severity, length: nat) {
    match severity
    case Critical => length >= 5
    case Warning => 3 <= length < 5
    case Info => length < 3
  }

  /**
   The finding is about the calls from `i` to `j - 1`: their number, tool, messages, and the tokens
   from the first to the last.
   */
  ghost predicate TellsOf(calls: seq<ToolCall>, i: nat, j: nat, f: Cascade)
    requires i < j <= |calls|
  {
    && f.length == j - i && GradesLength(f.severity, j - i) && f.tool == calls[i].toolName && QuotesError(calls[i], f.detail)
    && f.firstMessage == calls[i].messageIdx && f.lastMessage == calls[j - 1].messageIdx
    && calls[i].tokensAtCall + f.tokensWasted == calls[j - 1].tokensAtCall
  }

  /** On a walked transcript every cascade reported tells of its run. */
  lemma {:induction false} CascadeTells(
    calls: seq<ToolCall>, runs: seq<(nat, nat)>, findings: seq<Cascade>, total: nat, k: nat)
    requires CallMarksOk(calls, total) && RunsUpto(calls, runs, |calls|) && Reported(calls, runs, findings) && k < |findings|
    ensures k < |runs| && runs[k].0 < runs[k].1 <= |calls| && TellsOf(calls, runs[k].0, runs[k].1, findings[k])
  {
    assert RunAt(calls, runs, k, |calls|);
    assert Describes(calls, runs[k], findings[k]);
    DetailQuotes(calls[runs[k].0]);
  }

  // ---------------------------------------------------------------- context bloat

  lemma {:induction false} UsageSumSplits(msgs: seq<Message>, part: Usage -> nat, i: nat)
    requires i <= |msgs|
    ensures UsageSum(msgs, part) == UsageSum(msgs[..i], part) + UsageSum(msgs[i..], part)
    decreases |msgs| - i
  {
    if i == |msgs| {
      assert msgs[..i] == msgs && msgs[i..] == [];
    } else {
      UsageSumSplits(msgs, part, i + 1);
      UsageSumFirst(msgs[i..], part);
      assert msgs[..i + 1][..i] == msgs[..i] && msgs[i..][1..] == msgs[i + 1..];
    }
  }

  lemma {:induction false} UsageSumFirst(msgs: seq<Message>, part: Usage -> nat)
    requires msgs != []
    ensures UsageSum(msgs, part) == UsageSum(msgs[..1], part) + UsageSum(msgs[1..], part)
    decreases |msgs|
  {
    if |msgs| == 1 {
      assert msgs[..1] == msgs && msgs[1..] == [];
    } else {
      var n := |msgs| - 1;
      UsageSumFirst(msgs[..n], part);
      assert msgs[..n][..1] == msgs[..1] && msgs[..n][1..] == msgs[1..][..n - 1] && msgs[1..][n - 1] == msgs[n];
    }
  }

  lemma {:induction false} AllTokensSplit(msgs: seq<Message>, i: nat)
    requires i <= |msgs|
    ensures AllTokens(msgs) == AllTokens(msgs[..i]) + AllTokens(msgs[i..])
  {
    UsageSumSplits(msgs, InputOf, i);
    UsageSumSplits(msgs, CacheReadOf, i);
    UsageSumSplits(msgs, CacheCreationOf, i);
    UsageSumSplits(msgs, OutputOf, i);
  }

  /** What a window of the walked curve spans is what its 8 messages report, no more and no less. */
  lemma {:induction false} WindowIs(msgs: seq<Message>, curve: seq<nat>, edits: seq<nat>, i: nat)
    requires Tracks(msgs, curve, edits) && i + 8 <= |msgs|
    ensures WindowTokens(curve, i) == AllTokens(msgs[i..i + 8])
  {
    CurveIsSums(msgs, curve, edits);
    var upto := msgs[..i + 8];
    AllTokensSplit(upto, i);
    assert upto[..i] == msgs[..i] && upto[i..] == msgs[i..i + 8];
  }

  lemma {:induction false} NoEditsIff(edits: seq<nat>)
    ensures SumEdits(edits) == 0 <==> forall k :: 0 <= k < |edits| ==> edits[k] == 0
    decreases |edits|
  {
    if edits != [] {
      NoEditsIff(edits[..|edits| - 1]);
      assert forall k :: 0 <= k < |edits| - 1 ==> edits[..|edits| - 1][k] == edits[k];
    }
  }

  /** Eight messages from `i` on that report more than 15% of all tokens and use no editing tool. */
  ghost predicate Spins(msgs: seq<Message>, i: nat) {
    && i + 8 <= |msgs| && 100 * AllTokens(msgs[i..i + 8]) > 15 * AtLeastOne(AllTokens(msgs))
    && forall k :: i <= k < i + 8 ==> EditPlaces(msgs[k].content) == {}
  }

  lemma {:induction false} BloatedIff(msgs: seq<Message>, curve: seq<nat>, edits: seq<nat>, i: nat)
    requires Tracks(msgs, curve, edits)
    ensures Bloated(curve, edits, AllTokens(msgs), i) <==> Spins(msgs, i)
  {
    if i + 8 <= |msgs| {
      WindowIs(msgs, curve, edits, i);
      var window := edits[i..i + 8];
      NoEditsIff(window);
      forall k | i <= k < i + 8 ensures window[k - i] == |EditPlaces(msgs[k].content)| {
        EditCountIs(msgs[k].content);
      }
      assert forall k :: 0 <= k < 8 ==> window[k] == |EditPlaces(msgs[i + k].content)|;
    }
  }

  /** The finding is about the 8 messages from `first` on: how many tokens they report, critical above 30% of all. */
  ghost predicate TellsOfWindow(msgs: seq<Message>, f: Bloat) {
    && Spins(msgs, f.first) && f.last == f.first + 7 && f.tokensWasted == AllTokens(msgs[f.first..f.first + 8])
    && f.severity == if 100 * f.tokensWasted > 30 * AtLeastOne(AllTokens(msgs)) then Critical else Warning
  }

  /**
   Of a walked transcript every finding tells of a window that spins, and every such window starts
   inside a reported one.
   */
  lemma {:induction false} BloatTells(msgs: seq<Message>, curve: seq<nat>, edits: seq<nat>, findings: seq<Bloat>)
    requires Tracks(msgs, curve, edits) && BloatUpto(curve, edits, AllTokens(msgs), findings, |curve|)
    ensures forall k :: 0 <= k < |findings| ==> TellsOfWindow(msgs, findings[k])
    ensures forall i :: 0 <= i && Spins(msgs, i) ==> Covered(findings, i)
  {
    forall k | 0 <= k < |findings| ensures TellsOfWindow(msgs, findings[k]) {
      assert BloatOk(curve, edits, AllTokens(msgs), findings[k], |curve|);
      BloatedIff(msgs, curve, edits, findings[k].first);
      WindowIs(msgs, curve, edits, findings[k].first);
    }
    forall i | 0 <= i && Spins(msgs, i) ensures Covered(findings, i) {
      BloatedIff(msgs, curve, edits, i);
    }
  }

  // ---------------------------------------------------------------- costs

  /** From the call's mark to that of the next call, or to the end of the session. */
  function TokensAfter(calls: seq<ToolCall>, total: nat, i: nat): int
    requires i < |calls|
  {
    if i + 1 == |calls| then total - calls[i].tokensAtCall else calls[i + 1].tokensAtCall - calls[i].tokensAtCall
  }

  lemma {:induction false} SpansAre(calls: seq<ToolCall>, total: nat, erred: bool, n: nat)
    requires CallMarksOk(calls, total) && n <= |calls|
    ensures (forall i :: 0 <= i < n ==> calls[i].isError == erred) ==>
      SpansUpto(calls, total, erred, n)
        == if n == 0 then 0 else (if n < |calls| then calls[n].tokensAtCall else total) - calls[0].tokensAtCall
    ensures (forall i :: 0 <= i < n ==> calls[i].isError != erred) ==> SpansUpto(calls, total, erred, n) == 0
    decreases n
  {
    if n > 0 {
      SpansAre(calls, total, erred, n - 1);
      assert n < |calls| ==> calls[n - 1].tokensAtCall <= calls[n].tokensAtCall;
    }
  }

  /** If one call's error flag is turned over, exactly the tokens after it go over from one sum to the other. */
  lemma {:induction false} FlipMoves(calls: seq<ToolCall>, total: nat, erred: bool, i: nat, n: nat)
    requires CallMarksOk(calls, total) && i < |calls| && n <= |calls| && calls[i].isError != erred
    ensures var flipped := calls[i := calls[i].(isError := erred)];
      SpansUpto(flipped, total, erred, n)
        == SpansUpto(calls, total, erred, n) + if i < n then TokensAfter(calls, total, i) else 0
    decreases n
  {
    if n > 0 {
      FlipMoves(calls, total, erred, i, n - 1);
      var flipped := calls[i := calls[i].(isError := erred)];
      assert SpanAfter(flipped, total, n - 1) == SpanAfter(calls, total, n - 1);
      assert i + 1 < |calls| ==> calls[i].tokensAtCall <= calls[i + 1].tokensAtCall;
    }
  }

  lemma PercentTimes(tokens: nat, total: nat)
    ensures Percent(tokens, total) * AtLeastOne(total) as real == 100.0 * tokens as real
  {
    var t := AtLeastOne(total) as real;
    var q := tokens as real / t;
    assert q * t == tokens as real;
    assert (q * 100.0) * t == 100.0 * (q * t);
  }

  /** The efficiency is the productive share of all tokens in percent, at least one token being taken for granted. */
  lemma {:induction false} EfficiencyIs(calls: seq<ToolCall>, total: nat)
    requires CallMarksOk(calls, total)
    ensures var productive := SpansUpto(calls, total, false, |calls|);
      Clamp(Percent(productive, total)) * AtLeastOne(total) as real == 100.0 * productive as real
  {
    CostConserves(calls, total);
    PercentTimes(SpansUpto(calls, total, false, |calls|), total);
  }

  /**
   A file's churn costs a quarter of the tokens between its first and its last edit, from the fourth
   edit on, rounded down.
   */
  lemma {:induction false} UndoCostIs(uses: seq<Use>, messages: nat, total: nat, editHistory: History, file: string)
    requires MarksOk(uses, messages, total) && IsHistory(editHistory, uses, Edits)
    ensures var marks := MarksOf(uses, Edits, file);
      if |marks| < 4 then UndoCost(editHistory)(file) == 0
      else 4 * UndoCost(editHistory)(file) <= marks[|marks| - 1].1 - marks[0].1 < 4 * (UndoCost(editHistory)(file) + 1)
  {
    assert Holds(editHistory, uses, Edits, file);
    FileMarksInOrder(uses, messages, total, Edits, file);
  }

  /** The places of the uses that read a file which a use before them read, and which is never edited. */
  function RereadPlaces(uses: seq<Use>, editHistory: History): set<nat> {
    set k: nat | k < |uses| && Rereads(uses, editHistory, k)
  }

  predicate Rereads(uses: seq<Use>, editHistory: History, k: nat)
    requires k < |uses|
  {
    && uses[k].input.filePath.Some? && uses[k].input.filePath.value !in editHistory
    && OnFile(Reads, uses[k].input.filePath.value, uses[k])
    && exists j :: 0 <= j < k && OnFile(Reads, uses[k].input.filePath.value, uses[j])
  }

  lemma {:induction false} ReadBeforeIff(uses: seq<Use>, file: string)
    ensures MarksOf(uses, Reads, file) != [] <==> exists j :: 0 <= j < |uses| && OnFile(Reads, file, uses[j])
  {
    var places := MarksPicked(uses, Reads, file);
    if places != [] {
      assert places[0] in places;
    }
  }

  lemma {:induction false} RereadsEarlier(uses: seq<Use>, editHistory: History, n: nat, k: nat)
    requires k < n <= |uses|
    ensures Rereads(uses[..n], editHistory, k) <==> Rereads(uses, editHistory, k)
  {
    assert forall j :: 0 <= j < n ==> uses[..n][j] == uses[j];
  }

  lemma {:induction false} RereadsLast(uses: seq<Use>, editHistory: History, n: nat)
    requires n < |uses|
    ensures Redundant(uses[..n], editHistory, uses[n]) <==> Rereads(uses, editHistory, n)
  {
    if uses[n].input.filePath.Some? {
      ReadBeforeIff(uses[..n], uses[n].input.filePath.value);
      assert forall j :: 0 <= j < n ==> uses[..n][j] == uses[j];
    }
  }

  lemma {:induction false} MoreRereads(uses: seq<Use>, editHistory: History, n: nat)
    requires |uses| == n + 1
    ensures RereadPlaces(uses, editHistory)
         == RereadPlaces(uses[..n], editHistory) + if Rereads(uses, editHistory, n) then {n} else {}
  {
    forall k: nat | k < n ensures Rereads(uses[..n], editHistory, k) <==> Rereads(uses, editHistory, k) {
      RereadsEarlier(uses, editHistory, n, k);
    }
  }

  lemma {:induction false} RedundantAreRereads(uses: seq<Use>, editHistory: History)
    ensures RedundantReads(uses, editHistory) == |RereadPlaces(uses, editHistory)|
    decreases |uses|
  {
    if uses != [] {
      var n := |uses| - 1;
      RedundantAreRereads(uses[..n], editHistory);
      RereadsLast(uses, editHistory, n);
      MoreRereads(uses, editHistory, n);
    }
  }

  /** Wasted reads are 500 tokens for each of them. */
  lemma {:induction false} RereadsCost(uses: seq<Use>, readHistory: History, editHistory: History)
    requires IsHistory(readHistory, uses, Reads)
    ensures SumOf(readHistory.Keys, ReadCost(readHistory, editHistory)) == 500 * |RereadPlaces(uses, editHistory)|
  {
    ReadWasteCounts(uses, readHistory, editHistory);
    RedundantAreRereads(uses, editHistory);
  }
}
