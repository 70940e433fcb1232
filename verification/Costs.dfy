/** The cost breakdown of a session (src/brain/autopsy.rs:523-586). */
module Costs {
  import opened Numbers
  import opened Walker
  import opened Detectors

  datatype Cost = Cost(
    totalTokens: nat, productive: nat, wastedRetry: nat, wastedRead: nat, wastedUndo: nat, efficiencyPct: real)

  function Clamp(x: real): real {
    if x < 0.0 then 0.0 else if x > 100.0 then 100.0 else x
  }

  // ---------------------------------------------------------------- productive and retry tokens

  /** The tokens between a call and the next one, or the end of the session. */
  function SpanAfter(calls: seq<ToolCall>, total: nat, i: nat): nat
    requires i < |calls|
  {
    SaturatingSub(if i + 1 < |calls| then calls[i + 1].tokensAtCall else total, calls[i].tokensAtCall)
  }

  /** The spans after the first `n` calls, for the erring ones or for the others. */
  function SpansUpto(calls: seq<ToolCall>, total: nat, erring: bool, n: nat): nat
    requires n <= |calls|
  {
    if n == 0 then 0
    else SpansUpto(calls, total, erring, n - 1) + if calls[n - 1].isError == erring then SpanAfter(calls, total, n - 1) else 0
  }

  /** `compute_cost_breakdown`. */
  method ComputeCostBreakdown(calls: seq<ToolCall>, readHistory: History, editHistory: History, total: nat) returns (c: Cost)
    ensures c.totalTokens == total
    ensures c.productive == SpansUpto(calls, total, false, |calls|)
    ensures c.wastedRetry == SpansUpto(calls, total, true, |calls|)
    ensures c.wastedRead == SumOf(readHistory.Keys, ReadCost(readHistory, editHistory))
    ensures c.wastedUndo == SumOf(editHistory.Keys, UndoCost(editHistory))
    ensures c.efficiencyPct == Clamp(Percent(c.productive, total))
  {
    var productive, wastedRetry := 0, 0;
    var i := 0;
    while i < |calls|
      invariant 0 <= i <= |calls|
      invariant productive == SpansUpto(calls, total, false, i)
      invariant wastedRetry == SpansUpto(calls, total, true, i)
    {
      var nextTokens := if i + 1 < |calls| then calls[i + 1].tokensAtCall else total;
      var callTokens := SaturatingSub(nextTokens, calls[i].tokensAtCall);
      if calls[i].isError {
        wastedRetry := wastedRetry + callTokens;
      } else {
        productive := productive + callTokens;
      }
      i := i + 1;
    }
    var wastedRead := WastedReads(readHistory, editHistory);
    var wastedUndo := WastedUndo(editHistory);
    c := Cost(total, productive, wastedRetry, wastedRead, wastedUndo, Clamp(Percent(productive, total)));
  }

  lemma {:induction false} SpansTelescope(calls: seq<ToolCall>, total: nat, n: nat)
    requires CallMarksOk(calls, total) && 0 < n <= |calls|
    ensures SpansUpto(calls, total, false, n) + SpansUpto(calls, total, true, n)
         == (if n < |calls| then calls[n].tokensAtCall else total) - calls[0].tokensAtCall
    decreases n
  {
    if n > 1 {
      SpansTelescope(calls, total, n - 1);
    }
    assert n < |calls| ==> calls[n - 1].tokensAtCall <= calls[n].tokensAtCall;
  }

  /**
   Every token from the first call on is counted once, as productive or as retry waste; no
   subtraction saturates, and the clamp on the efficiency changes nothing.
   */
  lemma {:induction false} CostConserves(calls: seq<ToolCall>, total: nat)
    requires CallMarksOk(calls, total)
    ensures var productive, wasted := SpansUpto(calls, total, false, |calls|), SpansUpto(calls, total, true, |calls|);
      && productive + wasted == (if calls == [] then 0 else total - calls[0].tokensAtCall)
      && Clamp(Percent(productive, total)) == Percent(productive, total)
    ensures forall i :: 0 <= i < |calls| ==>
      SpanAfter(calls, total, i)
        == (if i + 1 < |calls| then calls[i + 1].tokensAtCall else total) - calls[i].tokensAtCall
  {
    if calls != [] {
      SpansTelescope(calls, total, |calls|);
    }
    var productive := SpansUpto(calls, total, false, |calls|);
    PercentAbove(productive, total, 100);
    PercentNotNegative(productive, total);
  }

  lemma PercentNotNegative(tokens: nat, total: nat)
    ensures Percent(tokens, total) >= 0.0
  {
    NonNegativeQuotient(tokens as real, AtLeastOne(total) as real);
  }

  lemma NonNegativeQuotient(x: real, t: real)
    requires x >= 0.0 && t > 0.0
    ensures x / t >= 0.0
  {}

  // ---------------------------------------------------------------- sums over files

  /** The sum of a cost over the files, in whatever order they are visited. */
  ghost function SumOf(files: set<string>, cost: string -> nat): nat {
    if files == {} then 0
    else
      var file :| file in files;
      cost(file) + SumOf(files - {file}, cost)
  }

  /** So any file may be taken out first. */
  lemma {:induction false} SumRemove(files: set<string>, cost: string -> nat, file: string)
    requires file in files
    ensures SumOf(files, cost) == cost(file) + SumOf(files - {file}, cost)
    decreases |files|
  {
    var first :| first in files && SumOf(files, cost) == cost(first) + SumOf(files - {first}, cost);
    if first != file {
      SumRemove(files - {first}, cost, file);
      SumRemove(files - {file}, cost, first);
      assert files - {first} - {file} == files - {file} - {first};
    }
  }

  lemma {:induction false} SumAgrees(files: set<string>, cost: string -> nat, cost': string -> nat)
    requires forall file :: file in files ==> cost(file) == cost'(file)
    ensures SumOf(files, cost) == SumOf(files, cost')
    decreases |files|
  {
    if files != {} {
      var file :| file in files;
      SumRemove(files, cost, file);
      SumRemove(files, cost', file);
      SumAgrees(files - {file}, cost, cost');
    }
  }

  lemma {:induction false} SumBounded(files: set<string>, cost: string -> nat, bound: nat)
    requires forall file :: file in files ==> cost(file) <= bound
    ensures SumOf(files, cost) <= |files| * bound
    decreases |files|
  {
    if files != {} {
      var file :| file in files;
      SumRemove(files, cost, file);
      SumBounded(files - {file}, cost, bound);
      assert |files - {file}| == |files| - 1;
      OneMoreTime(|files|, bound);
    }
  }

  lemma OneMoreTime(n: nat, bound: nat)
    requires n > 0
    ensures n * bound == (n - 1) * bound + bound
  {}

  // ---------------------------------------------------------------- wasted reads

  const READ_COST: nat := 500

  /** Every read of a file after the first one is waste, unless the file is edited at some time. */
  function ReadWaste(readHistory: History, editHistory: History, file: string): nat {
    if file in readHistory && file !in editHistory && |readHistory[file]| >= 2 then READ_COST * (|readHistory[file]| - 1) else 0
  }

  ghost function ReadCost(readHistory: History, editHistory: History): string -> nat {
    file => ReadWaste(readHistory, editHistory, file)
  }

  /** The loop over the read history. */
  method WastedReads(readHistory: History, editHistory: History) returns (wasted: nat)
    ensures wasted == SumOf(readHistory.Keys, ReadCost(readHistory, editHistory))
  {
    wasted := 0;
    var rest := readHistory.Keys;
    while rest != {}
      invariant rest <= readHistory.Keys
      invariant wasted + SumOf(rest, ReadCost(readHistory, editHistory)) == SumOf(readHistory.Keys, ReadCost(readHistory, editHistory))
      decreases rest
    {
      var file :| file in rest;
      SumRemove(rest, ReadCost(readHistory, editHistory), file);
      rest := rest - {file};
      if file !in editHistory && |readHistory[file]| >= 2 {
        var extra := RereadCost(readHistory[file]);
        wasted := wasted + extra;
      }
    }
  }

  /** The inner loop: the same cost for each read but the first. */
  method RereadCost(marks: seq<(nat, nat)>) returns (cost: nat)
    requires marks != []
    ensures cost == READ_COST * (|marks| - 1)
  {
    cost := 0;
    var j := 1;
    while j < |marks|
      invariant 1 <= j <= |marks| && cost == READ_COST * (j - 1)
    {
      cost := cost + READ_COST;
      j := j + 1;
    }
  }

  /** The reads of a file that had been read before and is not among the edited ones. */
  function RedundantReads(uses: seq<Use>, editHistory: History): nat {
    if uses == [] then 0
    else
      var init, u := uses[..|uses| - 1], uses[|uses| - 1];
      RedundantReads(init, editHistory) + if Redundant(init, editHistory, u) then 1 else 0
  }

  predicate Redundant(before: seq<Use>, editHistory: History, u: Use) {
    && Does(u.name, Reads) && u.input.filePath.Some?
    && u.input.filePath.value !in editHistory && MarksOf(before, Reads, u.input.filePath.value) != []
  }

  /** The history of some uses. */
  function HistoryOf(uses: seq<Use>, access: Access): History {
    if uses == [] then map[] else Recorded(HistoryOf(uses[..|uses| - 1], access), access, uses[|uses| - 1])
  }

  lemma {:induction false} HistoryOfIsHistory(uses: seq<Use>, access: Access)
    ensures IsHistory(HistoryOf(uses, access), uses, access)
  {
    if uses == [] {
      forall file ensures Holds(map[], [], access, file) {}
    } else {
      var init := uses[..|uses| - 1];
      HistoryOfIsHistory(init, access);
      RecordKeeps(HistoryOf(init, access), init, access, uses[|uses| - 1]);
      assert init + [uses[|uses| - 1]] == uses;
    }
  }

  lemma {:induction false} HistoryUnique(h: History, uses: seq<Use>, access: Access)
    requires IsHistory(h, uses, access)
    ensures h == HistoryOf(uses, access)
  {
    HistoryOfIsHistory(uses, access);
    var g := HistoryOf(uses, access);
    forall file ensures file in h <==> file in g {
      assert Holds(h, uses, access, file) && Holds(g, uses, access, file);
    }
    forall file | file in h ensures h[file] == g[file] {
      assert Holds(h, uses, access, file) && Holds(g, uses, access, file);
    }
  }

  /** One more read of a file costs once more if the file was read before and never edited. */
  lemma {:induction false} OneMoreRead(readHistory: History, editHistory: History, u: Use)
    requires forall file :: file in readHistory ==> readHistory[file] != []
    ensures var more := Recorded(readHistory, Reads, u);
      SumOf(more.Keys, ReadCost(more, editHistory)) == SumOf(readHistory.Keys, ReadCost(readHistory, editHistory))
        + if Does(u.name, Reads) && u.input.filePath.Some? && u.input.filePath.value !in editHistory && u.input.filePath.value in readHistory
          then READ_COST else 0
  {
    if Does(u.name, Reads) && u.input.filePath.Some? {
      var file, more := u.input.filePath.value, Recorded(readHistory, Reads, u);
      var others := readHistory.Keys - {file};
      assert more.Keys - {file} == others;
      SumRemove(more.Keys, ReadCost(more, editHistory), file);
      SumAgrees(others, ReadCost(more, editHistory), ReadCost(readHistory, editHistory));
      if file in readHistory {
        SumRemove(readHistory.Keys, ReadCost(readHistory, editHistory), file);
      } else {
        assert others == readHistory.Keys;
      }
    }
  }

  /** The wasted reads are 500 tokens for each redundant read of the transcript, however the files are visited. */
  lemma {:induction false} ReadWasteCounts(uses: seq<Use>, readHistory: History, editHistory: History)
    requires IsHistory(readHistory, uses, Reads)
    ensures SumOf(readHistory.Keys, ReadCost(readHistory, editHistory)) == READ_COST * RedundantReads(uses, editHistory)
    decreases |uses|
  {
    HistoryUnique(readHistory, uses, Reads);
    if uses != [] {
      var init, u := uses[..|uses| - 1], uses[|uses| - 1];
      var before := HistoryOf(init, Reads);
      HistoryOfIsHistory(init, Reads);
      ReadWasteCounts(init, before, editHistory);
      forall file ensures file in before <==> MarksOf(init, Reads, file) != []
        ensures file in before ==> before[file] != []
      {
        assert Holds(before, init, Reads, file);
      }
      OneMoreRead(before, editHistory, u);
    }
  }

  // ---------------------------------------------------------------- wasted undo

  const CHURN: nat := 4

  /** A quarter of the span between the first and the last edit of a file edited four times or more. */
  function UndoWaste(editHistory: History, file: string): nat {
    if file in editHistory && |editHistory[file]| >= CHURN then
      SaturatingSub(editHistory[file][|editHistory[file]| - 1].1, editHistory[file][0].1) / 4
    else 0
  }

  ghost function UndoCost(editHistory: History): string -> nat {
    file => UndoWaste(editHistory, file)
  }

  /** The loop over the edit history. */
  method WastedUndo(editHistory: History) returns (wasted: nat)
    ensures wasted == SumOf(editHistory.Keys, UndoCost(editHistory))
  {
    wasted := 0;
    var rest := editHistory.Keys;
    while rest != {}
      invariant rest <= editHistory.Keys
      invariant wasted + SumOf(rest, UndoCost(editHistory)) == SumOf(editHistory.Keys, UndoCost(editHistory))
      decreases rest
    {
      var file :| file in rest;
      SumRemove(rest, UndoCost(editHistory), file);
      rest := rest - {file};
      var marks := editHistory[file];
      if |marks| >= CHURN {
        var span := SaturatingSub(marks[|marks| - 1].1, marks[0].1);
        wasted := wasted + span / 4;
      }
    }
  }

  /** The token marks do not decrease, nor pass the bound. */
  ghost predicate MarksUpto(marks: seq<(nat, nat)>, bound: nat) {
    && (forall k, l :: 0 <= k <= l < |marks| ==> marks[k].1 <= marks[l].1)
    && (forall k :: 0 <= k < |marks| ==> marks[k].1 <= bound)
  }

  lemma {:induction false} MarksAppend(marks: seq<(nat, nat)>, bound: nat, mark: (nat, nat))
    requires MarksUpto(marks, bound) && bound <= mark.1
    ensures MarksUpto(marks + [mark], mark.1)
  {}

  lemma {:induction false} FileMarksInOrder(uses: seq<Use>, messages: nat, total: nat, access: Access, file: string)
    requires MarksOk(uses, messages, total)
    ensures MarksUpto(MarksOf(uses, access, file), if uses == [] then 0 else uses[|uses| - 1].tokens)
    decreases |uses|
  {
    if uses != [] {
      var init, u := uses[..|uses| - 1], uses[|uses| - 1];
      assert forall i :: 0 <= i < |init| ==> init[i] == uses[i];
      FileMarksInOrder(init, messages, total, access, file);
      var bound := if init == [] then 0 else init[|init| - 1].tokens;
      assert bound <= u.tokens;
      if Accesses(u, access, file) {
        MarksAppend(MarksOf(init, access, file), bound, (u.messageIdx, u.tokens));
      }
    }
  }

  /** On a walked transcript no span saturates, and each churned file accounts for at most a quarter of the session. */
  lemma {:induction false} UndoWasteBounded(uses: seq<Use>, messages: nat, total: nat, editHistory: History)
    requires MarksOk(uses, messages, total) && IsHistory(editHistory, uses, Edits)
    ensures forall file :: file in editHistory && |editHistory[file]| >= CHURN ==>
      editHistory[file][0].1 <= editHistory[file][|editHistory[file]| - 1].1 <= total
    ensures SumOf(editHistory.Keys, UndoCost(editHistory)) <= |editHistory.Keys| * (total / 4)
  {
    forall file | file in editHistory
      ensures |editHistory[file]| >= CHURN ==> editHistory[file][0].1 <= editHistory[file][|editHistory[file]| - 1].1 <= total
      ensures UndoWaste(editHistory, file) <= total / 4
    {
      assert Holds(editHistory, uses, Edits, file);
      FileMarksInOrder(uses, messages, total, Edits, file);
      var marks := MarksOf(uses, Edits, file);
      assert marks != [] ==> uses != [] && marks[0].1 <= marks[|marks| - 1].1;
    }
    SumBounded(editHistory.Keys, UndoCost(editHistory), total / 4);
  }
}
