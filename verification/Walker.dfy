/** The transcript walker, which pairs tool calls with their results (src/brain/autopsy.rs:134-266). */
module Walker {
  import opened Options

  /** A tool's JSON input: its `file_path`, if it has one that is a string, and the whole text. */
  datatype ToolInput = ToolInput(filePath: Option<string>, json: string)

  datatype Block =
    | ToolUse(name: string, input: ToolInput)
    | ToolResult(isError: bool, content: string)
    | Text

  datatype Usage = Usage(input: nat, cacheRead: nat, cacheCreation: nat, output: nat)

  datatype Message = Message(usage: Option<Usage>, model: Option<string>, content: seq<Block>)

  /** A transcript line as parsed: blank or unparseable, a waiting event, or a message. */
  datatype Line = Ignored | WaitingForTask | Parsed(message: Message)

  datatype ToolCall = ToolCall(
    messageIdx: nat, toolName: string, input: ToolInput, isError: bool, resultContent: Option<string>, tokensAtCall: nat)

  datatype Walk = Walk(
    toolCalls: seq<ToolCall>,
    messageCount: nat,
    readHistory: History,
    editHistory: History,
    tokenCurve: seq<nat>,
    editsPerMessage: seq<nat>,
    totalTokens: nat,
    model: string)

  /** Message index and token mark of each use of a file, by file. */
  type History = map<string, seq<(nat, nat)>>

  // ---------------------------------------------------------------- what the transcript says

  function Messages(lines: seq<Line>): seq<Message> {
    if lines == [] then []
    else
      var last := lines[|lines| - 1];
      Messages(lines[..|lines| - 1]) + if last.Parsed? then [last.message] else []
  }

  function TokensOf(m: Message): nat {
    if m.usage.None? then 0
    else m.usage.value.input + m.usage.value.cacheRead + m.usage.value.cacheCreation + m.usage.value.output
  }

  /** The tokens used by a run of messages. */
  function TotalTokens(msgs: seq<Message>): nat {
    if msgs == [] then 0 else TotalTokens(msgs[..|msgs| - 1]) + TokensOf(msgs[|msgs| - 1])
  }

  /** One part of the usage, summed over the messages that report any. */
  function UsageSum(msgs: seq<Message>, part: Usage -> nat): nat {
    if msgs == [] then 0
    else
      var last := msgs[|msgs| - 1];
      UsageSum(msgs[..|msgs| - 1], part) + if last.usage.Some? then part(last.usage.value) else 0
  }

  function InputOf(u: Usage): nat { u.input }

  function CacheReadOf(u: Usage): nat { u.cacheRead }

  function CacheCreationOf(u: Usage): nat { u.cacheCreation }

  function OutputOf(u: Usage): nat { u.output }

  /** All input, cache reads, cache creations and output that the messages report. */
  function AllTokens(msgs: seq<Message>): nat {
    UsageSum(msgs, InputOf) + UsageSum(msgs, CacheReadOf) + UsageSum(msgs, CacheCreationOf) + UsageSum(msgs, OutputOf)
  }

  lemma {:induction false} TotalIsSum(msgs: seq<Message>)
    ensures TotalTokens(msgs) == AllTokens(msgs)
    decreases |msgs|
  {
    if msgs != [] {
      TotalIsSum(msgs[..|msgs| - 1]);
    }
  }

  function LastModel(msgs: seq<Message>): string {
    if msgs == [] then ""
    else if msgs[|msgs| - 1].model.Some? then msgs[|msgs| - 1].model.value
    else LastModel(msgs[..|msgs| - 1])
  }

  datatype Access = Reads | Edits

  predicate Does(tool: string, access: Access) {
    match access
    case Reads => tool == "Read" || tool == "Grep" || tool == "Glob"
    case Edits => tool == "Edit" || tool == "Write" || tool == "NotebookEdit"
  }

  predicate IsEdit(b: Block) {
    b.ToolUse? && Does(b.name, Edits)
  }

  function EditCount(blocks: seq<Block>): nat {
    if blocks == [] then 0
    else EditCount(blocks[..|blocks| - 1]) + if IsEdit(blocks[|blocks| - 1]) then 1 else 0
  }

  /** A tool use with the message it came in and the tokens used up to and including that message. */
  datatype Use = Use(name: string, input: ToolInput, messageIdx: nat, tokens: nat)

  datatype Answer = Answer(isError: bool, content: string)

  /** The transcript as one stream of tool uses and results. */
  datatype Item = Asked(use: Use) | Answered(answer: Answer)

  function ItemsOf(blocks: seq<Block>, messageIdx: nat, tokens: nat): seq<Item> {
    if blocks == [] then []
    else
      var b := blocks[|blocks| - 1];
      ItemsOf(blocks[..|blocks| - 1], messageIdx, tokens)
      + match b
        case ToolUse(name, input) => [Asked(Use(name, input, messageIdx, tokens))]
        case ToolResult(isError, content) => [Answered(Answer(isError, content))]
        case Text => []
  }

  function Stream(msgs: seq<Message>): seq<Item> {
    if msgs == [] then []
    else
      var n := |msgs| - 1;
      Stream(msgs[..n]) + ItemsOf(msgs[n].content, n, TotalTokens(msgs))
  }

  /** The tool uses, in order. */
  function Uses(s: seq<Item>): seq<Use> {
    if s == [] then []
    else
      var last := s[|s| - 1];
      Uses(s[..|s| - 1]) + if last.Asked? then [last.use] else []
  }

  /** The results that answer something: those that arrive while a use is still unanswered. */
  function Answers(s: seq<Item>): seq<Answer> {
    if s == [] then []
    else
      var init, last := s[..|s| - 1], s[|s| - 1];
      Answers(init) + if last.Answered? && |Answers(init)| < |Uses(init)| then [last.answer] else []
  }

  /** The k-th use paired with the k-th answer, or with none. */
  function CallAt(uses: seq<Use>, answers: seq<Answer>, k: nat): ToolCall
    requires k < |uses|
  {
    var u := uses[k];
    if k < |answers| then
      ToolCall(u.messageIdx, u.name, u.input, answers[k].isError, Some(answers[k].content), u.tokens)
    else
      ToolCall(u.messageIdx, u.name, u.input, false, None, u.tokens)
  }

  function CallsOf(uses: seq<Use>, answers: seq<Answer>): (calls: seq<ToolCall>)
    ensures |calls| == |uses|
  {
    seq(|uses|, k requires 0 <= k < |uses| => CallAt(uses, answers, k))
  }

  /** The use accesses the file in the given way. */
  predicate Accesses(u: Use, access: Access, file: string) {
    Does(u.name, access) && u.input.filePath == Some(file)
  }

  /** The marks of the uses that access the file, in order. */
  function MarksOf(uses: seq<Use>, access: Access, file: string): seq<(nat, nat)> {
    if uses == [] then []
    else
      var u := uses[|uses| - 1];
      MarksOf(uses[..|uses| - 1], access, file) + if Accesses(u, access, file) then [(u.messageIdx, u.tokens)] else []
  }

  function Recorded(h: History, access: Access, u: Use): History {
    if Does(u.name, access) && u.input.filePath.Some? then
      var file := u.input.filePath.value;
      h[file := (if file in h then h[file] else []) + [(u.messageIdx, u.tokens)]]
    else h
  }

  /** A history holds exactly the marks of the files accessed, each file's in order. */
  ghost predicate IsHistory(h: History, uses: seq<Use>, access: Access) {
    forall file :: Holds(h, uses, access, file)
  }

  ghost predicate Holds(h: History, uses: seq<Use>, access: Access, file: string) {
    (file in h <==> MarksOf(uses, access, file) != []) && (file in h ==> h[file] == MarksOf(uses, access, file))
  }

  lemma {:induction false} RecordKeeps(h: History, uses: seq<Use>, access: Access, u: Use)
    requires IsHistory(h, uses, access)
    ensures IsHistory(Recorded(h, access, u), uses + [u], access)
  {
    var all := uses + [u];
    assert all[..|uses|] == uses;
    forall file ensures Holds(Recorded(h, access, u), all, access, file) {
      assert Holds(h, uses, access, file);
    }
  }

  lemma {:induction false} AnswersFewer(s: seq<Item>)
    ensures |Answers(s)| <= |Uses(s)|
  {
    if s != [] {
      AnswersFewer(s[..|s| - 1]);
    }
  }

  /** All results, answering something or not. */
  function Results(s: seq<Item>): seq<Answer> {
    if s == [] then []
    else
      var last := s[|s| - 1];
      Results(s[..|s| - 1]) + if last.Answered? then [last.answer] else []
  }

  /** No part of the stream, from its start, holds more results than uses. */
  ghost predicate NoOrphans(s: seq<Item>) {
    forall n :: 0 <= n <= |s| ==> |Results(s[..n])| <= |Uses(s[..n])|
  }

  /** The walk drops no result exactly when every one arrives while a use is unanswered. */
  lemma {:induction false} NothingDroppedIff(s: seq<Item>)
    ensures |Answers(s)| <= |Results(s)|
    ensures Answers(s) == Results(s) <==> NoOrphans(s)
    ensures |Answers(s)| == |Results(s)| ==> Answers(s) == Results(s)
  {
    if s == [] {
    } else {
      var init := s[..|s| - 1];
      NothingDroppedIff(init);
      AnswersFewer(s);
      assert s[..|s|] == s;
      assert forall n :: 0 <= n <= |init| ==> init[..n] == s[..n];
      assert NoOrphans(s) <==> NoOrphans(init) && |Results(s)| <= |Uses(s)|;
    }
  }

  /** A result before any use is dropped, and the next use is paired with the next result instead: here a failure becomes a success. */
  lemma {:induction false} EarlyResultShiftsPairing(use: Use) returns (s: seq<Item>)
    ensures s == [Answered(Answer(true, "early")), Asked(use), Answered(Answer(false, "late"))]
    ensures Results(s) == [Answer(true, "early"), Answer(false, "late")] && Answers(s) == [Answer(false, "late")]
    ensures CallsOf(Uses(s), Answers(s))
         == [ToolCall(use.messageIdx, use.name, use.input, false, Some("late"), use.tokens)]
  {
    var early, asked, late := Answered(Answer(true, "early")), Asked(use), Answered(Answer(false, "late"));
    s := [early, asked, late];
    assert [] + [early] == [early] && [early] + [asked] == [early, asked] && [early, asked] + [late] == s;
    StepItem([], early);
    StepItem([early], asked);
    StepItem([early, asked], late);
  }

  lemma StepItem(s: seq<Item>, x: Item)
    ensures Uses(s + [x]) == Uses(s) + if x.Asked? then [x.use] else []
    ensures Answers(s + [x]) == Answers(s) + if x.Answered? && |Answers(s)| < |Uses(s)| then [x.answer] else []
    ensures Results(s + [x]) == Results(s) + if x.Answered? then [x.answer] else []
  {
    assert (s + [x])[..|s|] == s;
  }

  // ---------------------------------------------------------------- the walk

  /** The state of the pairing after some of the stream: calls made and uses pending. */
  ghost predicate Paired(s: seq<Item>, calls: seq<ToolCall>, pending: seq<Use>) {
    var uses, answers := Uses(s), Answers(s);
    && |answers| <= |uses|
    && pending == uses[|answers|..]
    && |calls| == |answers|
    && forall k :: 0 <= k < |calls| ==> calls[k] == CallAt(uses, answers, k)
  }

  lemma {:induction false} AskKeepsPaired(s: seq<Item>, items: seq<Item>, calls: seq<ToolCall>, pending: seq<Use>, u: Use)
    requires Paired(s + items, calls, pending)
    ensures Paired(s + (items + [Asked(u)]), calls, pending + [u])
  {
    StepItem(s + items, Asked(u));
    assert s + items + [Asked(u)] == s + (items + [Asked(u)]);
  }

  lemma {:induction false} AnswerKeepsPaired(s: seq<Item>, items: seq<Item>, calls: seq<ToolCall>, pending: seq<Use>, a: Answer)
    requires Paired(s + items, calls, pending)
    ensures pending == [] ==> Paired(s + (items + [Answered(a)]), calls, pending)
    ensures pending != [] ==>
      Paired(s + (items + [Answered(a)]), calls + [AnsweredCall(pending[0], a)], pending[1..])
  {
    StepItem(s + items, Answered(a));
    assert s + items + [Answered(a)] == s + (items + [Answered(a)]);
  }

  function AnsweredCall(u: Use, a: Answer): ToolCall {
    ToolCall(u.messageIdx, u.name, u.input, a.isError, Some(a.content), u.tokens)
  }

  /** What the walk has of the tool uses so far: calls made, uses pending, and the two histories. */
  datatype Seen = Seen(calls: seq<ToolCall>, pending: seq<Use>, readHistory: History, editHistory: History)

  ghost predicate HasSeen(seen: Seen, s: seq<Item>) {
    Paired(s, seen.calls, seen.pending) && IsHistory(seen.readHistory, Uses(s), Reads) && IsHistory(seen.editHistory, Uses(s), Edits)
  }

  lemma {:induction false} AskKeepsSeen(s: seq<Item>, items: seq<Item>, seen: Seen, u: Use)
    requires HasSeen(seen, s + items)
    ensures HasSeen(
      Seen(seen.calls, seen.pending + [u], Recorded(seen.readHistory, Reads, u), Recorded(seen.editHistory, Edits, u)),
      s + (items + [Asked(u)]))
  {
    AskKeepsPaired(s, items, seen.calls, seen.pending, u);
    UsesGrow(s, items, Asked(u));
    RecordKeeps(seen.readHistory, Uses(s + items), Reads, u);
    RecordKeeps(seen.editHistory, Uses(s + items), Edits, u);
  }

  lemma {:induction false} AnswerKeepsSeen(s: seq<Item>, items: seq<Item>, seen: Seen, a: Answer)
    requires HasSeen(seen, s + items)
    ensures HasSeen(
      if seen.pending == [] then seen
      else seen.(calls := seen.calls + [AnsweredCall(seen.pending[0], a)], pending := seen.pending[1..]),
      s + (items + [Answered(a)]))
  {
    AnswerKeepsPaired(s, items, seen.calls, seen.pending, a);
    UsesGrow(s, items, Answered(a));
  }

  lemma {:induction false} UsesGrow(s: seq<Item>, items: seq<Item>, x: Item)
    ensures Uses(s + (items + [x])) == if x.Asked? then Uses(s + items) + [x.use] else Uses(s + items)
  {
    StepItem(s + items, x);
    assert s + items + [x] == s + (items + [x]);
  }

  /** The walk's variables after some messages. */
  ghost predicate Walked(msgs: seq<Message>, seen: Seen, curve: seq<nat>, edits: seq<nat>, cumulative: nat, model: string) {
    && HasSeen(seen, Stream(msgs))
    && Tracks(msgs, curve, edits)
    && cumulative == TotalTokens(msgs) && model == LastModel(msgs)
  }

  /** `TranscriptWalker::from_lines`. */
  method FromLines(lines: seq<Line>) returns (w: Walk)
    ensures var msgs := Messages(lines);
      && w.toolCalls == CallsOf(Uses(Stream(msgs)), Answers(Stream(msgs)))
      && w.messageCount == |msgs|
      && IsHistory(w.readHistory, Uses(Stream(msgs)), Reads) && IsHistory(w.editHistory, Uses(Stream(msgs)), Edits)
      && Tracks(msgs, w.tokenCurve, w.editsPerMessage)
      && w.totalTokens == AllTokens(msgs) && w.model == LastModel(msgs)
      && forall k :: 0 <= k < |msgs| ==> w.tokenCurve[k] == AllTokens(msgs[..k + 1])
  {
    var seen := Seen([], [], map[], map[]);
    var curve: seq<nat>, edits: seq<nat> := [], [];
    var cumulative, messageIdx, model := 0, 0, "";
    ghost var msgs: seq<Message> := [];
    NothingSeen();
    var i := 0;
    while i < |lines|
      invariant 0 <= i <= |lines| && msgs == Messages(lines[..i])
      invariant messageIdx == |msgs|
      invariant Walked(msgs, seen, curve, edits, cumulative, model)
    {
      assert lines[..i + 1][..i] == lines[..i];
      if lines[i].Parsed? {
        seen, curve, edits, cumulative, model :=
          WalkMessage(msgs, lines[i].message, messageIdx, seen, curve, edits, cumulative, model);
        messageIdx := messageIdx + 1;
        msgs := msgs + [lines[i].message];
      }
      i := i + 1;
    }
    assert lines[..i] == lines;
    var all := Flush(Stream(msgs), seen.calls, seen.pending);
    w := Walk(all, messageIdx, seen.readHistory, seen.editHistory, curve, edits, cumulative, model);
    CurveIsSums(msgs, curve, edits);
  }

  lemma NothingSeen()
    ensures HasSeen(Seen([], [], map[], map[]), [])
  {
    forall access, file ensures Holds(map[], [], access, file) {}
  }

  /** The body of the loop over messages. */
  method WalkMessage(
    ghost msgs: seq<Message>, msg: Message, messageIdx: nat,
    seen0: Seen, curve0: seq<nat>, edits0: seq<nat>, cumulative0: nat, model0: string)
    returns (seen: Seen, curve: seq<nat>, edits: seq<nat>, cumulative: nat, model: string)
    requires Walked(msgs, seen0, curve0, edits0, cumulative0, model0) && messageIdx == |msgs|
    ensures Walked(msgs + [msg], seen, curve, edits, cumulative, model)
  {
    ghost var next := msgs + [msg];
    assert next[..|msgs|] == msgs;
    cumulative := cumulative0 + TokensOf(msg);
    model := if msg.model.Some? then msg.model.value else model0;
    var msgEdits;
    seen, msgEdits := WalkBlocks(Stream(msgs), msg.content, messageIdx, cumulative, seen0);
    TracksNext(msgs, curve0, edits0, msg);
    curve := curve0 + [cumulative];
    edits := edits0 + [msgEdits];
  }

  ghost predicate Tracks(msgs: seq<Message>, curve: seq<nat>, edits: seq<nat>) {
    && |curve| == |msgs| == |edits|
    && (forall k :: 0 <= k < |msgs| ==> curve[k] == TotalTokens(msgs[..k + 1]))
    && (forall k :: 0 <= k < |msgs| ==> edits[k] == EditCount(msgs[k].content))
  }

  lemma {:induction false} CurveIsSums(msgs: seq<Message>, curve: seq<nat>, edits: seq<nat>)
    requires Tracks(msgs, curve, edits)
    ensures TotalTokens(msgs) == AllTokens(msgs)
    ensures forall k :: 0 <= k < |msgs| ==> curve[k] == AllTokens(msgs[..k + 1])
  {
    TotalIsSum(msgs);
    forall k | 0 <= k < |msgs| ensures curve[k] == AllTokens(msgs[..k + 1]) {
      TotalIsSum(msgs[..k + 1]);
    }
  }

  lemma {:induction false} TracksNext(msgs: seq<Message>, curve: seq<nat>, edits: seq<nat>, m: Message)
    requires Tracks(msgs, curve, edits)
    ensures Tracks(msgs + [m], curve + [TotalTokens(msgs + [m])], edits + [EditCount(m.content)])
  {
    var next := msgs + [m];
    forall k | 0 <= k < |next| ensures (curve + [TotalTokens(next)])[k] == TotalTokens(next[..k + 1]) {
      if k < |msgs| {
        assert next[..k + 1] == msgs[..k + 1];
      } else {
        assert next[..k + 1] == next;
      }
    }
  }

  /** The loop over one message's blocks. */
  method WalkBlocks(ghost s: seq<Item>, blocks: seq<Block>, messageIdx: nat, tokens: nat, seen0: Seen)
    returns (seen: Seen, msgEdits: nat)
    requires HasSeen(seen0, s)
    ensures HasSeen(seen, s + ItemsOf(blocks, messageIdx, tokens))
    ensures msgEdits == EditCount(blocks)
  {
    seen, msgEdits := seen0, 0;
    var j := 0;
    assert s + ItemsOf(blocks[..0], messageIdx, tokens) == s;
    while j < |blocks|
      invariant 0 <= j <= |blocks|
      invariant HasSeen(seen, s + ItemsOf(blocks[..j], messageIdx, tokens))
      invariant msgEdits == EditCount(blocks[..j])
    {
      assert blocks[..j + 1][..j] == blocks[..j];
      ghost var items := ItemsOf(blocks[..j], messageIdx, tokens);
      match blocks[j] {
        case ToolUse(name, input) =>
          var u := Use(name, input, messageIdx, tokens);
          AskKeepsSeen(s, items, seen, u);
          seen := Seen(seen.calls, seen.pending + [u], Recorded(seen.readHistory, Reads, u), Recorded(seen.editHistory, Edits, u));
          if Does(name, Edits) {
            msgEdits := msgEdits + 1;
          }
        case ToolResult(isError, content) =>
          AnswerKeepsSeen(s, items, seen, Answer(isError, content));
          if seen.pending != [] {
            var u := seen.pending[0];
            seen := seen.(
              calls := seen.calls + [ToolCall(u.messageIdx, u.name, u.input, isError, Some(content), u.tokens)],
              pending := seen.pending[1..]);
          }
        case Text =>
          assert items + [] == items;
      }
      j := j + 1;
    }
    assert blocks[..j] == blocks;
  }

  /** The uses still pending at the end become calls without a result. */
  method Flush(ghost s: seq<Item>, calls0: seq<ToolCall>, pending: seq<Use>) returns (calls: seq<ToolCall>)
    requires Paired(s, calls0, pending)
    ensures calls == CallsOf(Uses(s), Answers(s))
  {
    calls := calls0;
    ghost var uses, answers := Uses(s), Answers(s);
    var j := 0;
    while j < |pending|
      invariant 0 <= j <= |pending| && |calls| == |answers| + j
      invariant forall k :: 0 <= k < |calls| ==> calls[k] == CallAt(uses, answers, k)
    {
      var u := pending[j];
      assert u == uses[|answers| + j];
      calls := calls + [ToolCall(u.messageIdx, u.name, u.input, false, None, u.tokens)];
      j := j + 1;
    }
  }

  // ---------------------------------------------------------------- token marks

  lemma {:induction false} TokensGrow(msgs: seq<Message>, i: nat, j: nat)
    requires i <= j <= |msgs|
    ensures TotalTokens(msgs[..i]) <= TotalTokens(msgs[..j])
    decreases j
  {
    if i < j {
      TokensGrow(msgs, i, j - 1);
      assert msgs[..j][..j - 1] == msgs[..j - 1];
    }
  }

  /** In order, and none above the bound. */
  ghost predicate MarksOk(uses: seq<Use>, messages: nat, total: nat) {
    && (forall i, j :: 0 <= i <= j < |uses| ==> uses[i].tokens <= uses[j].tokens && uses[i].messageIdx <= uses[j].messageIdx)
    && (forall i :: 0 <= i < |uses| ==> uses[i].tokens <= total && uses[i].messageIdx < messages)
  }

  lemma {:induction false} UsesOfConcat(s: seq<Item>, x: seq<Item>)
    ensures Uses(s + x) == Uses(s) + Uses(x)
    decreases |x|
  {
    if x == [] {
      assert s + x == s;
    } else {
      var init, last := x[..|x| - 1], x[|x| - 1];
      assert s + x == (s + init) + [last];
      assert x == init + [last];
      UsesOfConcat(s, init);
      StepItem(s + init, last);
      StepItem(init, last);
    }
  }

  lemma {:induction false} UsesOfItems(blocks: seq<Block>, messageIdx: nat, tokens: nat)
    ensures forall i :: 0 <= i < |Uses(ItemsOf(blocks, messageIdx, tokens))| ==>
      Uses(ItemsOf(blocks, messageIdx, tokens))[i].messageIdx == messageIdx
      && Uses(ItemsOf(blocks, messageIdx, tokens))[i].tokens == tokens
    decreases |blocks|
  {
    if blocks != [] {
      var init := ItemsOf(blocks[..|blocks| - 1], messageIdx, tokens);
      UsesOfItems(blocks[..|blocks| - 1], messageIdx, tokens);
      var all := ItemsOf(blocks, messageIdx, tokens);
      if blocks[|blocks| - 1].Text? {
        assert all == init;
      } else {
        StepItem(init, all[|all| - 1]);
        assert all == init + [all[|all| - 1]];
      }
    }
  }

  /** Token marks and message indices never decrease along the uses, and never pass the session's totals. */
  lemma {:induction false} MarksInOrder(msgs: seq<Message>)
    ensures MarksOk(Uses(Stream(msgs)), |msgs|, TotalTokens(msgs))
    decreases |msgs|
  {
    if msgs != [] {
      var n := |msgs| - 1;
      var before := Stream(msgs[..n]);
      var items := ItemsOf(msgs[n].content, n, TotalTokens(msgs));
      MarksInOrder(msgs[..n]);
      UsesOfConcat(before, items);
      UsesOfItems(msgs[n].content, n, TotalTokens(msgs));
    }
  }

  /** Every tool use becomes one call, in order, with the marks it was made at: none lost, none twice. */
  lemma {:induction false} CallsAreUses(lines: seq<Line>, k: nat)
    requires k < |Uses(Stream(Messages(lines)))|
    ensures var s := Stream(Messages(lines));
      var calls := CallsOf(Uses(s), Answers(s));
      && |calls| == |Uses(s)|
      && calls[k].toolName == Uses(s)[k].name && calls[k].input == Uses(s)[k].input
      && calls[k].messageIdx == Uses(s)[k].messageIdx && calls[k].tokensAtCall == Uses(s)[k].tokens
      && (calls[k].isError <==> k < |Answers(s)| && Answers(s)[k].isError)
      && calls[k].resultContent == if k < |Answers(s)| then Some(Answers(s)[k].content) else None
  {}

  ghost predicate CallMarksOk(calls: seq<ToolCall>, total: nat) {
    && (forall i, j :: 0 <= i <= j < |calls| ==> calls[i].tokensAtCall <= calls[j].tokensAtCall)
    && (forall i :: 0 <= i < |calls| ==> calls[i].tokensAtCall <= total)
  }

  lemma {:induction false} WalkMarksOk(lines: seq<Line>)
    ensures var s := Stream(Messages(lines));
      CallMarksOk(CallsOf(Uses(s), Answers(s)), TotalTokens(Messages(lines)))
  {
    MarksInOrder(Messages(lines));
  }
}
