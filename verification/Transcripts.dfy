/** What the walk says of a transcript, message by message and block by block. */
module Transcripts {
  import opened Filters
  import opened Options
  import opened Walker

  // ---------------------------------------------------------------- lines and messages

  predicate IsMessage(line: Line) {
    line.Parsed?
  }

  predicate ShowsMessage(line: Line, m: Message) {
    line == Parsed(m)
  }

  /** The messages are those of the lines that hold one, in order; blank, unparseable and waiting lines are passed over. */
  lemma {:induction false} MessagesPicked(lines: seq<Line>) returns (places: seq<nat>)
    ensures Picks(lines, IsMessage, places) && ShowsAt(lines, places, ShowsMessage, Messages(lines))
  {
    places := [];
    if lines != [] {
      var init := lines[..|lines| - 1];
      var before := MessagesPicked(init);
      PicksLast(lines, IsMessage, before);
      ShowsLast(lines, before, ShowsMessage, Messages(init));
      places := before + if IsMessage(lines[|lines| - 1]) then [|lines| - 1] else [];
    }
  }

  /** The model is that of the last message that names one. */
  lemma {:induction false} LastModelIs(msgs: seq<Message>)
    ensures if exists i :: 0 <= i < |msgs| && msgs[i].model.Some? then
              exists i :: NamesLast(msgs, i) && msgs[i].model == Some(LastModel(msgs))
            else LastModel(msgs) == ""
    decreases |msgs|
  {
    if msgs != [] {
      var n := |msgs| - 1;
      if msgs[n].model.Some? {
        assert NamesLast(msgs, n);
      } else {
        LastModelIs(msgs[..n]);
        if i :| NamesLast(msgs[..n], i) && msgs[..n][i].model == Some(LastModel(msgs[..n])) {
          assert NamesLast(msgs, i);
        }
        if i :| 0 <= i < |msgs| && msgs[i].model.Some? {
          assert msgs[..n][i].model.Some?;
        }
      }
    }
  }

  ghost predicate NamesLast(msgs: seq<Message>, i: int) {
    0 <= i < |msgs| && msgs[i].model.Some? && forall j :: i < j < |msgs| ==> msgs[j].model.None?
  }

  // ---------------------------------------------------------------- blocks

  /** A tool use or a result. */
  predicate IsItem(b: Block) {
    !b.Text?
  }

  /** As the item it is, with the index of its message and the tokens used up to that message. */
  predicate ShowsItem(messageIdx: nat, tokens: nat, b: Block, item: Item) {
    match b
    case ToolUse(name, input) => item == Asked(Use(name, input, messageIdx, tokens))
    case ToolResult(isError, content) => item == Answered(Answer(isError, content))
    case Text => false
  }

  function ShowsItemOf(messageIdx: nat, tokens: nat): (Block, Item) -> bool {
    (b, item) => ShowsItem(messageIdx, tokens, b, item)
  }

  lemma {:induction false} ItemsPicked(blocks: seq<Block>, messageIdx: nat, tokens: nat) returns (places: seq<nat>)
    ensures Picks(blocks, IsItem, places)
    ensures ShowsAt(blocks, places, ShowsItemOf(messageIdx, tokens), ItemsOf(blocks, messageIdx, tokens))
  {
    places := [];
    if blocks != [] {
      var n := |blocks| - 1;
      var before := ItemsPicked(blocks[..n], messageIdx, tokens);
      PicksLast(blocks, IsItem, before);
      ShowsLast(blocks, before, ShowsItemOf(messageIdx, tokens), ItemsOf(blocks[..n], messageIdx, tokens));
      places := before + if IsItem(blocks[n]) then [n] else [];
    }
  }

  /**
   The stream goes through the messages in order, and in each through its tool uses and results in
   order, marked with the message's index and all tokens up to and including it.
   */
  lemma {:induction false} StreamOfMessage(msgs: seq<Message>, n: nat) returns (items: seq<Item>, places: seq<nat>)
    requires n < |msgs|
    ensures Stream(msgs[..n + 1]) == Stream(msgs[..n]) + items
    ensures Picks(msgs[n].content, IsItem, places)
    ensures ShowsAt(msgs[n].content, places, ShowsItemOf(n, AllTokens(msgs[..n + 1])), items)
  {
    var upto := msgs[..n + 1];
    assert upto[..n] == msgs[..n];
    TotalIsSum(upto);
    items := ItemsOf(msgs[n].content, n, AllTokens(upto));
    places := ItemsPicked(msgs[n].content, n, AllTokens(upto));
  }

  /** A use comes from the message of its index, and its mark is the walk's token curve there. */
  ghost predicate ComesFrom(msgs: seq<Message>, u: Use) {
    && u.messageIdx < |msgs| && u.tokens == AllTokens(msgs[..u.messageIdx + 1])
    && ToolUse(u.name, u.input) in msgs[u.messageIdx].content
  }

  lemma {:induction false} UsesComeFrom(msgs: seq<Message>, k: nat)
    requires k < |Uses(Stream(msgs))|
    ensures ComesFrom(msgs, Uses(Stream(msgs))[k])
    decreases |msgs|
  {
    var n := |msgs| - 1;
    var init, tokens := msgs[..n], TotalTokens(msgs);
    var items := ItemsOf(msgs[n].content, n, tokens);
    UsesOfConcat(Stream(init), items);
    TotalIsSum(msgs);
    assert msgs[..n + 1] == msgs;
    if k < |Uses(Stream(init))| {
      UsesComeFrom(init, k);
      var u := Uses(Stream(init))[k];
      assert init[..u.messageIdx + 1] == msgs[..u.messageIdx + 1];
    } else {
      UsesOfItems(msgs[n].content, n, tokens);
      UseIsBlock(msgs[n].content, n, tokens, k - |Uses(Stream(init))|);
    }
  }

  lemma {:induction false} UseIsBlock(blocks: seq<Block>, messageIdx: nat, tokens: nat, k: nat)
    requires k < |Uses(ItemsOf(blocks, messageIdx, tokens))|
    ensures var u := Uses(ItemsOf(blocks, messageIdx, tokens))[k]; ToolUse(u.name, u.input) in blocks
    decreases |blocks|
  {
    var n := |blocks| - 1;
    var init := ItemsOf(blocks[..n], messageIdx, tokens);
    var all := ItemsOf(blocks, messageIdx, tokens);
    if blocks[n].Text? {
      assert all == init;
    } else {
      StepItem(init, all[|all| - 1]);
      assert all == init + [all[|all| - 1]];
    }
    if k < |Uses(init)| {
      UseIsBlock(blocks[..n], messageIdx, tokens, k);
    } else {
      assert blocks[n] in blocks;
    }
  }

  /** No use is lost or made up: there are as many as the messages hold. */
  lemma {:induction false} AsManyUses(msgs: seq<Message>)
    ensures |Uses(Stream(msgs))| == UseBlocks(msgs)
    decreases |msgs|
  {
    if msgs != [] {
      var n := |msgs| - 1;
      AsManyUses(msgs[..n]);
      UsesOfConcat(Stream(msgs[..n]), ItemsOf(msgs[n].content, n, TotalTokens(msgs)));
      AsManyBlocks(msgs[n].content, n, TotalTokens(msgs));
    }
  }

  function UseBlocks(msgs: seq<Message>): nat {
    if msgs == [] then 0 else UseBlocks(msgs[..|msgs| - 1]) + |UsePlaces(msgs[|msgs| - 1].content)|
  }

  function UsePlaces(blocks: seq<Block>): set<nat> {
    set j: nat | j < |blocks| && blocks[j].ToolUse?
  }

  lemma {:induction false} AsManyBlocks(blocks: seq<Block>, messageIdx: nat, tokens: nat)
    ensures |Uses(ItemsOf(blocks, messageIdx, tokens))| == |UsePlaces(blocks)|
    decreases |blocks|
  {
    if blocks != [] {
      var n := |blocks| - 1;
      var init, all := ItemsOf(blocks[..n], messageIdx, tokens), ItemsOf(blocks, messageIdx, tokens);
      AsManyBlocks(blocks[..n], messageIdx, tokens);
      assert UsePlaces(blocks) == UsePlaces(blocks[..n]) + if blocks[n].ToolUse? then {n} else {};
      if blocks[n].Text? {
        assert all == init;
      } else {
        StepItem(init, all[|all| - 1]);
        assert all == init + [all[|all| - 1]];
      }
    }
  }

  // ---------------------------------------------------------------- how many results find a use

  /** The uses before a cut of the stream and the results after it. */
  function Across(s: seq<Item>, n: nat): nat
    requires n <= |s|
  {
    |Uses(s[..n])| + |Results(s[n..])|
  }

  lemma {:induction false} AcrossStep(s: seq<Item>, x: Item, n: nat)
    requires n <= |s|
    ensures Across(s + [x], n) == Across(s, n) + if x.Answered? then 1 else 0
  {
    assert (s + [x])[..n] == s[..n] && (s + [x])[n..] == s[n..] + [x];
    StepItem(s[n..], x);
  }

  /**
   However results and uses are interleaved, the number of results that are paired is the least, over
   all cuts of the stream, of the uses before the cut and the results after it.
   */
  lemma {:induction false} AnswersLeast(s: seq<Item>) returns (cut: nat)
    ensures cut <= |s| && |Answers(s)| == Across(s, cut)
    ensures forall n :: 0 <= n <= |s| ==> |Answers(s)| <= Across(s, n)
    decreases |s|
  {
    cut := 0;
    if s != [] {
      var init, x := s[..|s| - 1], s[|s| - 1];
      assert s == init + [x];
      var before := AnswersLeast(init);
      AnswersFewer(init);
      StepItem(init, x);
      forall n | 0 <= n <= |init| ensures Across(s, n) == Across(init, n) + if x.Answered? then 1 else 0 {
        AcrossStep(init, x, n);
      }
      assert s[..|s|] == s && s[|s|..] == [];
      cut := if x.Answered? && |Answers(init)| == |Uses(init)| then |s| else before;
    }
  }

  // ---------------------------------------------------------------- edits and file accesses

  /** The blocks that use an editing tool, on a file or not. */
  function EditPlaces(blocks: seq<Block>): set<nat> {
    set j: nat | j < |blocks| && blocks[j].ToolUse? && blocks[j].name in {"Edit", "Write", "NotebookEdit"}
  }

  lemma {:induction false} EditCountIs(blocks: seq<Block>)
    ensures EditCount(blocks) == |EditPlaces(blocks)|
    decreases |blocks|
  {
    if blocks != [] {
      var n := |blocks| - 1;
      EditCountIs(blocks[..n]);
      assert EditPlaces(blocks) == EditPlaces(blocks[..n]) + if IsEdit(blocks[n]) then {n} else {};
    }
  }

  /** The use is of a tool that reads, or edits, this file. */
  predicate OnFile(access: Access, file: string, u: Use) {
    && u.input.filePath == Some(file)
    && match access
       case Reads => u.name in {"Read", "Grep", "Glob"}
       case Edits => u.name in {"Edit", "Write", "NotebookEdit"}
  }

  function OnFileOf(access: Access, file: string): Use -> bool {
    u => OnFile(access, file, u)
  }

  predicate ShowsMark(u: Use, mark: (nat, nat)) {
    mark.0 == u.messageIdx && mark.1 == u.tokens
  }

  lemma {:induction false} MarksPicked(uses: seq<Use>, access: Access, file: string) returns (places: seq<nat>)
    ensures Picks(uses, OnFileOf(access, file), places) && ShowsAt(uses, places, ShowsMark, MarksOf(uses, access, file))
  {
    places := [];
    if uses != [] {
      var n := |uses| - 1;
      var before := MarksPicked(uses[..n], access, file);
      PicksLast(uses, OnFileOf(access, file), before);
      ShowsLast(uses, before, ShowsMark, MarksOf(uses[..n], access, file));
      places := before + if OnFile(access, file, uses[n]) then [n] else [];
    }
  }

  /** A history holds a file iff some use accessed it, with the message and token marks of those uses, in order. */
  lemma {:induction false} HistoryIs(h: History, uses: seq<Use>, access: Access, file: string) returns (places: seq<nat>)
    requires IsHistory(h, uses, access)
    ensures Picks(uses, OnFileOf(access, file), places)
    ensures if places == [] then file !in h else file in h && ShowsAt(uses, places, ShowsMark, h[file])
  {
    places := MarksPicked(uses, access, file);
    assert Holds(h, uses, access, file);
  }
}
