/**
 What a placeholder says and what it is replaced by, spelled out: the parts of its text, the
 part of a log that is put into a prompt, and which failure comes with what.
 */
module Placeholders {
  import opened Options
  import opened Spellings
  import opened Text
  import opened Templates

  // ---------------------------------------------------------------- how a reference is spelled

  /** `name.field`, with whitespace around either. */
  ghost predicate Spells(raw: string, name: string, field: string) {
    SpelledApart(raw, '.', name, field)
  }

  /** A placeholder's reference is what it spells, and there is none iff it has no dot. */
  lemma {:induction false} ReferenceSpelled(raw: string, name: string, field: string)
    ensures Reference(raw) == Some((name, field)) <==> Spells(raw, name, field)
    ensures Reference(raw).None? <==> '.' !in raw
  {
    CutIsSpelling(raw, '.', name, field);
  }

  // ---------------------------------------------------------------- what is captured of a log

  /** A log of at most 32 KB is captured whole, a longer one as its first 32 KB and a notice. */
  lemma {:induction false} CapKeeps(content: string)
    ensures ByteLen(content) <= 32768 ==> Cap(content) == Some(content)
    ensures ByteLen(content) > 32768 && Cap(content).Some? ==>
      exists kept :: FirstBytes(content, kept, 32768)
                     && Cap(content).value == kept + "\n... (truncated, output exceeded 32KB)"
  {
    if ByteLen(content) > 32768 && Cap(content).Some? {
      assert FirstBytes(content, TruncateAt(content, 32768).value, 32768);
    }
  }

  /** What a prompt gets of a log: the captured part without whitespace around it. */
  ghost predicate Captured(content: string, output: string) {
    if ByteLen(content) <= 32768 then output == Trim(content)
    else exists kept :: CutTo(content, kept, output)
  }

  ghost predicate CutTo(content: string, kept: string, output: string) {
    FirstBytes(content, kept, 32768) && output == Trim(kept + "\n... (truncated, output exceeded 32KB)")
  }

  lemma {:induction false} CapturedIff(content: string, output: string)
    requires !CutsCharacter(content, 32768)
    ensures Captured(content, output) <==> Cap(content).Some? && output == Trim(Cap(content).value)
  {
    CapPanicsIff(content);
    CapKeeps(content);
    if ByteLen(content) > 32768 {
      var kept :| FirstBytes(content, kept, 32768) && Cap(content).value == kept + "\n... (truncated, output exceeded 32KB)";
      assert CutTo(content, kept, Trim(Cap(content).value));
      forall k | CutTo(content, k, output) ensures k == kept {
        FirstBytesUnique(content, k, kept, 32768);
      }
    }
  }

  lemma {:induction false} CapturedUnique(content: string, p: string, q: string)
    requires Captured(content, p) && Captured(content, q)
    ensures p == q
  {
    if ByteLen(content) > 32768 {
      var k :| CutTo(content, k, p);
      var l :| CutTo(content, l, q);
      FirstBytesUnique(content, k, l, 32768);
    }
  }

  // ---------------------------------------------------------------- one placeholder

  /** The placeholder asks for the stdout of a task whose log holds the content. */
  ghost predicate AsksForLog(
    raw: string, outputs: map<string, LogPath>, read: LogPath -> Option<string>, name: string, content: string)
  {
    Spells(raw, name, "stdout") && name in outputs && read(outputs[name]) == Some(content)
  }

  /** It is replaced by this text. */
  ghost predicate Inserts(raw: string, outputs: map<string, LogPath>, read: LogPath -> Option<string>, output: string) {
    exists name, content :: AsksForLog(raw, outputs, read, name, content)
                            && !CutsCharacter(content, 32768) && Captured(content, output)
  }

  ghost predicate IsReplaced(raw: string, outputs: map<string, LogPath>, read: LogPath -> Option<string>) {
    exists output :: Inserts(raw, outputs, read, output)
  }

  /** Or it fails, for the first of these reasons that applies. */
  ghost predicate Fails(raw: string, outputs: map<string, LogPath>, read: LogPath -> Option<string>, e: TemplateError) {
    match e
    case InvalidTemplate(placeholder) => '.' !in raw && placeholder == Trim(raw)
    case UnsupportedField(field, placeholder) =>
      field != "stdout" && placeholder == Trim(raw) && exists name :: Spells(raw, name, field)
    case NoStdout(name) => Spells(raw, name, "stdout") && name !in outputs
    case ReadFailed(name) => Spells(raw, name, "stdout") && name in outputs && read(outputs[name]).None?
    case CapturePanicked(name) =>
      exists content :: AsksForLog(raw, outputs, read, name, content) && CutsCharacter(content, 32768)
  }

  lemma {:induction false} ResolvesIff(
    raw: string, outputs: map<string, LogPath>, read: LogPath -> Option<string>, output: string)
    ensures Resolve(raw, outputs, read) == Ok(output) <==> Inserts(raw, outputs, read, output)
  {
    if Resolve(raw, outputs, read) == Ok(output) {
      var name := Reference(raw).value.0;
      var content := read(outputs[name]).value;
      ReferenceSpelled(raw, name, "stdout");
      CapPanicsIff(content);
      CapturedIff(content, output);
      assert AsksForLog(raw, outputs, read, name, content);
    }
    if Inserts(raw, outputs, read, output) {
      var name, content :| AsksForLog(raw, outputs, read, name, content)
                           && !CutsCharacter(content, 32768) && Captured(content, output);
      ReferenceSpelled(raw, name, "stdout");
      CapturedIff(content, output);
    }
  }

  lemma {:induction false} SpellsOne(raw: string, name: string, field: string)
    requires Reference(raw) == Some((name, field))
    ensures '.' in raw && Spells(raw, name, field)
    ensures forall n, f :: Spells(raw, n, f) ==> n == name && f == field
  {
    ReferenceSpelled(raw, name, field);
    forall n, f | Spells(raw, n, f) ensures n == name && f == field {
      ReferenceSpelled(raw, n, f);
    }
  }

  lemma {:induction false} FailureMeans(
    raw: string, outputs: map<string, LogPath>, read: LogPath -> Option<string>, e: TemplateError)
    requires Resolve(raw, outputs, read) == Err(e)
    ensures Fails(raw, outputs, read, e)
  {
    if Reference(raw).None? {
      ReferenceSpelled(raw, "", "");
    } else {
      var (name, field) := Reference(raw).value;
      SpellsOne(raw, name, field);
      if field == "stdout" && name in outputs && read(outputs[name]).Some? {
        CapPanicsIff(read(outputs[name]).value);
        assert AsksForLog(raw, outputs, read, name, read(outputs[name]).value);
      }
    }
  }

  /** Which failure a placeholder meets with, and when. */
  lemma {:induction false} FailsIff(
    raw: string, outputs: map<string, LogPath>, read: LogPath -> Option<string>, e: TemplateError)
    ensures Resolve(raw, outputs, read) == Err(e) <==> Fails(raw, outputs, read, e)
  {
    if Resolve(raw, outputs, read) == Err(e) {
      FailureMeans(raw, outputs, read, e);
    }
    if Fails(raw, outputs, read, e) {
      match e {
        case InvalidTemplate(_) => ReferenceSpelled(raw, "", "");
        case UnsupportedField(field, _) =>
          var name :| Spells(raw, name, field);
          ReferenceSpelled(raw, name, field);
        case NoStdout(name) => ReferenceSpelled(raw, name, "stdout");
        case ReadFailed(name) => ReferenceSpelled(raw, name, "stdout");
        case CapturePanicked(name) =>
          var content :| AsksForLog(raw, outputs, read, name, content) && CutsCharacter(content, 32768);
          ReferenceSpelled(raw, name, "stdout");
          CapPanicsIff(content);
      }
    }
  }

  // ---------------------------------------------------------------- a whole prompt

  /** What its placeholders are replaced by, in order. */
  ghost predicate AllInsert(
    holes: seq<string>, outputs: map<string, LogPath>, read: LogPath -> Option<string>, outs: seq<string>)
  {
    |outs| == |holes| && forall k :: 0 <= k < |holes| ==> Inserts(holes[k], outputs, read, outs[k])
  }

  /** The prompt's text between the placeholders, with what they are replaced by in between. */
  ghost predicate Expands(prompt: string, outputs: map<string, LogPath>, read: LogPath -> Option<string>, text: string) {
    exists outs :: AllInsert(Holes(Parse(prompt)), outputs, read, outs) && text == Weave(Literals(Parse(prompt)), outs)
  }

  /** The first placeholder that is not replaced fails like this. */
  ghost predicate ExpansionFails(
    prompt: string, outputs: map<string, LogPath>, read: LogPath -> Option<string>, e: TemplateError)
  {
    var holes := Holes(Parse(prompt));
    exists k :: 0 <= k < |holes| && Fails(holes[k], outputs, read, e)
                && forall j :: 0 <= j < k ==> IsReplaced(holes[j], outputs, read)
  }

  lemma {:induction false} OutputsInsert(t: Template, outputs: map<string, LogPath>, read: LogPath -> Option<string>)
    requires Expand(t, outputs, read).Ok?
    ensures AllInsert(Holes(t), outputs, read, Outputs(t, outputs, read))
    decreases t
  {
    if t.Hole? {
      OutputsInsert(t.after, outputs, read);
      ResolvesIff(t.raw, outputs, read, Resolve(t.raw, outputs, read).value);
    }
  }

  lemma {:induction false} LaterInsert(
    t: Template, outputs: map<string, LogPath>, read: LogPath -> Option<string>, outs: seq<string>)
    requires t.Hole? && AllInsert(Holes(t), outputs, read, outs)
    ensures AllInsert(Holes(t.after), outputs, read, outs[1..]) && Inserts(t.raw, outputs, read, outs[0])
  {
    FirstHole(t);
    forall k | 0 <= k < |Holes(t.after)| ensures Inserts(Holes(t.after)[k], outputs, read, outs[1..][k]) {
      HoleShift(t, k);
    }
  }

  lemma {:induction false} InsertsAreOutputs(
    t: Template, outputs: map<string, LogPath>, read: LogPath -> Option<string>, outs: seq<string>)
    requires AllInsert(Holes(t), outputs, read, outs)
    ensures Expand(t, outputs, read).Ok? && Outputs(t, outputs, read) == outs
    decreases t
  {
    if t.Hole? {
      LaterInsert(t, outputs, read, outs);
      ResolvesIff(t.raw, outputs, read, outs[0]);
      InsertsAreOutputs(t.after, outputs, read, outs[1..]);
      assert outs == [outs[0]] + outs[1..];
    }
  }

  /** A prompt expands to a text iff every placeholder is replaced, and the text is the prompt with that done once. */
  lemma {:induction false} ExpandsIff(
    prompt: string, outputs: map<string, LogPath>, read: LogPath -> Option<string>, text: string)
    ensures Expand(Parse(prompt), outputs, read) == Ok(text) <==> Expands(prompt, outputs, read, text)
  {
    var t := Parse(prompt);
    if Expand(t, outputs, read) == Ok(text) {
      OutputsInsert(t, outputs, read);
      ExpandIsOnePass(t, outputs, read);
    }
    if Expands(prompt, outputs, read, text) {
      var outs :| AllInsert(Holes(t), outputs, read, outs) && text == Weave(Literals(t), outs);
      InsertsAreOutputs(t, outputs, read, outs);
      ExpandIsOnePass(t, outputs, read);
    }
  }

  lemma {:induction false} ResolvedInserts(raw: string, outputs: map<string, LogPath>, read: LogPath -> Option<string>)
    ensures Resolve(raw, outputs, read).Ok? <==> IsReplaced(raw, outputs, read)
  {
    if Resolve(raw, outputs, read).Ok? {
      ResolvesIff(raw, outputs, read, Resolve(raw, outputs, read).value);
    }
    if output :| Inserts(raw, outputs, read, output) {
      ResolvesIff(raw, outputs, read, output);
    }
  }

  /** Whoever fails first, with those before it replaced, decides. */
  lemma {:induction false} FirstDecides(
    t: Template, outputs: map<string, LogPath>, read: LogPath -> Option<string>, k: nat)
    requires k < |Holes(t)| && Resolve(Holes(t)[k], outputs, read).Err?
    requires forall j :: 0 <= j < k ==> ResolvesAt(t, j, outputs, read)
    ensures Expand(t, outputs, read) == Resolve(Holes(t)[k], outputs, read)
  {
    assert Holes(t)[k] in Holes(t);
    ExpandOkIff(t, outputs, read);
    var e := ExpandErrIsFirst(t, outputs, read);
    OneFirstFailure(t, k, e, outputs, read);
  }

  /** It fails with an error iff that is how the first placeholder that is not replaced fails. */
  lemma {:induction false} ExpansionFailsIff(
    prompt: string, outputs: map<string, LogPath>, read: LogPath -> Option<string>, e: TemplateError)
    ensures Expand(Parse(prompt), outputs, read) == Err(e) <==> ExpansionFails(prompt, outputs, read, e)
  {
    var t := Parse(prompt);
    if Expand(t, outputs, read) == Err(e) {
      var k := ExpandErrIsFirst(t, outputs, read);
      FailsIff(Holes(t)[k], outputs, read, e);
      forall j | 0 <= j < k ensures IsReplaced(Holes(t)[j], outputs, read) {
        assert ResolvesAt(t, j, outputs, read);
        ResolvedInserts(Holes(t)[j], outputs, read);
      }
    }
    if ExpansionFails(prompt, outputs, read, e) {
      var k :| 0 <= k < |Holes(t)| && Fails(Holes(t)[k], outputs, read, e)
               && forall j :: 0 <= j < k ==> IsReplaced(Holes(t)[j], outputs, read);
      FailsIff(Holes(t)[k], outputs, read, e);
      forall j | 0 <= j < k ensures ResolvesAt(t, j, outputs, read) {
        ResolvedInserts(Holes(t)[j], outputs, read);
      }
      FirstDecides(t, outputs, read, k);
    }
  }
}
