/**
 `{{name.stdout}}` placeholders in prompts: the scanner used by validation
 (`extract_template_refs`), the one used at launch (`expand_prompt_templates`), and the
 grammar that both of them are proved to follow.
 */
module Templates {
  import opened Options
  import opened Text

  // ---------------------------------------------------------------- the grammar

  /** A prompt, cut at its closed placeholders from left to right. */
  datatype Template =
    | Tail(text: string)
    | Hole(before: string, raw: string, after: Template)

  function Parse(s: string): Template {
    match FindPair(s, '{')
    case None => Tail(s)
    case Some(i) =>
      match FindPair(s[i + 2..], '}')
      case None => Tail(s)
      case Some(j) => Hole(s[..i], s[i + 2..][..j], Parse(s[i + 2..][j + 2..]))
  }

  /** What a scanner finds first in the remaining text. */
  datatype Next =
    | NoOpening
    | Unclosed(before: string, after: string)
    | Closed(before: string, raw: string, rest: string)

  function NextIn(s: string): (n: Next)
    ensures n.Unclosed? ==> |n.after| < |s|
    ensures n.Closed? ==> |n.rest| < |s|
  {
    var start := FindPair(s, '{');
    if start.None? then NoOpening
    else
      var before, after := s[..start.value], s[start.value + 2..];
      var end := FindPair(after, '}');
      if end.None? then Unclosed(before, after)
      else Closed(before, after[..end.value], after[end.value + 2..])
  }

  lemma NextParses(s: string)
    ensures Parse(s) == if NextIn(s).Closed? then Hole(NextIn(s).before, NextIn(s).raw, Parse(NextIn(s).rest)) else Tail(s)
  {}

  function Print(t: Template): string {
    match t
    case Tail(text) => text
    case Hole(before, raw, after) => before + "{{" + raw + "}}" + Print(after)
  }

  /** The braces around a hole are the first ones: it opens leftmost and closes at once. */
  ghost predicate Leftmost(t: Template) {
    match t
    case Tail(text) =>
      FindPair(text, '{').Some? ==> FindPair(text[FindPair(text, '{').value + 2..], '}').None?
    case Hole(before, raw, after) =>
      && (forall k :: 0 <= k < |before| ==> !PairAt(before + "{{", '{', k))
      && (forall k :: 0 <= k < |raw| ==> !PairAt(raw + "}}", '}', k))
      && Leftmost(after)
  }

  lemma PairsInPrefix(p: string, q: string, c: char, k: nat)
    requires k + 2 <= |p|
    ensures PairAt(p, c, k) <==> PairAt(p + q, c, k)
  {}

  /** Where the first pair of a concatenation is, when no earlier one overlaps the seam. */
  lemma FirstPairAt(p: string, c: char, q: string)
    requires forall k :: 0 <= k < |p| ==> !PairAt(p + [c, c], c, k)
    ensures FindPair(p + [c, c] + q, c) == Some(|p|)
    ensures (p + [c, c] + q)[..|p|] == p && (p + [c, c] + q)[|p| + 2..] == q
  {
    var s := p + [c, c] + q;
    forall k | 0 <= k < |p| ensures !PairAt(s, c, k) {
      PairsInPrefix(p + [c, c], q, c, k);
    }
    FindPairUnique(s, c, |p|);
  }

  /** And conversely: the text before the first pair does not reach into it. */
  lemma FirstPairCuts(s: string, c: char, i: nat)
    requires FindPair(s, c) == Some(i)
    ensures s == s[..i] + [c, c] + s[i + 2..]
    ensures forall k :: 0 <= k < i ==> !PairAt(s[..i] + [c, c], c, k)
  {
    FindPairIsFirst(s, c);
    var p := s[..i] + [c, c];
    assert s == p + s[i + 2..];
    forall k | 0 <= k < i ensures !PairAt(p, c, k) {
      PairsInPrefix(p, s[i + 2..], c, k);
    }
  }

  /** Parsing loses nothing, and finds holes leftmost-first. */
  lemma {:induction false} ParsePrints(s: string)
    ensures Print(Parse(s)) == s && Leftmost(Parse(s))
    decreases |s|
  {
    match FindPair(s, '{')
    case None =>
    case Some(i) =>
      var after := s[i + 2..];
      match FindPair(after, '}')
      case None =>
      case Some(j) =>
        FirstPairCuts(s, '{', i);
        FirstPairCuts(after, '}', j);
        ParsePrints(after[j + 2..]);
        Seams(s[..i], after[..j], after[j + 2..], after);
  }

  lemma Seams(before: string, raw: string, rest: string, after: string)
    requires after == raw + "}}" + rest
    ensures before + "{{" + raw + "}}" + rest == before + "{{" + after
  {}

  lemma ParseStep(s: string, i: nat, j: nat)
    requires FindPair(s, '{') == Some(i) && FindPair(s[i + 2..], '}') == Some(j)
    ensures Parse(s) == Hole(s[..i], s[i + 2..][..j], Parse(s[i + 2..][j + 2..]))
  {}

  lemma Assoc<T>(a: seq<T>, b: seq<T>, c: seq<T>)
    ensures a + (b + c) == (a + b) + c
  {}

  /** Only one leftmost template prints as a given prompt, so `Parse` is the grammar. */
  lemma {:induction false} ParseUnique(t: Template)
    requires Leftmost(t)
    ensures Parse(Print(t)) == t
    decreases t
  {
    match t
    case Tail(text) =>
    case Hole(before, raw, after) =>
      var rest := raw + "}}" + Print(after);
      ParseUnique(after);
      Seams(before, raw, Print(after), rest);
      FirstPairAt(before, '{', rest);
      FirstPairAt(raw, '}', Print(after));
      ParseStep(before + "{{" + rest, |before|, |raw|);
  }

  /** The raw text of the closed placeholders, in order. */
  function Holes(t: Template): seq<string> {
    match t
    case Tail(_) => []
    case Hole(_, raw, after) => [raw] + Holes(after)
  }

  /** The literal text around them: one more segment than there are holes. */
  function Literals(t: Template): (lits: seq<string>)
    ensures |lits| == |Holes(t)| + 1
  {
    match t
    case Tail(text) => [text]
    case Hole(before, _, after) => [before] + Literals(after)
  }

  // ---------------------------------------------------------------- references

  /** `name.field` of one placeholder, trimmed; `None` when it has no dot. */
  function Reference(raw: string): Option<(string, string)> {
    match SplitOnce(Trim(raw), '.')
    case None => None
    case Some((name, field)) => Some((Trim(name), Trim(field)))
  }

  /** The references of the dotted placeholders, in order; undotted ones are passed over. */
  function References(t: Template): seq<(string, string)> {
    match t
    case Tail(_) => []
    case Hole(_, raw, after) => ReferenceOf(raw) + References(after)
  }

  function ReferenceOf(raw: string): seq<(string, string)> {
    match Reference(raw)
    case None => []
    case Some(ref) => [ref]
  }

  /** The names of the tasks whose output the references ask for. */
  function Names(t: Template): seq<string> {
    match t
    case Tail(_) => []
    case Hole(_, raw, after) => NameOf(raw) + Names(after)
  }

  function NameOf(raw: string): seq<string> {
    match Reference(raw)
    case None => []
    case Some((name, _)) => [name]
  }

  predicate AllDotted(prompt: string) {
    forall raw :: raw in Holes(Parse(prompt)) ==> Reference(raw).Some?
  }

  /** The first placeholder exists and has a dot. */
  predicate FirstDotted(prompt: string) {
    Holes(Parse(prompt)) != [] && Reference(Holes(Parse(prompt))[0]).Some?
  }

  lemma {:induction false} ReferencesAreHoles(t: Template, ref: (string, string))
    ensures ref in References(t) <==> exists raw :: raw in Holes(t) && Reference(raw) == Some(ref)
    decreases t
  {
    match t
    case Tail(_) =>
    case Hole(_, raw, after) =>
      ReferencesAreHoles(after, ref);
      assert forall r :: r in Holes(t) <==> r == raw || r in Holes(after);
      assert ref in References(t) <==> Reference(raw) == Some(ref) || ref in References(after);
  }

  lemma {:induction false} NamesAreReferences(t: Template)
    ensures |Names(t)| == |References(t)| && forall k :: 0 <= k < |Names(t)| ==> Names(t)[k] == References(t)[k].0
    decreases t
  {
    match t
    case Tail(_) =>
    case Hole(_, raw, after) =>
      NamesAreReferences(after);
  }

  /** When every placeholder is dotted, validation sees one reference per placeholder, the k-th for the k-th. */
  lemma {:induction false} DottedReferences(t: Template, k: nat)
    requires forall raw :: raw in Holes(t) ==> Reference(raw).Some?
    ensures |References(t)| == |Holes(t)|
    ensures k < |Holes(t)| ==> Reference(Holes(t)[k]) == Some(References(t)[k])
    decreases t
  {
    match t
    case Tail(_) =>
    case Hole(_, raw, after) =>
      assert Holes(t)[0] == raw;
      forall r | r in Holes(after) ensures r in Holes(t) {
        assert Holes(t) == [raw] + Holes(after);
      }
      DottedReferences(after, if k > 0 then k - 1 else 0);
  }

  /** The scan's variables: the references so far, and what remains. */
  ghost predicate Extracting(prompt: string, refs: seq<(string, string)>, remaining: string) {
    References(Parse(prompt)) == refs + References(Parse(remaining))
  }

  lemma ExtractStarts(prompt: string)
    ensures Extracting(prompt, [], prompt)
  {
    EmptyPrefix(References(Parse(prompt)));
  }

  lemma {:induction false} ExtractStep(
    prompt: string, refs: seq<(string, string)>, s: string, before: string, raw: string, rest: string)
    requires NextIn(s) == Closed(before, raw, rest) && Extracting(prompt, refs, s)
    ensures Extracting(prompt, refs + ReferenceOf(raw), rest)
  {
    NextParses(s);
    Assoc(refs, ReferenceOf(raw), References(Parse(rest)));
  }

  lemma ExtractStops(prompt: string, refs: seq<(string, string)>, s: string)
    requires !NextIn(s).Closed? && Extracting(prompt, refs, s)
    ensures refs == References(Parse(prompt))
  {
    NextParses(s);
  }

  /** `extract_template_refs`: the validator's scan. */
  method ExtractTemplateRefs(prompt: string) returns (refs: seq<(string, string)>)
    ensures refs == References(Parse(prompt))
  {
    refs := [];
    var remaining := prompt;
    var next := NextIn(remaining);
    ExtractStarts(prompt);
    while next.Closed?
      invariant next == NextIn(remaining) && Extracting(prompt, refs, remaining)
      decreases |remaining|
    {
      ExtractStep(prompt, refs, remaining, next.before, next.raw, next.rest);
      var found := SplitDotted(next.raw);
      refs := refs + found;
      remaining := next.rest;
      next := NextIn(remaining);
    }
    ExtractStops(prompt, refs, remaining);
  }

  /** The part of the loop body that reads one placeholder. */
  method SplitDotted(raw: string) returns (refs: seq<(string, string)>)
    ensures refs == ReferenceOf(raw)
  {
    var placeholder := Trim(raw);
    var cut := SplitOnce(placeholder, '.');
    refs := [];
    if cut.Some? {
      refs := [(Trim(cut.value.0), Trim(cut.value.1))];
    }
  }

  // ---------------------------------------------------------------- expansion

  /** Where an attempt's stdout is logged. */
  type LogPath = string

  const MAX_CAPTURED_OUTPUT: nat := 32 * 1024
  const TRUNCATION_NOTICE: string := "\n... (truncated, output exceeded 32KB)"

  /** The captured part of a log; `None` where `String::truncate` panics inside a character. */
  function Cap(content: string): Option<string> {
    if ByteLen(content) <= MAX_CAPTURED_OUTPUT then Some(content)
    else
      match TruncateAt(content, MAX_CAPTURED_OUTPUT)
      case None => None
      case Some(kept) => Some(kept + TRUNCATION_NOTICE)
  }

  /** Capturing panics exactly on an oversized log with no character boundary at byte 32768. */
  lemma CapPanicsIff(content: string)
    ensures Cap(content).None? <==> CutsCharacter(content, MAX_CAPTURED_OUTPUT)
  {
    if ByteLen(content) > MAX_CAPTURED_OUTPUT {
      TruncateFailsIff(content, MAX_CAPTURED_OUTPUT);
    }
  }

  /** Such logs exist, ending in a newline as every log does: 32767 ASCII characters and a two-byte one before it. */
  lemma OversizedLogPanics() returns (content: string)
    ensures Cap(content).None? && content[|content| - 1..] == "\n"
  {
    content := WideCharacterCuts(MAX_CAPTURED_OUTPUT, "\n");
    CapPanicsIff(content);
  }

  datatype TemplateError =
    | InvalidTemplate(placeholder: string)
    | UnsupportedField(field: string, placeholder: string)
    | NoStdout(task: string)
    | ReadFailed(task: string)
    | CapturePanicked(task: string) // no error value: the process aborts

  /** What one placeholder is replaced by. */
  function Resolve(raw: string, outputs: map<string, LogPath>, read: LogPath -> Option<string>)
    : Result<string, TemplateError>
  {
    match Reference(raw)
    case None => Err(InvalidTemplate(Trim(raw)))
    case Some((name, field)) =>
      if field != "stdout" then Err(UnsupportedField(field, Trim(raw)))
      else if name !in outputs then Err(NoStdout(name))
      else
        match read(outputs[name])
        case None => Err(ReadFailed(name))
        case Some(content) =>
          match Cap(content)
          case None => Err(CapturePanicked(name))
          case Some(kept) => Ok(Trim(kept))
  }

  /** The expansion of a whole template: the first hole that does not resolve decides. */
  function Expand(t: Template, outputs: map<string, LogPath>, read: LogPath -> Option<string>)
    : Result<string, TemplateError>
  {
    match t
    case Tail(text) => Ok(text)
    case Hole(before, raw, after) =>
      match Resolve(raw, outputs, read)
      case Err(e) => Err(e)
      case Ok(output) => Prepend(before + output, Expand(after, outputs, read))
  }

  function Prepend(prefix: string, r: Result<string, TemplateError>): Result<string, TemplateError> {
    match r
    case Ok(text) => Ok(prefix + text)
    case Err(e) => Err(e)
  }

  /** Literal segments and outputs, taken alternately. */
  function Weave(lits: seq<string>, outs: seq<string>): string
    requires |lits| == |outs| + 1
  {
    if outs == [] then lits[0] else lits[0] + outs[0] + Weave(lits[1..], outs[1..])
  }

  /** Success means exactly that every placeholder resolves. */
  lemma {:induction false} ExpandOkIff(
    t: Template, outputs: map<string, LogPath>, read: LogPath -> Option<string>)
    ensures Expand(t, outputs, read).Ok? <==>
      forall raw :: raw in Holes(t) ==> Resolve(raw, outputs, read).Ok?
    decreases t
  {
    match t
    case Tail(_) =>
    case Hole(_, raw, after) =>
      ExpandOkIff(after, outputs, read);
      assert forall r :: r in Holes(t) <==> r == raw || r in Holes(after);
  }

  predicate ResolvesAt(t: Template, k: nat, outputs: map<string, LogPath>, read: LogPath -> Option<string>)
    requires k < |Holes(t)|
  {
    Resolve(Holes(t)[k], outputs, read).Ok?
  }

  /** Expansion by any way to replace a placeholder. */
  function ExpandWith(t: Template, resolve: string -> Result<string, TemplateError>): Result<string, TemplateError> {
    match t
    case Tail(text) => Ok(text)
    case Hole(before, raw, after) =>
      match resolve(raw)
      case Err(e) => Err(e)
      case Ok(output) => Prepend(before + output, ExpandWith(after, resolve))
  }

  function Resolver(outputs: map<string, LogPath>, read: LogPath -> Option<string>): string -> Result<string, TemplateError> {
    raw => Resolve(raw, outputs, read)
  }

  lemma {:induction false} ExpandIsExpandWith(t: Template, outputs: map<string, LogPath>, read: LogPath -> Option<string>)
    ensures Expand(t, outputs, read) == ExpandWith(t, Resolver(outputs, read))
    decreases t
  {
    if t.Hole? {
      ExpandIsExpandWith(t.after, outputs, read);
      assert Resolver(outputs, read)(t.raw) == Resolve(t.raw, outputs, read);
    }
  }

  lemma HoleShift(t: Template, k: nat)
    requires t.Hole? && k < |Holes(t.after)|
    ensures k + 1 < |Holes(t)| && Holes(t)[k + 1] == Holes(t.after)[k]
  {}

  lemma FirstHole(t: Template)
    requires t.Hole?
    ensures |Holes(t)| > 0 && Holes(t)[0] == t.raw
  {}

  lemma {:induction false} FirstFailure(t: Template, resolve: string -> Result<string, TemplateError>) returns (k: nat)
    requires ExpandWith(t, resolve).Err?
    ensures k < |Holes(t)| && ExpandWith(t, resolve) == resolve(Holes(t)[k])
    ensures forall j :: 0 <= j < k ==> resolve(Holes(t)[j]).Ok?
    decreases t
  {
    FirstHole(t);
    k := 0;
    if resolve(t.raw).Ok? {
      var next := FirstFailure(t.after, resolve);
      HoleShift(t, next);
      k := next + 1;
      forall j | 0 < j < k ensures resolve(Holes(t)[j]).Ok? {
        HoleShift(t, j - 1);
      }
    }
  }

  /** Failure is the error of the first placeholder that does not resolve. */
  lemma {:induction false} ExpandErrIsFirst(
    t: Template, outputs: map<string, LogPath>, read: LogPath -> Option<string>) returns (k: nat)
    requires Expand(t, outputs, read).Err?
    ensures k < |Holes(t)| && Expand(t, outputs, read) == Resolve(Holes(t)[k], outputs, read)
    ensures forall j :: 0 <= j < k ==> ResolvesAt(t, j, outputs, read)
  {
    ExpandIsExpandWith(t, outputs, read);
    k := FirstFailure(t, Resolver(outputs, read));
    assert Resolver(outputs, read)(Holes(t)[k]) == Resolve(Holes(t)[k], outputs, read);
    forall j | 0 <= j < k ensures ResolvesAt(t, j, outputs, read) {
      assert Resolver(outputs, read)(Holes(t)[j]) == Resolve(Holes(t)[j], outputs, read);
    }
  }

  /** A placeholder for the stdout of a task whose log is read and cannot be cut. */
  ghost predicate HolePanics(raw: string, outputs: map<string, LogPath>, read: LogPath -> Option<string>) {
    match Reference(raw)
    case None => false
    case Some((name, field)) =>
      field == "stdout" && name in outputs && read(outputs[name]).Some?
      && CutsCharacter(read(outputs[name]).value, MAX_CAPTURED_OUTPUT)
  }

  /** Expansion panics exactly at such a placeholder, if those before it resolve. */
  lemma {:induction false} ExpandPanicsIff(
    t: Template, outputs: map<string, LogPath>, read: LogPath -> Option<string>)
    ensures Expand(t, outputs, read).Err? && Expand(t, outputs, read).error.CapturePanicked? <==>
      exists k :: 0 <= k < |Holes(t)| && HolePanics(Holes(t)[k], outputs, read)
        && forall j :: 0 <= j < k ==> ResolvesAt(t, j, outputs, read)
  {
    if Expand(t, outputs, read).Err? {
      var e := ExpandErrIsFirst(t, outputs, read);
      HolePanicsIff(Holes(t)[e], outputs, read);
      forall k | 0 <= k < |Holes(t)| && HolePanics(Holes(t)[k], outputs, read)
        && forall j :: 0 <= j < k ==> ResolvesAt(t, j, outputs, read)
        ensures k == e
      {
        HolePanicsIff(Holes(t)[k], outputs, read);
        OneFirstFailure(t, k, e, outputs, read);
      }
    } else {
      ExpandOkIff(t, outputs, read);
      forall k | 0 <= k < |Holes(t)| ensures !HolePanics(Holes(t)[k], outputs, read) {
        assert Holes(t)[k] in Holes(t);
        HolePanicsIff(Holes(t)[k], outputs, read);
      }
    }
  }

  /** An expansion that panics got past the first placeholder's dot. */
  lemma {:induction false} PanicNeedsDot(prompt: string, outputs: map<string, LogPath>, read: LogPath -> Option<string>)
    requires Expand(Parse(prompt), outputs, read).Err? && Expand(Parse(prompt), outputs, read).error.CapturePanicked?
    ensures FirstDotted(prompt)
  {
    var k := ExpandErrIsFirst(Parse(prompt), outputs, read);
    assert k > 0 ==> ResolvesAt(Parse(prompt), 0, outputs, read);
  }

  lemma OneFirstFailure(t: Template, k: nat, e: nat, outputs: map<string, LogPath>, read: LogPath -> Option<string>)
    requires k < |Holes(t)| && !ResolvesAt(t, k, outputs, read) && forall j :: 0 <= j < k ==> ResolvesAt(t, j, outputs, read)
    requires e < |Holes(t)| && !ResolvesAt(t, e, outputs, read) && forall j :: 0 <= j < e ==> ResolvesAt(t, j, outputs, read)
    ensures k == e
  {}

  lemma {:induction false} HolePanicsIff(raw: string, outputs: map<string, LogPath>, read: LogPath -> Option<string>)
    ensures HolePanics(raw, outputs, read) <==>
      Resolve(raw, outputs, read).Err? && Resolve(raw, outputs, read).error.CapturePanicked?
  {
    if Reference(raw).Some? && Reference(raw).value.0 in outputs {
      var content := read(outputs[Reference(raw).value.0]);
      if content.Some? {
        CapPanicsIff(content.value);
      }
    }
  }

  /** What the holes are replaced by, in order. */
  function Outputs(t: Template, outputs: map<string, LogPath>, read: LogPath -> Option<string>): (outs: seq<string>)
    ensures |outs| == |Holes(t)|
  {
    match t
    case Tail(_) => []
    case Hole(_, raw, after) =>
      var r := Resolve(raw, outputs, read);
      [if r.Ok? then r.value else ""] + Outputs(after, outputs, read)
  }

  /**
   The expanded prompt is the literal segments woven with the outputs, in one pass: an output
   is never scanned again, whatever braces it contains.
   */
  lemma {:induction false} ExpandIsOnePass(
    t: Template, outputs: map<string, LogPath>, read: LogPath -> Option<string>)
    requires Expand(t, outputs, read).Ok?
    ensures Expand(t, outputs, read).value == Weave(Literals(t), Outputs(t, outputs, read))
    decreases t
  {
    match t
    case Tail(_) =>
    case Hole(before, raw, after) =>
      ExpandIsOnePass(after, outputs, read);
      var lits, outs := Literals(t), Outputs(t, outputs, read);
      assert lits[1..] == Literals(after) && outs[1..] == Outputs(after, outputs, read);
  }

  /** A hole whose opening braces are never closed contributes nothing but its text. */
  lemma UnclosedIsLiteral(s: string)
    requires FindPair(s, '}').None?
    ensures Parse(s) == Tail(s)
  {
    FindPairIsFirst(s, '}');
    if i :| FindPair(s, '{') == Some(i) {
      var after := s[i + 2..];
      FindPairIsFirst(after, '}');
      if j :| FindPair(after, '}') == Some(j) {
        assert PairAt(s, '}', i + 2 + j);
      }
    }
  }

  /** The scan's variables: what is expanded so far, and what remains. */
  ghost predicate Expanding(
    prompt: string, result: string, remaining: string, outputs: map<string, LogPath>, read: LogPath -> Option<string>)
  {
    Expand(Parse(prompt), outputs, read) == Prepend(result, Expand(Parse(remaining), outputs, read))
  }

  /** And the names looked up so far. */
  ghost predicate Looked(prompt: string, lookups: seq<string>, remaining: string) {
    Names(Parse(prompt)) == lookups + Names(Parse(remaining))
  }

  lemma EmptyPrefix<T>(s: seq<T>)
    ensures [] + s == s
  {}

  lemma {:induction false} LookedStarts(prompt: string)
    ensures Looked(prompt, [], prompt)
  {
    EmptyPrefix(Names(Parse(prompt)));
  }

  lemma {:induction false} ExpandingStarts(prompt: string, outputs: map<string, LogPath>, read: LogPath -> Option<string>)
    ensures Expanding(prompt, "", prompt, outputs, read)
  {
    PrependEmpty(Expand(Parse(prompt), outputs, read));
  }

  /** One step of the scan replaces a placeholder, or fails with its error. */
  lemma {:induction false} ExpandStep(
    prompt: string, result: string, s: string, before: string, raw: string, rest: string,
    outputs: map<string, LogPath>, read: LogPath -> Option<string>)
    requires NextIn(s) == Closed(before, raw, rest) && Expanding(prompt, result, s, outputs, read)
    ensures var r := Resolve(raw, outputs, read);
      && (r.Err? ==> Expand(Parse(prompt), outputs, read) == r)
      && (r.Ok? ==> Expanding(prompt, result + before + r.value, rest, outputs, read))
  {
    NextParses(s);
    var r := Resolve(raw, outputs, read);
    if r.Ok? {
      PrependTwice(result, before, r.value, Expand(Parse(rest), outputs, read));
    }
  }

  lemma {:induction false} LookStep(
    prompt: string, lookups: seq<string>, s: string, before: string, raw: string, rest: string, looked: seq<string>)
    requires NextIn(s) == Closed(before, raw, rest) && Looked(prompt, lookups, s) && looked <= NameOf(raw)
    ensures lookups + looked <= Names(Parse(prompt))
    ensures looked == NameOf(raw) ==> Looked(prompt, lookups + looked, rest)
  {
    NextParses(s);
    Assoc(lookups, NameOf(raw), Names(Parse(rest)));
  }

  /** An unclosed pair is copied, and the scan goes on behind it to find nothing more. */
  lemma {:induction false} UnclosedStaysLiteral(
    prompt: string, result: string, lookups: seq<string>, s: string, before: string, after: string,
    outputs: map<string, LogPath>, read: LogPath -> Option<string>)
    requires NextIn(s) == Unclosed(before, after)
    requires Expanding(prompt, result, s, outputs, read) && Looked(prompt, lookups, s)
    ensures Expanding(prompt, result + before + "{{", after, outputs, read) && Looked(prompt, lookups, after)
  {
    NextParses(s);
    UnclosedIsLiteral(after);
    FirstPairCuts(s, '{', |before|);
    Reassociate(result, before, "{{", after);
  }

  lemma Reassociate(a: string, b: string, c: string, d: string)
    ensures a + (b + c + d) == a + b + c + d
  {}

  lemma {:induction false} ExpandStops(
    prompt: string, result: string, lookups: seq<string>, s: string,
    outputs: map<string, LogPath>, read: LogPath -> Option<string>)
    requires NextIn(s).NoOpening? && Expanding(prompt, result, s, outputs, read) && Looked(prompt, lookups, s)
    ensures Expand(Parse(prompt), outputs, read) == Ok(result + s)
    ensures lookups == Names(Parse(prompt))
  {
    NextParses(s);
  }

  /**
   `expand_prompt_templates`. The ghost result lists the names looked up: a prefix of the
   names validation saw, and all of them when the expansion succeeds.
   */
  method ExpandPromptTemplates(prompt: string, outputs: map<string, LogPath>, read: LogPath -> Option<string>)
    returns (r: Result<string, TemplateError>, ghost lookups: seq<string>)
    ensures r == Expand(Parse(prompt), outputs, read)
    ensures lookups <= Names(Parse(prompt))
    ensures r.Ok? ==> lookups == Names(Parse(prompt))
  {
    var result := "";
    var remaining := prompt;
    lookups := [];
    ExpandingStarts(prompt, outputs, read);
    LookedStarts(prompt);
    var next := NextIn(remaining);
    while !next.NoOpening?
      invariant next == NextIn(remaining)
      invariant Expanding(prompt, result, remaining, outputs, read)
      invariant Looked(prompt, lookups, remaining)
      decreases |remaining|
    {
      match next {
        case Unclosed(before, after) =>
          UnclosedStaysLiteral(prompt, result, lookups, remaining, before, after, outputs, read);
          result := result + before + "{{";
          remaining := after;
        case Closed(before, raw, rest) =>
          ExpandStep(prompt, result, remaining, before, raw, rest, outputs, read);
          var output, looked := ResolvePlaceholder(raw, outputs, read);
          LookStep(prompt, lookups, remaining, before, raw, rest, looked);
          lookups := lookups + looked;
          if output.Err? {
            return output, lookups;
          }
          remaining := rest;
          result := result + before + output.value;
      }
      next := NextIn(remaining);
    }
    ExpandStops(prompt, result, lookups, remaining, outputs, read);
    r := Ok(result + remaining);
  }

  /** The part of the loop body that replaces one placeholder; the ghost result is the name looked up, if any. */
  method ResolvePlaceholder(raw: string, outputs: map<string, LogPath>, read: LogPath -> Option<string>)
    returns (r: Result<string, TemplateError>, ghost looked: seq<string>)
    ensures r == Resolve(raw, outputs, read)
    ensures looked <= NameOf(raw) && (r.Ok? ==> looked == NameOf(raw))
  {
    looked := [];
    var placeholder := Trim(raw);
    var cut := SplitOnce(placeholder, '.');
    if cut.None? {
      return Err(InvalidTemplate(placeholder)), looked;
    }
    var name, field := Trim(cut.value.0), Trim(cut.value.1);
    if field != "stdout" {
      return Err(UnsupportedField(field, placeholder)), looked;
    }
    looked := [name];
    if name !in outputs {
      return Err(NoStdout(name)), looked;
    }
    var content := read(outputs[name]);
    if content.None? {
      return Err(ReadFailed(name)), looked;
    }
    var kept := Cap(content.value);
    if kept.None? {
      return Err(CapturePanicked(name)), looked;
    }
    r := Ok(Trim(kept.value));
  }

  lemma PrependEmpty(r: Result<string, TemplateError>)
    ensures Prepend("", r) == r
  {
    if r.Ok? {
      assert "" + r.value == r.value;
    }
  }

  lemma PrependTwice(a: string, b: string, c: string, r: Result<string, TemplateError>)
    ensures Prepend(a, Prepend(b + c, r)) == Prepend(a + b + c, r)
  {
    if r.Ok? {
      assert a + (b + c + r.value) == a + b + c + r.value;
    }
  }

  /** The scanners disagree on one thing only: an undotted placeholder, which never expands. */
  lemma UndottedNeverExpands(prompt: string, outputs: map<string, LogPath>, read: LogPath -> Option<string>)
    requires !AllDotted(prompt)
    ensures Expand(Parse(prompt), outputs, read).Err?
  {
    var raw :| raw in Holes(Parse(prompt)) && Reference(raw).None?;
    assert Resolve(raw, outputs, read).Err?;
    ExpandOkIff(Parse(prompt), outputs, read);
  }
}
