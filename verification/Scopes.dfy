/** Capability scopes, `<resource>.<verb>:<qualifier>` (src/access/scope.rs). */
module Scopes {
  import opened Options
  import opened Spellings
  import opened Text

  datatype Scope =
    | ProjectQuery(qualifier: string)
    | ProjectDocs(qualifier: string)
    | FleetRead(qualifier: string)
    | HiveRead(qualifier: string)
    | HiveJoin(qualifier: string)
    | CredentialUse(qualifier: string)

  function Verb(s: Scope): string {
    match s
    case ProjectQuery(_) => "project.query"
    case ProjectDocs(_) => "project.docs"
    case FleetRead(_) => "fleet.read"
    case HiveRead(_) => "hive.read"
    case HiveJoin(_) => "hive.join"
    case CredentialUse(_) => "credential.use"
  }

  /** The `Display` form, which is what a grant file stores and what the MAC covers. */
  function Render(s: Scope): string {
    Verb(s) + [':'] + s.qualifier
  }

  const MAX_QUALIFIER_LEN: nat := 128

  predicate Alphanumeric(c: char) {
    'a' <= c <= 'z' || 'A' <= c <= 'Z' || '0' <= c <= '9'
  }

  predicate QualifierChar(c: char) {
    Alphanumeric(c) || c == '-' || c == '_' || c == '.'
  }

  datatype ScopeError =
    | EmptyScope
    | EmptyQualifier
    | QualifierTooLong
    | BadQualifierChar
    | DotDot
    | UnknownVerb(verb: string)
    | MissingQualifier

  predicate AllQualifierChars(q: string) {
    forall k :: 0 <= k < |q| ==> QualifierChar(q[k])
  }

  /** `validate_qualifier`: the first check that fails, if any. */
  function QualifierError(q: string): Option<ScopeError> {
    if q == "" then Some(EmptyQualifier)
    else if ByteLen(q) > MAX_QUALIFIER_LEN then Some(QualifierTooLong)
    else if !AllQualifierChars(q) then Some(BadQualifierChar)
    else if FindPair(q, '.').Some? then Some(DotDot)
    else None
  }

  predicate ValidScope(s: Scope) {
    QualifierError(s.qualifier).None?
  }

  /** `from_verb_and_qualifier`. */
  function FromVerb(verb: string, q: string): Result<Scope, ScopeError> {
    match QualifierError(q)
    case Some(e) => Err(e)
    case None =>
      if verb == "project.query" then Ok(ProjectQuery(q))
      else if verb == "project.docs" then Ok(ProjectDocs(q))
      else if verb == "fleet.read" then Ok(FleetRead(q))
      else if verb == "hive.read" then Ok(HiveRead(q))
      else if verb == "hive.join" then Ok(HiveJoin(q))
      else if verb == "credential.use" then Ok(CredentialUse(q))
      else Err(UnknownVerb(verb))
  }

  /** `parse_with_default`. */
  function ParseScope(text: string, defaultQualifier: Option<string>): Result<Scope, ScopeError> {
    var t := Trim(text);
    if t == "" then Err(EmptyScope)
    else
      match SplitOnce(t, ':')
      case Some((verb, q)) => FromVerb(Trim(verb), Trim(q))
      case None => if defaultQualifier.Some? then FromVerb(t, defaultQualifier.value) else Err(MissingQualifier)
  }

  // ---------------------------------------------------------------- properties

  lemma VerbPlain(s: Scope)
    ensures Verb(s) != "" && forall k :: 0 <= k < |Verb(s)| ==> 'a' <= Verb(s)[k] <= 'z' || Verb(s)[k] == '.'
  {}

  lemma FromVerbOfScope(s: Scope)
    requires ValidScope(s)
    ensures FromVerb(Verb(s), s.qualifier) == Ok(s)
  {}

  /** A rendered scope has no whitespace, so trimming and line splitting leave it whole. */
  lemma {:induction false} RenderPlain(s: Scope)
    requires ValidScope(s)
    ensures Render(s) != "" && forall k :: 0 <= k < |Render(s)| ==> !IsWhitespace(Render(s)[k])
  {
    VerbPlain(s);
    var r := Render(s);
    forall k | 0 <= k < |r| ensures !IsWhitespace(r[k]) {
      if k < |Verb(s)| {
        assert r[k] == Verb(s)[k];
      } else if k > |Verb(s)| {
        assert r[k] == s.qualifier[k - |Verb(s)| - 1];
        assert QualifierChar(r[k]);
      }
    }
  }

  lemma PlainTrims(s: string)
    requires forall k :: 0 <= k < |s| ==> !IsWhitespace(s[k])
    ensures Trim(s) == s
  {
    TrimIsIdentity(s);
  }

  lemma {:induction false} ParsePieces(verb: string, q: string, defaultQualifier: Option<string>)
    requires ':' !in verb
    requires forall k :: 0 <= k < |verb| ==> !IsWhitespace(verb[k])
    requires forall k :: 0 <= k < |q| ==> !IsWhitespace(q[k])
    ensures ParseScope(verb + [':'] + q, defaultQualifier) == FromVerb(verb, q)
  {
    var t := verb + [':'] + q;
    forall k | 0 <= k < |t| ensures !IsWhitespace(t[k]) {
      if k > |verb| {
        assert t[k] == q[k - |verb| - 1];
      }
    }
    PlainTrims(t);
    PlainTrims(verb);
    PlainTrims(q);
    SplitOnceUnique(verb, ':', q);
  }

  /** Parsing inverts rendering. */
  lemma {:induction false} ParseInvertsRender(s: Scope, defaultQualifier: Option<string>)
    requires ValidScope(s)
    ensures ParseScope(Render(s), defaultQualifier) == Ok(s)
  {
    VerbPlain(s);
    forall k | 0 <= k < |s.qualifier| ensures !IsWhitespace(s.qualifier[k]) {
      assert QualifierChar(s.qualifier[k]);
    }
    ParsePieces(Verb(s), s.qualifier, defaultQualifier);
    FromVerbOfScope(s);
  }

  lemma FromVerbIsValid(verb: string, q: string)
    ensures FromVerb(verb, q).Ok? ==> ValidScope(FromVerb(verb, q).value)
  {}

  /** Whatever is accepted is a valid scope, so parsing normalises: its rendering parses to it again. */
  lemma {:induction false} ParsedIsValid(text: string, defaultQualifier: Option<string>)
    ensures ParseScope(text, defaultQualifier).Ok? ==>
      && ValidScope(ParseScope(text, defaultQualifier).value)
      && ParseScope(Render(ParseScope(text, defaultQualifier).value), None) == ParseScope(text, defaultQualifier)
  {
    var r := ParseScope(text, defaultQualifier);
    if r.Ok? {
      var cut := SplitOnce(Trim(text), ':');
      if cut.Some? {
        FromVerbIsValid(Trim(cut.value.0), Trim(cut.value.1));
      } else {
        FromVerbIsValid(Trim(text), defaultQualifier.value);
      }
      ParseInvertsRender(r.value, None);
    }
  }

  /** Rendering is injective on valid scopes. */
  lemma {:induction false} RenderInjective(a: Scope, b: Scope)
    requires ValidScope(a) && ValidScope(b) && Render(a) == Render(b)
    ensures a == b
  {
    ParseInvertsRender(a, None);
    ParseInvertsRender(b, None);
  }

  // ---------------------------------------------------------------- what is accepted, spelled out

  /** Letters, digits, dashes, underscores and dots. */
  predicate PlainQualifier(q: string) {
    forall k :: 0 <= k < |q| ==> 'a' <= q[k] <= 'z' || 'A' <= q[k] <= 'Z' || '0' <= q[k] <= '9' || q[k] in "-_."
  }

  predicate HasDotDot(q: string) {
    exists k :: 0 <= k < |q| - 1 && q[k] == q[k + 1] == '.'
  }

  predicate GoodQualifier(q: string) {
    1 <= |q| <= 128 && PlainQualifier(q) && !HasDotDot(q)
  }

  lemma {:induction false} DotDotIff(q: string)
    ensures FindPair(q, '.').Some? <==> HasDotDot(q)
  {
    FindPairIsFirst(q, '.');
    if k :| 0 <= k < |q| - 1 && q[k] == q[k + 1] == '.' {
      assert PairAt(q, '.', k);
    }
  }

  lemma {:induction false} PlainIsShort(q: string)
    ensures PlainQualifier(q) ==> ByteLen(q) == |q|
    ensures PlainQualifier(q) <==> AllQualifierChars(q)
  {
    if PlainQualifier(q) {
      AsciiByteLen(q);
    }
  }

  /** A qualifier is accepted iff it has 1 to 128 of those characters and no two dots in a row. */
  lemma {:induction false} ValidScopeIff(s: Scope)
    ensures ValidScope(s) <==> GoodQualifier(s.qualifier)
  {
    DotDotIff(s.qualifier);
    PlainIsShort(s.qualifier);
  }

  /** The text gives this verb and qualifier, with a colon between them, or as a bare verb for the default qualifier. */
  ghost predicate Gives(text: string, defaultQualifier: Option<string>, verb: string, q: string) {
    || SpelledApart(text, ':', verb, q)
    || (':' !in text && verb == Trim(text) != "" && defaultQualifier == Some(q))
  }

  lemma {:induction false} BlankTrims(s: string)
    ensures Blank(s) <==> Trim(s) == ""
  {
    var a, b := TrimParts(s);
  }

  lemma {:induction false} GivesIs(text: string, defaultQualifier: Option<string>, verb: string, q: string)
    requires Gives(text, defaultQualifier, verb, q)
    ensures ParseScope(text, defaultQualifier) == FromVerb(verb, q)
  {
    CutIsSpelling(text, ':', verb, q);
    BlankTrims(text);
    if SpelledApart(text, ':', verb, q) {
      assert ':' in text && !Blank(text);
    }
  }

  lemma {:induction false} SomethingGiven(text: string, defaultQualifier: Option<string>)
    requires !Blank(text) && (':' in text || defaultQualifier.Some?)
    ensures exists verb, q :: Gives(text, defaultQualifier, verb, q)
  {
    BlankTrims(text);
    var cut := SplitOnce(Trim(text), ':');
    CutIsSpelling(text, ':', "", "");
    if cut.Some? {
      CutIsSpelling(text, ':', Trim(cut.value.0), Trim(cut.value.1));
      assert Gives(text, defaultQualifier, Trim(cut.value.0), Trim(cut.value.1));
    } else {
      assert Gives(text, defaultQualifier, Trim(text), defaultQualifier.value);
    }
  }

  lemma FromVerbErrors(verb: string, q: string)
    ensures FromVerb(verb, q) != Err(EmptyScope) && FromVerb(verb, q) != Err(MissingQualifier)
  {}

  lemma {:induction false} NothingGiven(text: string, defaultQualifier: Option<string>)
    ensures ParseScope(text, defaultQualifier) == Err(EmptyScope) <==> Blank(text)
    ensures ParseScope(text, defaultQualifier) == Err(MissingQualifier) <==>
      !Blank(text) && ':' !in text && defaultQualifier.None?
    ensures Blank(text) || (':' !in text && defaultQualifier.None?)
      || exists verb, q :: Gives(text, defaultQualifier, verb, q)
  {
    BlankTrims(text);
    CutIsSpelling(text, ':', "", "");
    if !Blank(text) && (':' in text || defaultQualifier.Some?) {
      SomethingGiven(text, defaultQualifier);
      var verb, q :| Gives(text, defaultQualifier, verb, q);
      GivesIs(text, defaultQualifier, verb, q);
      FromVerbErrors(verb, q);
    }
  }

  /**
   A text is read as a scope iff it spells the scope's verb and qualifier apart by a colon, or is the
   bare verb and the qualifier is the default one, and the qualifier is a good one.
   */
  lemma {:induction false} ParsesIff(text: string, defaultQualifier: Option<string>, s: Scope)
    ensures ParseScope(text, defaultQualifier) == Ok(s) <==>
      GoodQualifier(s.qualifier) && Gives(text, defaultQualifier, Verb(s), s.qualifier)
  {
    ValidScopeIff(s);
    NothingGiven(text, defaultQualifier);
    if Gives(text, defaultQualifier, Verb(s), s.qualifier) {
      GivesIs(text, defaultQualifier, Verb(s), s.qualifier);
      if ValidScope(s) {
        FromVerbOfScope(s);
      }
    }
    if ParseScope(text, defaultQualifier) == Ok(s) {
      var verb, q :| Gives(text, defaultQualifier, verb, q);
      GivesIs(text, defaultQualifier, verb, q);
      FromVerbIs(verb, q, s);
    }
  }

  lemma FromVerbIs(verb: string, q: string, s: Scope)
    requires FromVerb(verb, q) == Ok(s)
    ensures verb == Verb(s) && q == s.qualifier && ValidScope(s)
  {}

  /** Why a text is refused: the qualifier is looked at first, and in this order. */
  ghost predicate Refuses(text: string, defaultQualifier: Option<string>, e: ScopeError) {
    match e
    case EmptyScope => Blank(text)
    case MissingQualifier => !Blank(text) && ':' !in text && defaultQualifier.None?
    case EmptyQualifier => exists verb :: Gives(text, defaultQualifier, verb, "")
    case QualifierTooLong => exists verb, q :: Gives(text, defaultQualifier, verb, q) && ByteLen(q) > 128
    case BadQualifierChar =>
      exists verb, q :: Gives(text, defaultQualifier, verb, q) && q != "" && ByteLen(q) <= 128 && !PlainQualifier(q)
    case DotDot =>
      exists verb, q :: Gives(text, defaultQualifier, verb, q) && 1 <= |q| <= 128 && PlainQualifier(q) && HasDotDot(q)
    case UnknownVerb(verb) =>
      && verb !in {"project.query", "project.docs", "fleet.read", "hive.read", "hive.join", "credential.use"}
      && exists q :: Gives(text, defaultQualifier, verb, q) && GoodQualifier(q)
  }

  /** What is wrong with a verb and a qualifier. */
  ghost predicate RefusesParts(verb: string, q: string, e: ScopeError) {
    match e
    case EmptyScope => false
    case MissingQualifier => false
    case EmptyQualifier => q == ""
    case QualifierTooLong => ByteLen(q) > 128
    case BadQualifierChar => q != "" && ByteLen(q) <= 128 && !PlainQualifier(q)
    case DotDot => 1 <= |q| <= 128 && PlainQualifier(q) && HasDotDot(q)
    case UnknownVerb(v) =>
      && v == verb && GoodQualifier(q)
      && verb !in {"project.query", "project.docs", "fleet.read", "hive.read", "hive.join", "credential.use"}
  }

  lemma {:induction false} PartsRefused(verb: string, q: string, e: ScopeError)
    ensures FromVerb(verb, q) == Err(e) <==> RefusesParts(verb, q, e)
  {
    DotDotIff(q);
    PlainIsShort(q);
    assert ByteLen("") == 0;
  }

  lemma {:induction false} RefusesIff(text: string, defaultQualifier: Option<string>, e: ScopeError)
    ensures ParseScope(text, defaultQualifier) == Err(e) <==> Refuses(text, defaultQualifier, e)
  {
    NothingGiven(text, defaultQualifier);
    forall verb, q | Gives(text, defaultQualifier, verb, q)
      ensures ParseScope(text, defaultQualifier) == Err(e) <==> RefusesParts(verb, q, e)
    {
      GivesIs(text, defaultQualifier, verb, q);
      PartsRefused(verb, q, e);
    }
  }

  /** The six verbs, and what each is read as. */
  lemma {:induction false} VerbsAre(q: string, defaultQualifier: Option<string>)
    requires GoodQualifier(q)
    ensures ParseScope("project.query:" + q, defaultQualifier) == Ok(ProjectQuery(q))
    ensures ParseScope("project.docs:" + q, defaultQualifier) == Ok(ProjectDocs(q))
    ensures ParseScope("fleet.read:" + q, defaultQualifier) == Ok(FleetRead(q))
    ensures ParseScope("hive.read:" + q, defaultQualifier) == Ok(HiveRead(q))
    ensures ParseScope("hive.join:" + q, defaultQualifier) == Ok(HiveJoin(q))
    ensures ParseScope("credential.use:" + q, defaultQualifier) == Ok(CredentialUse(q))
  {
    assert "project.query:" + q == Render(ProjectQuery(q)) && "project.docs:" + q == Render(ProjectDocs(q));
    assert "fleet.read:" + q == Render(FleetRead(q)) && "hive.read:" + q == Render(HiveRead(q));
    assert "hive.join:" + q == Render(HiveJoin(q)) && "credential.use:" + q == Render(CredentialUse(q));
    forall s: Scope | s.qualifier == q ensures ParseScope(Render(s), defaultQualifier) == Ok(s) {
      ValidScopeIff(s);
      ParseInvertsRender(s, defaultQualifier);
    }
  }
}
