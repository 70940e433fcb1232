/** Grant ids, the canonical payload a MAC covers, and tokens (src/access/token.rs, src/access/mod.rs). */
module Tokens {
  import opened Options
  import opened Text
  import opened Scopes
  import opened Strings

  // ---------------------------------------------------------------- grant ids

  const MAX_GRANT_ID_LEN: nat := 64

  predicate IdChar(c: char) {
    Alphanumeric(c) || c == '-' || c == '_'
  }

  /** `is_valid_grant_id`. */
  predicate IsValidGrantId(id: string) {
    id != "" && ByteLen(id) <= MAX_GRANT_ID_LEN && FindPair(id, '.').None?
    && forall k :: 0 <= k < |id| ==> IdChar(id[k])
  }

  /**
   An id is valid iff it has 1 to 64 letters, digits, dashes and underscores: the test for two dots in a
   row adds nothing, and length in bytes is length in characters.
   */
  lemma {:induction false} GrantIdIff(id: string)
    ensures IsValidGrantId(id) <==>
      && 1 <= |id| <= 64
      && forall k :: 0 <= k < |id| ==>
           'a' <= id[k] <= 'z' || 'A' <= id[k] <= 'Z' || '0' <= id[k] <= '9' || id[k] in "-_"
  {
    FindPairIsFirst(id, '.');
    if forall k :: 0 <= k < |id| ==> IdChar(id[k]) {
      AsciiByteLen(id);
    }
  }

  // ---------------------------------------------------------------- the canonical payload

  function Renderings(scopes: seq<Scope>): (r: seq<string>)
    ensures |r| == |scopes|
  {
    seq(|scopes|, i requires 0 <= i < |scopes| => Render(scopes[i]))
  }

  /** `canonical_payload`: id, sorted scopes and expiry, all separated by newlines. */
  function CanonicalPayload(id: string, scopes: seq<Scope>, expiresMs: nat): string {
    id + "\n" + Join(Sort(Renderings(scopes))) + "\n" + Decimal(expiresMs)
  }

  ghost predicate ValidScopes(scopes: seq<Scope>) {
    forall i :: 0 <= i < |scopes| ==> ValidScope(scopes[i])
  }

  /** The lines between the id and the expiry: one empty line when there are no scopes. */
  function MiddleLines(scopes: seq<Scope>): seq<string> {
    if scopes == [] then [""] else Sort(Renderings(scopes))
  }

  lemma {:induction false} MiddleIsPlain(scopes: seq<Scope>)
    requires ValidScopes(scopes)
    ensures MiddleLines(scopes) != [] && AllNoNewline(MiddleLines(scopes))
    ensures Join(Sort(Renderings(scopes))) == Join(MiddleLines(scopes))
    ensures scopes != [] ==> forall i :: 0 <= i < |MiddleLines(scopes)| ==> MiddleLines(scopes)[i] != ""
  {
    var r := Renderings(scopes);
    SortKeeps(r);
    if scopes != [] {
      var m := Sort(r);
      assert |m| == |multiset(m)| == |multiset(r)| == |r|;
      forall i | 0 <= i < |m| ensures NoNewline(m[i]) && m[i] != "" {
        assert m[i] in multiset(m);
        assert m[i] in r;
        var k :| 0 <= k < |r| && r[k] == m[i];
        RenderPlain(scopes[k]);
      }
    }
  }

  lemma {:induction false} IdIsPlain(id: string)
    requires IsValidGrantId(id)
    ensures NoNewline(id)
  {
    forall k | 0 <= k < |id| ensures id[k] != '\n' {
      assert IdChar(id[k]);
    }
  }

  /** The payload's lines are exactly its fields. */
  lemma {:induction false} PayloadLines(id: string, scopes: seq<Scope>, expiresMs: nat)
    requires IsValidGrantId(id) && ValidScopes(scopes)
    ensures Lines(CanonicalPayload(id, scopes, expiresMs)) == [id] + MiddleLines(scopes) + [Decimal(expiresMs)]
  {
    IdIsPlain(id);
    MiddleIsPlain(scopes);
    DecimalIsPlain(expiresMs);
    var m, e := MiddleLines(scopes), Decimal(expiresMs);
    JoinAppend(m, e);
    LinesOfJoin([id] + m + [e]);
    JoinPrepend(id, m + [e]);
    assert [id] + (m + [e]) == [id] + m + [e];
    Regroup(id, Join(m), e);
  }

  lemma Regroup(id: string, middle: string, e: string)
    ensures id + "\n" + (middle + "\n" + e) == id + "\n" + middle + "\n" + e
  {}

  /**
   The signed encoding is lossless: two payloads are equal exactly when the ids, the multisets
   of scopes and the expiries are. So the MAC does not depend on the order scopes were given in,
   and on nothing less than the authority itself.
   */
  lemma {:induction false} PayloadLossless(
    id: string, scopes: seq<Scope>, expiresMs: nat, id': string, scopes': seq<Scope>, expiresMs': nat)
    requires IsValidGrantId(id) && ValidScopes(scopes) && IsValidGrantId(id') && ValidScopes(scopes')
    ensures CanonicalPayload(id, scopes, expiresMs) == CanonicalPayload(id', scopes', expiresMs') <==>
      id == id' && multiset(scopes) == multiset(scopes') && expiresMs == expiresMs'
  {
    if CanonicalPayload(id, scopes, expiresMs) == CanonicalPayload(id', scopes', expiresMs') {
      PayloadLines(id, scopes, expiresMs);
      PayloadLines(id', scopes', expiresMs');
      SameFields(id, MiddleLines(scopes), Decimal(expiresMs), id', MiddleLines(scopes'), Decimal(expiresMs'));
      DecimalInjective(expiresMs, expiresMs');
      SameMiddle(scopes, scopes');
    }
    if multiset(scopes) == multiset(scopes') {
      SameScopesSameRenderings(scopes, scopes');
      SortedUnique(Renderings(scopes), Renderings(scopes'));
    }
  }

  lemma {:induction false} SameFields(a: string, m: seq<string>, e: string, a': string, m': seq<string>, e': string)
    requires [a] + m + [e] == [a'] + m' + [e']
    ensures a == a' && m == m' && e == e'
  {
    var s, s' := [a] + m + [e], [a'] + m' + [e'];
    assert s[0] == a && s'[0] == a';
    assert |m| == |m'|;
    assert s[|m| + 1] == e && s'[|m| + 1] == e';
    assert m == s[1..|m| + 1] && m' == s'[1..|m| + 1];
  }

  lemma {:induction false} SameMiddle(scopes: seq<Scope>, scopes': seq<Scope>)
    requires ValidScopes(scopes) && ValidScopes(scopes') && MiddleLines(scopes) == MiddleLines(scopes')
    ensures multiset(scopes) == multiset(scopes')
  {
    MiddleIsPlain(scopes);
    MiddleIsPlain(scopes');
    if scopes != [] && scopes' != [] {
      SortKeeps(Renderings(scopes));
      SortKeeps(Renderings(scopes'));
      SameRenderingsSameScopes(scopes, scopes');
    }
  }

  lemma {:induction false} RenderingsRemoveAt(scopes: seq<Scope>, k: nat)
    requires k < |scopes|
    ensures Renderings(RemoveAt(scopes, k)) == RemoveAt(Renderings(scopes), k)
  {
    var rest, all := RemoveAt(scopes, k), Renderings(scopes);
    forall i | 0 <= i < |rest| ensures Renderings(rest)[i] == RemoveAt(all, k)[i] {
      assert rest[i] == scopes[if i < k then i else i + 1];
    }
  }

  /** Equal multisets of renderings come from equal multisets of valid scopes. */
  lemma {:induction false} SameRenderingsSameScopes(a: seq<Scope>, b: seq<Scope>)
    requires ValidScopes(a) && ValidScopes(b)
    requires multiset(Renderings(a)) == multiset(Renderings(b))
    ensures multiset(a) == multiset(b)
    decreases |a|
  {
    var ra, rb := Renderings(a), Renderings(b);
    SameSize(ra, rb);
    if a != [] {
      var k := Partner(ra, 0, rb);
      RenderInjective(a[0], b[k]);
      RemoveBoth(ra, 0, rb, k);
      RenderingsRemoveAt(a, 0);
      RenderingsRemoveAt(b, k);
      SameRenderingsSameScopes(RemoveAt(a, 0), RemoveAt(b, k));
      AddBoth(a, 0, b, k);
    }
  }

  lemma {:induction false} SameScopesSameRenderings(a: seq<Scope>, b: seq<Scope>)
    requires multiset(a) == multiset(b)
    ensures multiset(Renderings(a)) == multiset(Renderings(b))
    decreases |a|
  {
    SameSize(a, b);
    if a == [] {
      assert Renderings(a) == Renderings(b);
    } else {
      var k := Partner(a, 0, b);
      RemoveBoth(a, 0, b, k);
      SameScopesSameRenderings(RemoveAt(a, 0), RemoveAt(b, k));
      RenderingsRemoveAt(a, 0);
      RenderingsRemoveAt(b, k);
      AddBoth(Renderings(a), 0, Renderings(b), k);
    }
  }

  // ---------------------------------------------------------------- MACs and tokens

  const TOKEN_PREFIX: string := "cctl_"
  const MAC_HEX_LEN: nat := 32

  predicate LowerHex(c: char) {
    '0' <= c <= '9' || 'a' <= c <= 'f'
  }

  predicate IsMac(s: string) {
    |s| == MAC_HEX_LEN && forall k :: 0 <= k < |s| ==> LowerHex(s[k])
  }

  type MacHex = s: string | IsMac(s) witness "00000000000000000000000000000000"

  type Secret = seq<nat>

  /** HMAC-SHA256 truncated to 128 bits and hex-encoded, as an uninterpreted function of key and payload. */
  type Hmac = (Secret, string) -> MacHex

  function ComputeMac(hmac: Hmac, secret: Secret, id: string, scopes: seq<Scope>, expiresMs: nat): MacHex {
    hmac(secret, CanonicalPayload(id, scopes, expiresMs))
  }

  /** `mint`. */
  function Mint(hmac: Hmac, secret: Secret, id: string, scopes: seq<Scope>, expiresMs: nat): string {
    TokenText(id, ComputeMac(hmac, secret, id, scopes, expiresMs))
  }

  function TokenText(id: string, mac: string): string {
    TOKEN_PREFIX + (id + ['_'] + mac)
  }

  datatype ParsedToken = ParsedToken(id: string, mac: string)

  datatype TokenError = NoPrefix | NoMac | EmptyId | BadId | BadMacText

  /** `parse`. */
  function ParseToken(text: string): Result<ParsedToken, TokenError> {
    var t := Trim(text);
    if !(TOKEN_PREFIX <= t) then Err(NoPrefix)
    else
      match RSplitOnce(t[|TOKEN_PREFIX|..], '_')
      case None => Err(NoMac)
      case Some((id, mac)) =>
        if id == "" then Err(EmptyId)
        else if !IsValidGrantId(id) then Err(BadId)
        else if !IsMac(mac) then Err(BadMacText)
        else Ok(ParsedToken(id, mac))
  }

  lemma {:induction false} TokenTextTrims(id: string, mac: string)
    requires IsMac(mac)
    ensures Trim(TokenText(id, mac)) == TokenText(id, mac)
  {
    var t := TokenText(id, mac);
    assert t[0] == 'c';
    assert t[|t| - 1] == mac[|mac| - 1];
    assert LowerHex(mac[|mac| - 1]);
    TrimIsIdentity(t);
  }

  lemma {:induction false} MacHasNoUnderscore(mac: string)
    requires IsMac(mac)
    ensures '_' !in mac
  {
    forall k | 0 <= k < |mac| ensures mac[k] != '_' {
      assert LowerHex(mac[k]);
    }
  }

  /** A token of a valid id and MAC parses to them, underscores in the id notwithstanding. */
  lemma {:induction false} ParseTokenText(id: string, mac: string)
    requires IsValidGrantId(id) && IsMac(mac)
    ensures ParseToken(TokenText(id, mac)) == Ok(ParsedToken(id, mac))
  {
    TokenTextTrims(id, mac);
    var t := TokenText(id, mac);
    assert t[|TOKEN_PREFIX|..] == id + ['_'] + mac;
    MacHasNoUnderscore(mac);
    RSplitOnceUnique(id, '_', mac);
  }

  lemma {:induction false} ParseInvertsMint(hmac: Hmac, secret: Secret, id: string, scopes: seq<Scope>, expiresMs: nat)
    requires IsValidGrantId(id)
    ensures ParseToken(Mint(hmac, secret, id, scopes, expiresMs))
         == Ok(ParsedToken(id, ComputeMac(hmac, secret, id, scopes, expiresMs)))
  {
    ParseTokenText(id, ComputeMac(hmac, secret, id, scopes, expiresMs));
  }

  /** And nothing else parses: an accepted text is, up to surrounding whitespace, the token of what it parses to. */
  lemma {:induction false} ParsedIsToken(text: string, p: ParsedToken)
    ensures ParseToken(text) == Ok(p) <==> IsValidGrantId(p.id) && IsMac(p.mac) && Trim(text) == TokenText(p.id, p.mac)
  {
    var t := Trim(text);
    if ParseToken(text) == Ok(p) {
      var body := t[|TOKEN_PREFIX|..];
      RSplitOnceCuts(body, '_');
      assert t == TOKEN_PREFIX + body;
    }
    if IsValidGrantId(p.id) && IsMac(p.mac) && t == TokenText(p.id, p.mac) {
      ParseTokenText(p.id, p.mac);
      TokenTextTrims(p.id, p.mac);
    }
  }

  /** The same with every part spelled out. */
  lemma {:induction false} TokenIff(text: string, id: string, mac: string)
    ensures ParseToken(text) == Ok(ParsedToken(id, mac)) <==>
      && Trim(text) == "cctl_" + id + "_" + mac
      && 1 <= |id| <= 64 && |mac| == 32
      && (forall k :: 0 <= k < |id| ==>
            'a' <= id[k] <= 'z' || 'A' <= id[k] <= 'Z' || '0' <= id[k] <= '9' || id[k] in "-_")
      && (forall k :: 0 <= k < |mac| ==> '0' <= mac[k] <= '9' || 'a' <= mac[k] <= 'f')
  {
    ParsedIsToken(text, ParsedToken(id, mac));
    GrantIdIff(id);
    assert TokenText(id, mac) == "cctl_" + id + "_" + mac;
  }
}
