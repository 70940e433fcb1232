/**
 Why a verification is refused, what is logged of it, and what that says in a reachable state
 (src/access/grant.rs:487-555).
 */
module GrantDenials {
  import opened Numbers
  import opened Options
  import opened Scopes
  import opened Tokens
  import opened Grants
  import opened GrantProcesses

  // ---------------------------------------------------------------- the conditions

  /** The token parses to a claim on the id, whose file holds this record. */
  ghost predicate Claims(d: Disk, token: string, p: ParsedToken, g: Grant) {
    ParseToken(token) == Ok(p) && p.id in d.files && d.files[p.id] == Readable(g)
  }

  /** And its MAC is the one that the record's id, scopes and expiry have under the secret. */
  ghost predicate Authentic(d: Disk, hmac: Hmac, secret: Secret, token: string, p: ParsedToken, g: Grant) {
    Claims(d, token, p, g) && g.id == p.id && p.mac == hmac(secret, CanonicalPayload(g.id, g.scopes, g.expiresMs))
  }

  /** The grant is withdrawn, by a tombstone or by its own record. */
  predicate Withdrawn(d: Disk, g: Grant) {
    g.revoked || g.id in d.tombstones
  }

  /** The reason that applies, each one only if those before it do not. */
  ghost predicate Denies(
    d: Disk, hmac: Hmac, secret: Secret, token: string, required: Option<Scope>, nowMs: U64, reason: DenyReason)
  {
    match reason
    case MalformedToken => ParseToken(token).Err?
    case UnknownGrant =>
      exists p :: ParseToken(token) == Ok(p)
                  && (p.id !in d.files || (d.files[p.id].Readable? && d.files[p.id].grant.id != p.id))
    case UnreadableGrant => exists p :: ParseToken(token) == Ok(p) && p.id in d.files && d.files[p.id] == Malformed
    case BadMac =>
      exists p, g :: Claims(d, token, p, g) && g.id == p.id && !Authentic(d, hmac, secret, token, p, g)
    case RevokedGrant => exists p, g :: Authentic(d, hmac, secret, token, p, g) && Withdrawn(d, g)
    case Expired => exists p, g :: Authentic(d, hmac, secret, token, p, g) && !Withdrawn(d, g) && nowMs >= g.expiresMs
    case MissingScope =>
      exists p, g :: Authentic(d, hmac, secret, token, p, g) && !Withdrawn(d, g) && nowMs < g.expiresMs
                     && required.Some? && required.value !in g.scopes
    case BudgetExhausted => false
  }

  /** The reasons after the MAC was checked name the grant to the caller. */
  predicate NamesGrant(reason: DenyReason) {
    reason == RevokedGrant || reason == Expired || reason == MissingScope
  }

  function ClaimedId(token: string): string {
    if ParseToken(token).Ok? then ParseToken(token).value.id else "<unparseable>"
  }

  // ---------------------------------------------------------------- exactly when

  lemma {:induction false} ParsedIdIsValid(token: string)
    requires ParseToken(token).Ok?
    ensures IsValidGrantId(ParseToken(token).value.id)
  {
    ParsedIsToken(token, ParseToken(token).value);
  }

  lemma {:induction false} AuthenticDenied(
    d: Disk, hmac: Hmac, secret: Secret, token: string, p: ParsedToken, g: Grant, required: Option<Scope>, nowMs: U64)
    requires Authentic(d, hmac, secret, token, p, g)
    ensures var r := Verified(d, hmac, secret, token, required, nowMs);
      if Withdrawn(d, g) then r == Err((RevokedGrant, Some(p.id)))
      else if nowMs >= g.expiresMs then r == Err((Expired, Some(p.id)))
      else if required.Some? && required.value !in g.scopes then r == Err((MissingScope, Some(p.id)))
      else r == Ok(g)
  {
    ParsedIdIsValid(token);
  }

  /** The only token and record that such a condition can speak of. */
  lemma {:induction false} OneRecord(
    d: Disk, hmac: Hmac, secret: Secret, token: string, required: Option<Scope>, nowMs: U64, p: ParsedToken, g: Grant)
    requires Claims(d, token, p, g)
    ensures var authentic := Authentic(d, hmac, secret, token, p, g);
      && (Denies(d, hmac, secret, token, required, nowMs, UnknownGrant) <==> g.id != p.id)
      && (Denies(d, hmac, secret, token, required, nowMs, BadMac) <==> g.id == p.id && !authentic)
      && (Denies(d, hmac, secret, token, required, nowMs, RevokedGrant) <==> authentic && Withdrawn(d, g))
      && (Denies(d, hmac, secret, token, required, nowMs, Expired) <==>
            authentic && !Withdrawn(d, g) && nowMs >= g.expiresMs)
      && (Denies(d, hmac, secret, token, required, nowMs, MissingScope) <==>
            authentic && !Withdrawn(d, g) && nowMs < g.expiresMs && required.Some? && required.value !in g.scopes)
  {
    assert forall q, h :: Claims(d, token, q, h) ==> q == p && h == g;
  }

  lemma {:induction false} NotAuthentic(
    d: Disk, hmac: Hmac, secret: Secret, token: string, required: Option<Scope>, nowMs: U64, p: ParsedToken, g: Grant)
    requires Claims(d, token, p, g) && !Authentic(d, hmac, secret, token, p, g)
    ensures Verified(d, hmac, secret, token, required, nowMs) == Err((if g.id != p.id then UnknownGrant else BadMac, None))
  {
    ParsedIdIsValid(token);
  }

  /** The reason is this one iff it applies, and the grant is named only if the MAC was right. */
  ghost predicate DeniedRightly(
    d: Disk, hmac: Hmac, secret: Secret, token: string, required: Option<Scope>, nowMs: U64, reason: DenyReason, id: string)
  {
    var r := Verified(d, hmac, secret, token, required, nowMs);
    && (r.Err? && r.error.0 == reason <==> Denies(d, hmac, secret, token, required, nowMs, reason))
    && (r.Err? ==> r.error.1 == if NamesGrant(r.error.0) then Some(id) else None)
  }

  lemma {:induction false} AuthenticRecord(
    d: Disk, hmac: Hmac, secret: Secret, token: string, required: Option<Scope>, nowMs: U64, reason: DenyReason,
    p: ParsedToken, g: Grant)
    requires Authentic(d, hmac, secret, token, p, g)
    ensures DeniedRightly(d, hmac, secret, token, required, nowMs, reason, p.id)
  {
    OneRecord(d, hmac, secret, token, required, nowMs, p, g);
    AuthenticDenied(d, hmac, secret, token, p, g, required, nowMs);
  }

  lemma {:induction false} OtherRecord(
    d: Disk, hmac: Hmac, secret: Secret, token: string, required: Option<Scope>, nowMs: U64, reason: DenyReason,
    p: ParsedToken, g: Grant)
    requires Claims(d, token, p, g) && !Authentic(d, hmac, secret, token, p, g)
    ensures DeniedRightly(d, hmac, secret, token, required, nowMs, reason, p.id)
  {
    OneRecord(d, hmac, secret, token, required, nowMs, p, g);
    NotAuthentic(d, hmac, secret, token, required, nowMs, p, g);
  }

  /** Verification refuses with a reason iff it applies, and names the grant only if the MAC was right. */
  lemma {:induction false} DeniedIff(
    d: Disk, hmac: Hmac, secret: Secret, token: string, required: Option<Scope>, nowMs: U64, reason: DenyReason)
    ensures DeniedRightly(d, hmac, secret, token, required, nowMs, reason, ClaimedId(token))
  {
    if ParseToken(token).Ok? {
      var p := ParseToken(token).value;
      ParsedIdIsValid(token);
      if p.id in d.files && d.files[p.id].Readable? {
        if Authentic(d, hmac, secret, token, p, d.files[p.id].grant) {
          AuthenticRecord(d, hmac, secret, token, required, nowMs, reason, p, d.files[p.id].grant);
        } else {
          OtherRecord(d, hmac, secret, token, required, nowMs, reason, p, d.files[p.id].grant);
        }
      }
    }
  }

  /** A success returns the record of an authentic token that is not withdrawn, has not expired, and has the scope. */
  lemma {:induction false} AcceptedIff(
    d: Disk, hmac: Hmac, secret: Secret, token: string, required: Option<Scope>, nowMs: U64, g: Grant)
    ensures Verified(d, hmac, secret, token, required, nowMs) == Ok(g) <==>
      exists p :: Authentic(d, hmac, secret, token, p, g) && !Withdrawn(d, g) && nowMs < g.expiresMs
                  && (required.Some? ==> required.value in g.scopes)
  {
    if p :| Authentic(d, hmac, secret, token, p, g) {
      AuthenticDenied(d, hmac, secret, token, p, g, required, nowMs);
    }
    if Verified(d, hmac, secret, token, required, nowMs) == Ok(g) {
      var p := ParseToken(token).value;
      var h := d.files[p.id].grant;
      if Authentic(d, hmac, secret, token, p, h) {
        AuthenticDenied(d, hmac, secret, token, p, h, required, nowMs);
      } else {
        NotAuthentic(d, hmac, secret, token, required, nowMs, p, h);
      }
    }
  }

  /** The one entry that a denial leaves: when, for which claimed id, why, and for a missing scope which one. */
  lemma {:induction false} DenialLogged(
    d: Disk, hmac: Hmac, secret: Secret, token: string, required: Option<Scope>, nowMs: U64, reason: DenyReason)
    requires Denies(d, hmac, secret, token, required, nowMs, reason)
    ensures AfterVerify(d, hmac, secret, token, required, nowMs)
         == d.(audit := d.audit + [AuditEntry(nowMs, ClaimedId(token), Denied(reason),
                 if reason == MissingScope then Some(Render(required.value)) else None)])
  {
    DeniedIff(d, hmac, secret, token, required, nowMs, reason);
  }

  // ---------------------------------------------------------------- in a reachable state

  /** How the token that was handed out for a grant is answered. */
  function AnswerTo(t: System, g: Grant, required: Option<Scope>, nowMs: U64): Option<DenyReason> {
    if g.id in t.disk.tombstones then Some(RevokedGrant)
    else if nowMs >= g.expiresMs then Some(Expired)
    else if required.Some? && required.value !in g.scopes then Some(MissingScope)
    else None
  }

  lemma {:induction false} IssuedIsAuthentic(t: System, id: string, hmac: Hmac, secret: Secret)
    requires SystemInv(t) && id in t.issued
    ensures id in t.disk.files && t.disk.files[id].Readable?
    ensures var g := t.issued[id];
      && g.id == id && SameAuthority(t.disk.files[id].grant, g)
      && (Withdrawn(t.disk, t.disk.files[id].grant) <==> id in t.disk.tombstones)
      && Authentic(t.disk, hmac, secret, Mint(hmac, secret, id, g.scopes, g.expiresMs),
           ParsedToken(id, ComputeMac(hmac, secret, id, g.scopes, g.expiresMs)), t.disk.files[id].grant)
  {
    var g := t.issued[id];
    assert IssuedOk(t, id);
    assert CopyOk(t, id, t.disk.files[id].grant);
    ParseInvertsMint(hmac, secret, id, g.scopes, g.expiresMs);
  }

  /**
   In every reachable state the token handed out for a grant is refused as revoked iff there is a
   tombstone, as expired iff there is none and its time is over, for a missing scope iff neither is
   so and the scope was not issued, and for no other reason.
   */
  lemma {:induction false} IssuedTokenDenied(
    actions: seq<Action>, t: System, id: string, hmac: Hmac, secret: Secret, required: Option<Scope>, nowMs: U64,
    reason: DenyReason)
    requires Reaches(INITIAL, actions, t) && id in t.issued
    ensures var g := t.issued[id];
      var r := Verified(t.disk, hmac, secret, Mint(hmac, secret, id, g.scopes, g.expiresMs), required, nowMs);
      && (r.Err? && r.error.0 == reason <==> AnswerTo(t, g, required, nowMs) == Some(reason))
      && (r.Ok? <==> AnswerTo(t, g, required, nowMs) == None)
      && (r.Err? ==> r.error.1 == Some(id))
  {
    RunKeeps(INITIAL, actions, t);
    IssuedIsAuthentic(t, id, hmac, secret);
    var g := t.issued[id];
    var token := Mint(hmac, secret, id, g.scopes, g.expiresMs);
    var p := ParsedToken(id, ComputeMac(hmac, secret, id, g.scopes, g.expiresMs));
    ParsedIdIsValid(token);
    AuthenticDenied(t.disk, hmac, secret, token, p, t.disk.files[id].grant, required, nowMs);
  }
}
