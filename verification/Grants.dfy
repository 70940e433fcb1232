/** Grant records and what the store's operations do to them (src/access/grant.rs). */
module Grants {
  import opened Numbers
  import opened Options
  import opened Scopes
  import opened Strings
  import opened Tokens

  datatype Grant = Grant(
    id: string,
    holder: string, // the `label` field
    scopes: seq<Scope>,
    issuedMs: U64,
    expiresMs: U64,
    revoked: bool,
    rateLimitPerMin: U32,
    dailyQueryBudget: U32,
    lastUsedMs: Option<U64>,
    useCount: U64,
    budgetDay: U64,
    budgetUsed: U32,
    flaggedMs: Option<U64>,
    flagReason: Option<string>)

  const DEFAULT_RATE_LIMIT_PER_MIN: U32 := 20
  const DEFAULT_DAILY_QUERY_BUDGET: U32 := 500

  /** `new_grant`. */
  function NewGrant(id: string, holder: string, scopes: seq<Scope>, issuedMs: U64, expiresMs: U64): Grant {
    Grant(id, holder, scopes, issuedMs, expiresMs, false, DEFAULT_RATE_LIMIT_PER_MIN, DEFAULT_DAILY_QUERY_BUDGET,
          None, 0, 0, 0, None, None)
  }

  datatype DenyReason =
    | MalformedToken | UnknownGrant | UnreadableGrant | BadMac | RevokedGrant | Expired | MissingScope
    | BudgetExhausted

  datatype AuditEvent = Allowed | Denied(reason: DenyReason)

  datatype AuditEntry = AuditEntry(tsMs: U64, id: string, event: AuditEvent, detail: Option<string>)

  /** A grant file: a record, or content that does not parse as one. */
  datatype GrantFile = Readable(grant: Grant) | Malformed

  /** What is on disk: grant files by id, revocation tombstones and the audit log. */
  datatype Disk = Disk(files: map<string, GrantFile>, tombstones: set<string>, audit: seq<AuditEntry>)

  datatype StoreError = InvalidId | AlreadyExists | NoSuchGrant | Unreadable

  // ---------------------------------------------------------------- reading

  /** `is_tombstoned`. */
  predicate IsTombstoned(d: Disk, id: string) {
    IsValidGrantId(id) && id in d.tombstones
  }

  /** A record as a reader sees it: the tombstone overrides the field. */
  function Fold(d: Disk, id: string, g: Grant): Grant {
    if IsTombstoned(d, id) then g.(revoked := true) else g
  }

  /** `load`: an invalid id is absent, an unparseable file is an error. */
  function LoadFrom(d: Disk, id: string): Result<Option<Grant>, StoreError> {
    if !IsValidGrantId(id) || id !in d.files then Ok(None)
    else
      match d.files[id]
      case Malformed => Err(Unreadable)
      case Readable(g) => Ok(Some(Fold(d, id, g)))
  }

  // ---------------------------------------------------------------- updates of one record

  const MS_PER_DAY: nat := 86_400_000

  /** `utc_day`. */
  function UtcDay(nowMs: U64): U64 {
    nowMs / MS_PER_DAY
  }

  function SaturatingAdd32(a: U32, b: U32): U32 {
    if a + b < 0x1_0000_0000 then a + b else 0xFFFF_FFFF
  }

  function SaturatingAdd64(a: U64, b: U64): U64 {
    if a + b < 0x1_0000_0000_0000_0000 then a + b else 0xFFFF_FFFF_FFFF_FFFF
  }

  /** The daily budget as it is applied: a stored 0 reads as 1. */
  function Budget(g: Grant): nat {
    AtLeastOne(g.dailyQueryBudget)
  }

  /** The counter rolls forward to a later day, and only forward. */
  function RolledOver(g: Grant, nowMs: U64): Grant {
    if UtcDay(nowMs) > g.budgetDay then g.(budgetDay := UtcDay(nowMs), budgetUsed := 0) else g
  }

  datatype Charge = Charged(grant: Grant, remaining: nat) | Exhausted

  /** The record that `charge_daily_budget` writes back, and what it returns. */
  function ChargeGrant(g: Grant, nowMs: U64): Charge {
    var r := RolledOver(g, nowMs);
    if r.budgetUsed >= Budget(r) then Exhausted
    else
      var used := SaturatingAdd32(r.budgetUsed, 1);
      Charged(r.(budgetUsed := used), SaturatingSub(Budget(r), used))
  }

  /** The record that `record_query_use` writes back. */
  function UsedGrant(g: Grant, nowMs: U64): Grant {
    g.(lastUsedMs := Some(nowMs), useCount := SaturatingAdd64(g.useCount, 1))
  }

  /** The record that `flag_grant` writes back: the first flag wins. */
  function FlaggedGrant(g: Grant, reason: string, nowMs: U64): Grant {
    if g.flaggedMs.Some? then g else g.(flaggedMs := Some(nowMs), flagReason := Some(reason))
  }

  function WriteTo(d: Disk, g: Grant): Disk {
    d.(files := d.files[g.id := Readable(g)])
  }

  function Audited(d: Disk, tsMs: U64, id: string, event: AuditEvent, detail: Option<string>): Disk {
    d.(audit := d.audit + [AuditEntry(tsMs, id, event, detail)])
  }

  // ---------------------------------------------------------------- verification

  /** The checks of `verify_detailed` on a loaded record, in their order. */
  function CheckGrant(hmac: Hmac, secret: Secret, p: ParsedToken, g: Grant, required: Option<Scope>, nowMs: U64)
    : Result<Grant, (DenyReason, Option<string>)>
  {
    if g.id != p.id then Err((UnknownGrant, None))
    else if p.mac != ComputeMac(hmac, secret, g.id, g.scopes, g.expiresMs) then Err((BadMac, None))
    else if g.revoked then Err((RevokedGrant, Some(g.id)))
    else if nowMs >= g.expiresMs then Err((Expired, Some(g.id)))
    else if required.Some? && required.value !in g.scopes then Err((MissingScope, Some(g.id)))
    else Ok(g)
  }

  /** `verify_detailed` against a disk. */
  function Verified(d: Disk, hmac: Hmac, secret: Secret, token: string, required: Option<Scope>, nowMs: U64)
    : Result<Grant, (DenyReason, Option<string>)>
  {
    match ParseToken(token)
    case Err(_) => Err((MalformedToken, None))
    case Ok(p) =>
      match LoadFrom(d, p.id)
      case Err(_) => Err((UnreadableGrant, None))
      case Ok(None) => Err((UnknownGrant, None))
      case Ok(Some(g)) => CheckGrant(hmac, secret, p, g, required, nowMs)
  }

  /** The disk after a verification: a denial is logged, nothing else changes. */
  function AfterVerify(d: Disk, hmac: Hmac, secret: Secret, token: string, required: Option<Scope>, nowMs: U64): Disk {
    match Verified(d, hmac, secret, token, required, nowMs)
    case Ok(_) => d
    case Err((reason, _)) =>
      var id := if ParseToken(token).Ok? then ParseToken(token).value.id else "<unparseable>";
      var detail := if reason == MissingScope && required.Some? then Some(Render(required.value)) else None;
      Audited(d, nowMs, id, Denied(reason), detail)
  }

  // ---------------------------------------------------------------- the other operations on a disk

  function Created(d: Disk, g: Grant): (Disk, Result<(), StoreError>) {
    if !IsValidGrantId(g.id) then (d, Err(InvalidId))
    else if g.id in d.files then (d, Err(AlreadyExists))
    else (WriteTo(d, g), Ok(()))
  }

  function Updated(d: Disk, g: Grant): (Disk, Result<(), StoreError>) {
    if !IsValidGrantId(g.id) then (d, Err(InvalidId)) else (WriteTo(d, g), Ok(()))
  }

  /** Load for a read-modify-write: an absent grant is an error. */
  function LoadExisting(d: Disk, id: string): Result<Grant, StoreError> {
    match LoadFrom(d, id)
    case Err(e) => Err(e)
    case Ok(None) => Err(NoSuchGrant)
    case Ok(Some(g)) => Ok(g)
  }

  /** `revoke`: the tombstone first, then the field. */
  function Revoked(d: Disk, id: string): (Disk, Result<Grant, StoreError>) {
    match LoadExisting(d, id)
    case Err(e) => (d, Err(e))
    case Ok(g) =>
      var dead := g.(revoked := true);
      (Updated(d.(tombstones := d.tombstones + {id}), dead).0, Ok(dead))
  }

  datatype ChargeError = OverBudget | StoreFailed(error: StoreError)

  function ExhaustedDetail(g: Grant): string {
    Decimal(g.budgetUsed) + "/" + Decimal(Budget(g)) + " used today"
  }

  /** `charge_daily_budget`. */
  function BudgetCharged(d: Disk, id: string, nowMs: U64): (Disk, Result<nat, ChargeError>) {
    match LoadFrom(d, id)
    case Ok(None) =>
      (Audited(d, nowMs, id, Denied(UnknownGrant), Some("vanished between verify and charge")),
       Err(StoreFailed(NoSuchGrant)))
    case Err(e) =>
      (Audited(d, nowMs, id, Denied(UnreadableGrant), Some("could not be read to charge the budget")),
       Err(StoreFailed(e)))
    case Ok(Some(g)) =>
      match ChargeGrant(g, nowMs)
      case Exhausted =>
        (Audited(d, nowMs, id, Denied(BudgetExhausted), Some(ExhaustedDetail(RolledOver(g, nowMs)))), Err(OverBudget))
      case Charged(h, remaining) =>
        match Updated(d, h)
        case (_, Err(e)) =>
          (Audited(d, nowMs, id, Denied(UnreadableGrant), Some("the charge could not be persisted")),
           Err(StoreFailed(e)))
        case (after, Ok(_)) => (after, Ok(remaining))
  }

  /** `record_query_use`. */
  function UseRecorded(d: Disk, id: string, detail: Option<string>, nowMs: U64): (Disk, Result<(), StoreError>) {
    match LoadExisting(d, id)
    case Err(e) => (d, Err(e))
    case Ok(g) =>
      match Updated(d, UsedGrant(g, nowMs))
      case (_, Err(e)) => (d, Err(e))
      case (after, Ok(_)) => (Audited(after, nowMs, id, Allowed, detail), Ok(()))
  }

  /** `flag_grant`. */
  function Flagged(d: Disk, id: string, reason: string, nowMs: U64): (Disk, Result<(), StoreError>) {
    match LoadExisting(d, id)
    case Err(e) => (d, Err(e))
    case Ok(g) => if g.flaggedMs.Some? then (d, Ok(())) else Updated(d, FlaggedGrant(g, reason, nowMs))
  }

  // ---------------------------------------------------------------- what single operations promise

  /** Verifying writes no grant and no tombstone; it logs a denial, with the reason it returns, and nothing else. */
  lemma {:induction false} VerifyOnlyLogs(
    d: Disk, hmac: Hmac, secret: Secret, token: string, required: Option<Scope>, nowMs: U64)
    ensures var after := AfterVerify(d, hmac, secret, token, required, nowMs);
      var r := Verified(d, hmac, secret, token, required, nowMs);
      && after.files == d.files && after.tombstones == d.tombstones
      && (r.Ok? ==> after.audit == d.audit)
      && (r.Err? ==>
            && |after.audit| == |d.audit| + 1 && d.audit <= after.audit
            && after.audit[|d.audit|].event == Denied(r.error.0) && after.audit[|d.audit|].tsMs == nowMs)
  {}

  /** Creation never overwrites, and what it stored loads back, dead if the id's tombstone is already there. */
  lemma {:induction false} CreateKeepsOthers(d: Disk, g: Grant)
    ensures var (after, r) := Created(d, g);
      && (r.Ok? <==> IsValidGrantId(g.id) && g.id !in d.files)
      && (forall id :: id in d.files ==> id in after.files && after.files[id] == d.files[id])
      && (r.Ok? ==> LoadFrom(after, g.id) == Ok(Some(g.(revoked := g.revoked || g.id in d.tombstones))))
  {}

  /** After a revocation no token for that id verifies, whatever the record says. */
  lemma {:induction false} RevokedNeverVerifies(
    d: Disk, id: string, hmac: Hmac, secret: Secret, token: string, required: Option<Scope>, nowMs: U64)
    requires Revoked(d, id).1.Ok? && ParseToken(token).Ok? && ParseToken(token).value.id == id
    ensures Verified(Revoked(d, id).0, hmac, secret, token, required, nowMs).Err?
  {
    var after := Revoked(d, id).0;
    assert IsTombstoned(after, id);
    var loaded := LoadFrom(after, id);
    assert loaded.Ok? && loaded.value.Some? ==> loaded.value.value.revoked;
  }

  /** Revoking again changes nothing and answers the same. */
  lemma {:induction false} RevokeIdempotent(d: Disk, id: string)
    requires Revoked(d, id).1.Ok?
    ensures Revoked(Revoked(d, id).0, id) == Revoked(d, id)
  {
    var (after, r) := Revoked(d, id);
    var dead := r.value;
    assert LoadFrom(after, id) == Ok(Some(dead));
    assert after.tombstones + {id} == after.tombstones;
    if IsValidGrantId(dead.id) {
      assert after.files[dead.id := Readable(dead)] == after.files;
    }
  }

  /** The first flag wins: flagging a flagged grant changes nothing. */
  lemma {:induction false} FirstFlagWins(d: Disk, id: string, first: string, firstMs: U64, second: string, secondMs: U64)
    requires LoadExisting(d, id).Ok? && LoadExisting(d, id).value.id == id
    ensures var once := Flagged(d, id, first, firstMs).0;
      && Flagged(once, id, second, secondMs).0 == once
      && LoadExisting(once, id) == Ok(FlaggedGrant(LoadExisting(d, id).value, first, firstMs))
  {}

  // ---------------------------------------------------------------- what each operation writes, field by field

  /**
   The record was written to the file of its own id, and nothing else was; it loads back if that is
   the id it was loaded by.
   */
  ghost predicate Wrote(d: Disk, after: Disk, id: string, h: Grant) {
    && IsValidGrantId(h.id) && after.files == d.files[h.id := Readable(h)] && after.tombstones == d.tombstones
    && (h.id == id ==> LoadFrom(after, id) == Ok(Some(h)))
  }

  /** The counters are part of the record that was loaded, and all else in it stays. */
  function OneUseMore(g: Grant, nowMs: U64): Grant {
    g.(lastUsedMs := Some(nowMs), useCount := if g.useCount == 0xFFFF_FFFF_FFFF_FFFF then g.useCount else g.useCount + 1)
  }

  /** Recording a use changes the time of the last use and counts it, and nothing else of the grant. */
  lemma {:induction false} UseWrites(d: Disk, id: string, detail: Option<string>, nowMs: U64, g: Grant)
    requires LoadFrom(d, id) == Ok(Some(g))
    ensures var (after, r) := UseRecorded(d, id, detail, nowMs);
      if IsValidGrantId(g.id) then
        && r == Ok(()) && Wrote(d, after, id, OneUseMore(g, nowMs))
        && after.audit == d.audit + [AuditEntry(nowMs, id, Allowed, detail)]
      else r == Err(InvalidId) && after == d
  {}

  /** The first flag sets the time and the reason, and nothing else of the grant; later ones change nothing. */
  lemma {:induction false} FlagWrites(d: Disk, id: string, reason: string, nowMs: U64, g: Grant)
    requires LoadFrom(d, id) == Ok(Some(g))
    ensures var (after, r) := Flagged(d, id, reason, nowMs);
      if g.flaggedMs.Some? then r == Ok(()) && after == d
      else if IsValidGrantId(g.id) then
        && r == Ok(()) && after.audit == d.audit
        && Wrote(d, after, id, g.(flaggedMs := Some(nowMs), flagReason := Some(reason)))
      else r == Err(InvalidId) && after == d
  {}

  /** Revoking places the tombstone and marks the record, and changes nothing else of the grant. */
  lemma {:induction false} RevokeWrites(d: Disk, id: string, g: Grant)
    requires LoadFrom(d, id) == Ok(Some(g))
    ensures var (after, r) := Revoked(d, id);
      var marked := d.(tombstones := d.tombstones + {id});
      && r == Ok(g.(revoked := true)) && after.audit == d.audit
      && if IsValidGrantId(g.id) then Wrote(marked, after, id, g.(revoked := true)) else after == marked
  {}

  /** What was charged on the day of this instant, or on the stored day if that is later. */
  function UsedToday(g: Grant, nowMs: U64): nat {
    if nowMs / 86_400_000 > g.budgetDay then 0 else g.budgetUsed
  }

  function Allowance(g: Grant): nat {
    if g.dailyQueryBudget == 0 then 1 else g.dailyQueryBudget
  }

  /** The record with one more charge on the later of the stored day and today. */
  function OneChargeMore(g: Grant, nowMs: U64): Grant
    requires UsedToday(g, nowMs) < Allowance(g)
  {
    g.(budgetDay := if nowMs / 86_400_000 > g.budgetDay then nowMs / 86_400_000 else g.budgetDay,
       budgetUsed := UsedToday(g, nowMs) + 1)
  }

  /**
   A charge counts one query of the day's allowance, and changes nothing else of the grant; with the
   allowance used up it writes nothing but its refusal.
   */
  lemma {:induction false} ChargeWrites(d: Disk, id: string, nowMs: U64, g: Grant)
    requires LoadFrom(d, id) == Ok(Some(g))
    ensures var (after, r) := BudgetCharged(d, id, nowMs);
      var used := UsedToday(g, nowMs);
      if used >= Allowance(g) then
        && r == Err(OverBudget)
        && after == Audited(d, nowMs, id, Denied(BudgetExhausted),
             Some(Decimal(used) + "/" + Decimal(Allowance(g)) + " used today"))
      else if IsValidGrantId(g.id) then
        r == Ok(Allowance(g) - used - 1) && after.audit == d.audit && Wrote(d, after, id, OneChargeMore(g, nowMs))
      else
        && r == Err(StoreFailed(InvalidId))
        && after == Audited(d, nowMs, id, Denied(UnreadableGrant), Some("the charge could not be persisted"))
  {}

  /** On a grant that is absent or unreadable nothing is written; only a charge is logged. */
  lemma {:induction false} NothingToWrite(d: Disk, id: string, nowMs: U64, reason: string, detail: Option<string>)
    requires LoadFrom(d, id) == Ok(None) || LoadFrom(d, id).Err?
    ensures var error := if LoadFrom(d, id).Ok? then NoSuchGrant else Unreadable;
      && UseRecorded(d, id, detail, nowMs) == (d, Err(error)) && Flagged(d, id, reason, nowMs) == (d, Err(error))
      && Revoked(d, id) == (d, Err(error)) && BudgetCharged(d, id, nowMs).1 == Err(StoreFailed(error))
      && BudgetCharged(d, id, nowMs).0 ==
           if LoadFrom(d, id).Ok? then
             Audited(d, nowMs, id, Denied(UnknownGrant), Some("vanished between verify and charge"))
           else
             Audited(d, nowMs, id, Denied(UnreadableGrant), Some("could not be read to charge the budget"))
  {}

  // ---------------------------------------------------------------- what loading gives

  /** A readable file with a valid id loads as its record, which is revoked if it says so or a tombstone is there. */
  lemma {:induction false} LoadIs(d: Disk, id: string)
    ensures LoadFrom(d, id) == Ok(None) <==> !IsValidGrantId(id) || id !in d.files
    ensures LoadFrom(d, id).Err? <==> IsValidGrantId(id) && id in d.files && d.files[id] == Malformed
    ensures forall g :: LoadFrom(d, id) == Ok(Some(g)) <==>
      && IsValidGrantId(id) && id in d.files && d.files[id].Readable?
      && g == d.files[id].grant.(revoked := d.files[id].grant.revoked || id in d.tombstones)
  {}
}
