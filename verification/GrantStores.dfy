/** The grant store's operations as one process runs them, each on the disk's own files. */
module GrantStores {
  import opened Numbers
  import opened Options
  import opened Scopes
  import opened Tokens
  import opened Grants

  ghost predicate NewestFirst(gs: seq<Grant>) {
    forall i, j :: 0 <= i < j < |gs| ==> gs[i].issuedMs >= gs[j].issuedMs
  }

  /**
   The entries, newest first, are exactly the readable grants among the seen files, each once,
   with the tombstone of its own id applied.
   */
  ghost predicate Listing(d: Disk, seen: set<string>, out: seq<Grant>, ids: seq<string>) {
    && |ids| == |out|
    && (forall i, j :: 0 <= i < j < |ids| ==> ids[i] != ids[j])
    && (forall id :: id in seen && id in d.files && d.files[id].Readable? ==> id in ids)
    && (forall i :: 0 <= i < |ids| ==> Entry(d, seen, ids[i], out[i]))
    && NewestFirst(out)
  }

  /** A complete listing of the disk, for some naming of its entries' files. */
  ghost predicate ListsAll(d: Disk, out: seq<Grant>) {
    exists ids :: Listing(d, d.files.Keys, out, ids)
  }

  ghost predicate Entry(d: Disk, seen: set<string>, id: string, g: Grant) {
    id in seen && id in d.files && d.files[id].Readable? && g == Fold(d, d.files[id].grant.id, d.files[id].grant)
  }

  function InsertAt<T>(s: seq<T>, k: nat, x: T): seq<T>
    requires k <= |s|
  {
    s[..k] + [x] + s[k..]
  }

  lemma {:induction false} ListingInsert(d: Disk, seen: set<string>, out: seq<Grant>, ids: seq<string>, id: string, k: nat)
    requires Listing(d, seen, out, ids) && id !in seen && id in d.files && d.files[id].Readable? && k <= |out|
    requires var g := Fold(d, d.files[id].grant.id, d.files[id].grant);
      && (forall i :: 0 <= i < k ==> out[i].issuedMs >= g.issuedMs)
      && (forall i :: k <= i < |out| ==> g.issuedMs >= out[i].issuedMs)
    ensures var g := Fold(d, d.files[id].grant.id, d.files[id].grant);
      Listing(d, seen + {id}, InsertAt(out, k, g), InsertAt(ids, k, id))
  {
    var g := Fold(d, d.files[id].grant.id, d.files[id].grant);
    InsertKeepsEntries(d, seen, out, ids, id, k);
    forall n | n in seen + {id} && n in d.files && d.files[n].Readable? ensures n in InsertAt(ids, k, id) {
      InsertHas(ids, k, id, n);
    }
    InsertKeepsOrder(out, k, g);
    InsertKeepsDistinct(ids, k, id);
  }

  lemma {:induction false} InsertKeepsEntries(
    d: Disk, seen: set<string>, out: seq<Grant>, ids: seq<string>, id: string, k: nat)
    requires |ids| == |out| && k <= |out| && id in d.files && d.files[id].Readable?
    requires forall i :: 0 <= i < |ids| ==> Entry(d, seen, ids[i], out[i])
    ensures var g := Fold(d, d.files[id].grant.id, d.files[id].grant);
      forall i :: 0 <= i < |ids| + 1 ==> Entry(d, seen + {id}, InsertAt(ids, k, id)[i], InsertAt(out, k, g)[i])
  {
    var g := Fold(d, d.files[id].grant.id, d.files[id].grant);
    var out', ids' := InsertAt(out, k, g), InsertAt(ids, k, id);
    forall i | 0 <= i < |ids'| ensures Entry(d, seen + {id}, ids'[i], out'[i]) {
      if i != k {
        var o := if i < k then i else i - 1;
        assert ids'[i] == ids[o] && out'[i] == out[o];
        assert Entry(d, seen, ids[o], out[o]);
      }
    }
  }

  lemma {:induction false} InsertHas<T>(s: seq<T>, k: nat, x: T, n: T)
    requires k <= |s| && (n == x || n in s)
    ensures n in InsertAt(s, k, x)
  {
    if n == x {
      assert InsertAt(s, k, x)[k] == n;
    } else {
      var i :| 0 <= i < |s| && s[i] == n;
      assert InsertAt(s, k, x)[if i < k then i else i + 1] == n;
    }
  }

  lemma {:induction false} InsertKeepsOrder(out: seq<Grant>, k: nat, g: Grant)
    requires NewestFirst(out) && k <= |out|
    requires forall i :: 0 <= i < k ==> out[i].issuedMs >= g.issuedMs
    requires forall i :: k <= i < |out| ==> g.issuedMs >= out[i].issuedMs
    ensures NewestFirst(InsertAt(out, k, g))
  {}

  lemma {:induction false} InsertKeepsDistinct<T>(s: seq<T>, k: nat, x: T)
    requires forall i, j :: 0 <= i < j < |s| ==> s[i] != s[j]
    requires k <= |s| && x !in s
    ensures forall i, j :: 0 <= i < j < |s| + 1 ==> InsertAt(s, k, x)[i] != InsertAt(s, k, x)[j]
  {}

  lemma {:induction false} ListingSkip(d: Disk, seen: set<string>, out: seq<Grant>, ids: seq<string>, id: string)
    requires Listing(d, seen, out, ids) && id in d.files && !d.files[id].Readable?
    ensures Listing(d, seen + {id}, out, ids)
  {}

  class GrantStore {
    var files: map<string, GrantFile>
    var tombstones: set<string>
    var audit: seq<AuditEntry>

    function State(): Disk
      reads this
    {
      Disk(files, tombstones, audit)
    }

    constructor ()
      ensures State() == Disk(map[], {}, [])
    {
      files := map[];
      tombstones := {};
      audit := [];
    }

    method Create(g: Grant) returns (r: Result<(), StoreError>)
      modifies this
      ensures (State(), r) == Created(old(State()), g)
      ensures r.Ok? <==> IsValidGrantId(g.id) && g.id !in old(files)
      ensures forall id :: id in old(files) ==> id in files && files[id] == old(files)[id]
      ensures tombstones == old(tombstones) && audit == old(audit)
    {
      if !IsValidGrantId(g.id) {
        return Err(InvalidId);
      }
      if g.id in files {
        return Err(AlreadyExists);
      }
      files := files[g.id := Readable(g)];
      r := Ok(());
    }

    method Update(g: Grant) returns (r: Result<(), StoreError>)
      modifies this
      ensures (State(), r) == Updated(old(State()), g)
      ensures forall id :: id in old(files) && id != g.id ==> id in files && files[id] == old(files)[id]
      ensures tombstones == old(tombstones) && audit == old(audit)
    {
      if !IsValidGrantId(g.id) {
        return Err(InvalidId);
      }
      files := files[g.id := Readable(g)];
      r := Ok(());
    }

    method Load(id: string) returns (r: Result<Option<Grant>, StoreError>)
      ensures r == LoadFrom(State(), id)
    {
      if !IsValidGrantId(id) || id !in files {
        return Ok(None);
      }
      if files[id].Malformed? {
        return Err(Unreadable);
      }
      var grant := files[id].grant;
      if IsValidGrantId(id) && id in tombstones {
        grant := grant.(revoked := true);
      }
      r := Ok(Some(grant));
    }

    method AppendAudit(tsMs: U64, id: string, event: AuditEvent, detail: Option<string>)
      modifies this
      ensures State() == Audited(old(State()), tsMs, id, event, detail)
    {
      audit := audit + [AuditEntry(tsMs, id, event, detail)];
    }

    method Revoke(id: string) returns (r: Result<Grant, StoreError>)
      modifies this
      ensures (State(), r) == Revoked(old(State()), id)
      ensures r.Ok? ==> tombstones == old(tombstones) + {id} && r.value.revoked && audit == old(audit)
      ensures r.Ok? ==> LoadExisting(old(State()), id).Ok? && r.value == LoadExisting(old(State()), id).value.(revoked := true)
      ensures r.Err? ==> State() == old(State())
    {
      var loaded := Load(id);
      if loaded.Err? {
        return Err(loaded.error);
      }
      if loaded.value.None? {
        return Err(NoSuchGrant);
      }
      var grant := loaded.value.value;
      tombstones := tombstones + {id};
      grant := grant.(revoked := true);
      var _ := Update(grant);
      r := Ok(grant);
    }

    method VerifyDetailed(hmac: Hmac, secret: Secret, token: string, required: Option<Scope>, nowMs: U64)
      returns (r: Result<Grant, (DenyReason, Option<string>)>)
      modifies this
      ensures r == Verified(old(State()), hmac, secret, token, required, nowMs)
      ensures State() == AfterVerify(old(State()), hmac, secret, token, required, nowMs)
      ensures files == old(files) && tombstones == old(tombstones)
      ensures r.Ok? ==> audit == old(audit)
      ensures r.Ok? ==> !r.value.revoked && nowMs < r.value.expiresMs && (required.Some? ==> required.value in r.value.scopes)
      ensures r.Ok? ==> ParseToken(token) == Ok(ParsedToken(r.value.id,
        ComputeMac(hmac, secret, r.value.id, r.value.scopes, r.value.expiresMs)))
    {
      var parsed := ParseToken(token);
      if parsed.Err? {
        AppendAudit(nowMs, "<unparseable>", Denied(MalformedToken), None);
        return Err((MalformedToken, None));
      }
      var p := parsed.value;
      var loaded := Load(p.id);
      if loaded.Err? {
        AppendAudit(nowMs, p.id, Denied(UnreadableGrant), None);
        return Err((UnreadableGrant, None));
      }
      if loaded.value.None? {
        AppendAudit(nowMs, p.id, Denied(UnknownGrant), None);
        return Err((UnknownGrant, None));
      }
      var grant := loaded.value.value;
      if grant.id != p.id {
        AppendAudit(nowMs, p.id, Denied(UnknownGrant), None);
        return Err((UnknownGrant, None));
      }
      var expected := ComputeMac(hmac, secret, grant.id, grant.scopes, grant.expiresMs);
      if p.mac != expected {
        AppendAudit(nowMs, p.id, Denied(BadMac), None);
        return Err((BadMac, None));
      }
      if grant.revoked {
        AppendAudit(nowMs, p.id, Denied(RevokedGrant), None);
        return Err((RevokedGrant, Some(grant.id)));
      }
      if nowMs >= grant.expiresMs {
        AppendAudit(nowMs, p.id, Denied(Expired), None);
        return Err((Expired, Some(grant.id)));
      }
      if required.Some? && required.value !in grant.scopes {
        AppendAudit(nowMs, p.id, Denied(MissingScope), Some(Render(required.value)));
        return Err((MissingScope, Some(grant.id)));
      }
      r := Ok(grant);
    }

    method ChargeDailyBudget(id: string, nowMs: U64) returns (r: Result<nat, ChargeError>)
      modifies this
      ensures (State(), r) == BudgetCharged(old(State()), id, nowMs)
      ensures tombstones == old(tombstones)
      ensures r.Ok? ==> audit == old(audit)
      ensures r.Err? ==> files == old(files) && |audit| == |old(audit)| + 1
      ensures r.Ok? ==>
        && LoadExisting(old(State()), id).Ok?
        && var g := LoadExisting(old(State()), id).value;
           && UsedToday(g, nowMs) < Allowance(g) && r.value == Allowance(g) - UsedToday(g, nowMs) - 1
           && Wrote(old(State()), State(), id, OneChargeMore(g, nowMs))
    {
      var loaded := Load(id);
      if loaded.Err? {
        AppendAudit(nowMs, id, Denied(UnreadableGrant), Some("could not be read to charge the budget"));
        return Err(StoreFailed(loaded.error));
      }
      if loaded.value.None? {
        AppendAudit(nowMs, id, Denied(UnknownGrant), Some("vanished between verify and charge"));
        return Err(StoreFailed(NoSuchGrant));
      }
      var grant := loaded.value.value;
      ChargeWrites(State(), id, nowMs, grant);
      var today := UtcDay(nowMs);
      if today > grant.budgetDay {
        grant := grant.(budgetDay := today, budgetUsed := 0);
      }
      var budget := Budget(grant);
      if grant.budgetUsed >= budget {
        AppendAudit(nowMs, id, Denied(BudgetExhausted), Some(ExhaustedDetail(grant)));
        return Err(OverBudget);
      }
      grant := grant.(budgetUsed := SaturatingAdd32(grant.budgetUsed, 1));
      var remaining := SaturatingSub(budget, grant.budgetUsed);
      var written := Update(grant);
      if written.Err? {
        AppendAudit(nowMs, id, Denied(UnreadableGrant), Some("the charge could not be persisted"));
        return Err(StoreFailed(written.error));
      }
      r := Ok(remaining);
    }

    method RecordQueryUse(id: string, detail: Option<string>, nowMs: U64) returns (r: Result<(), StoreError>)
      modifies this
      ensures (State(), r) == UseRecorded(old(State()), id, detail, nowMs)
      ensures tombstones == old(tombstones)
      ensures r.Ok? ==> audit == old(audit) + [AuditEntry(nowMs, id, Allowed, detail)]
      ensures r.Err? ==> State() == old(State())
      ensures r.Ok? ==>
        && LoadExisting(old(State()), id).Ok?
        && Wrote(old(State()), State(), id, OneUseMore(LoadExisting(old(State()), id).value, nowMs))
    {
      var loaded := Load(id);
      if loaded.Err? {
        return Err(loaded.error);
      }
      if loaded.value.None? {
        return Err(NoSuchGrant);
      }
      var grant := loaded.value.value;
      UseWrites(State(), id, detail, nowMs, grant);
      grant := grant.(lastUsedMs := Some(nowMs), useCount := SaturatingAdd64(grant.useCount, 1));
      r := Update(grant);
      if r.Ok? {
        AppendAudit(nowMs, id, Allowed, detail);
      }
    }

    method FlagGrant(id: string, reason: string, nowMs: U64) returns (r: Result<(), StoreError>)
      modifies this
      ensures (State(), r) == Flagged(old(State()), id, reason, nowMs)
      ensures tombstones == old(tombstones) && audit == old(audit)
      ensures r.Err? ==> State() == old(State())
      ensures r.Ok? ==>
        && LoadExisting(old(State()), id).Ok?
        && var g := LoadExisting(old(State()), id).value;
           if g.flaggedMs.Some? then State() == old(State())
           else Wrote(old(State()), State(), id, g.(flaggedMs := Some(nowMs), flagReason := Some(reason)))
    {
      var loaded := Load(id);
      if loaded.Err? {
        return Err(loaded.error);
      }
      if loaded.value.None? {
        return Err(NoSuchGrant);
      }
      var grant := loaded.value.value;
      FlagWrites(State(), id, reason, nowMs, grant);
      if grant.flaggedMs.Some? {
        return Ok(());
      }
      grant := grant.(flaggedMs := Some(nowMs), flagReason := Some(reason));
      r := Update(grant);
    }

    /**
     `list`. The directory is read in no particular order, and the stable sort by issue time is
     done while collecting.
     */
    method List() returns (out: seq<Grant>)
      ensures ListsAll(State(), out)
    {
      out := [];
      ghost var ids: seq<string> := [];
      var rest := files.Keys;
      ghost var seen: set<string> := {};
      while rest != {}
        invariant rest <= files.Keys && seen == files.Keys - rest
        invariant Listing(State(), seen, out, ids)
        decreases rest
      {
        var id :| id in rest;
        rest := rest - {id};
        if files[id].Readable? {
          var g := Fold(State(), files[id].grant.id, files[id].grant);
          var k := InsertionPoint(out, g.issuedMs);
          ListingInsert(State(), seen, out, ids, id, k);
          out := InsertAt(out, k, g);
          ids := InsertAt(ids, k, id);
        } else {
          ListingSkip(State(), seen, out, ids, id);
        }
        seen := seen + {id};
      }
      assert seen == State().files.Keys;
    }

    /** Where a grant issued at `issuedMs` goes, newest first. */
    static method InsertionPoint(gs: seq<Grant>, issuedMs: U64) returns (k: nat)
      requires NewestFirst(gs)
      ensures k <= |gs|
      ensures forall i :: 0 <= i < k ==> gs[i].issuedMs >= issuedMs
      ensures forall i :: k <= i < |gs| ==> issuedMs >= gs[i].issuedMs
    {
      k := 0;
      while k < |gs| && gs[k].issuedMs >= issuedMs
        invariant 0 <= k <= |gs|
        invariant forall i :: 0 <= i < k ==> gs[i].issuedMs >= issuedMs
      {
        k := k + 1;
      }
    }
  }
}
