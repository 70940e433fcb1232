/**
 Several processes on one access directory. Each reads a whole record, consults the tombstone,
 and later writes a whole record back, with anything in between (src/access/grant.rs:274-303).
 */
module GrantProcesses {
  import opened Numbers
  import opened Options
  import opened Scopes
  import opened Tokens
  import opened Grants
  import opened GrantStores

  datatype Op = ChargeOp(nowMs: U64) | UseOp(nowMs: U64) | FlagOp(reason: string, nowMs: U64) | RevokeOp | VerifyOp

  /** A process in the middle of an operation, with its own copy of the record. */
  datatype Proc =
    | Reading(op: Op, id: string, copy: Grant) // file read, tombstone not yet consulted
    | Holding(op: Op, id: string, copy: Grant) // loaded
    | Marked(id: string, copy: Grant)          // revoking, with the tombstone in place

  /** The disk, the busy processes, and what `access grant` issued under each id. */
  datatype System = System(disk: Disk, procs: map<nat, Proc>, issued: map<string, Grant>)

  datatype Action =
    | Issue(grant: Grant)
    | Read(proc: nat, op: Op, id: string)
    | Consult(proc: nat)
    | PlaceTombstone(proc: nat)
    | Write(proc: nat)
    | Drop(proc: nat) // the process dies, or gives up

  predicate Enabled(s: System, a: Action) {
    match a
    case Issue(g) =>
      && IsValidGrantId(g.id) && g.id !in s.disk.files
      && (forall i :: 0 <= i < |g.scopes| ==> ValidScope(g.scopes[i]))
      && g == NewGrant(g.id, g.holder, g.scopes, g.issuedMs, g.expiresMs)
    case Read(p, _, id) => p !in s.procs && IsValidGrantId(id) && id in s.disk.files && s.disk.files[id].Readable?
    case Consult(p) => p in s.procs && s.procs[p].Reading?
    case PlaceTombstone(p) => p in s.procs && s.procs[p].Holding? && s.procs[p].op.RevokeOp?
    case Write(p) => p in s.procs && (s.procs[p].Marked? || (s.procs[p].Holding? && !s.procs[p].op.RevokeOp?))
    case Drop(p) => p in s.procs
  }

  /** What a process writes back, if anything. */
  function WrittenBack(q: Proc): Option<Grant>
    requires !q.Reading?
  {
    match q
    case Marked(_, copy) => Some(copy.(revoked := true))
    case Holding(op, _, copy) =>
      match op
      case ChargeOp(now) => if ChargeGrant(copy, now).Charged? then Some(ChargeGrant(copy, now).grant) else None
      case UseOp(now) => Some(UsedGrant(copy, now))
      case FlagOp(reason, now) => if copy.flaggedMs.Some? then None else Some(FlaggedGrant(copy, reason, now))
      case RevokeOp => None
      case VerifyOp => None
  }

  function Step(s: System, a: Action): System
    requires Enabled(s, a)
  {
    match a
    case Issue(g) => s.(disk := Created(s.disk, g).0, issued := s.issued[g.id := g])
    case Read(p, op, id) => s.(procs := s.procs[p := Reading(op, id, s.disk.files[id].grant)])
    case Consult(p) =>
      var q := s.procs[p];
      s.(procs := s.procs[p := Holding(q.op, q.id, Fold(s.disk, q.id, q.copy))])
    case PlaceTombstone(p) =>
      var q := s.procs[p];
      s.(disk := s.disk.(tombstones := s.disk.tombstones + {q.id}), procs := s.procs[p := Marked(q.id, q.copy)])
    case Write(p) =>
      var w := WrittenBack(s.procs[p]);
      s.(disk := if w.Some? then Updated(s.disk, w.value).0 else s.disk, procs := s.procs - {p})
    case Drop(p) => s.(procs := s.procs - {p})
  }

  ghost predicate Reaches(s: System, actions: seq<Action>, t: System)
    decreases |actions|
  {
    if actions == [] then s == t
    else Enabled(s, actions[0]) && Reaches(Step(s, actions[0]), actions[1..], t)
  }

  const INITIAL: System := System(Disk(map[], {}, []), map[], map[])

  // ---------------------------------------------------------------- the invariant

  /** Everything but the accounting fields, the flag and the revoked field. */
  predicate SameAuthority(g: Grant, h: Grant) {
    && g.id == h.id && g.holder == h.holder && g.scopes == h.scopes
    && g.issuedMs == h.issuedMs && g.expiresMs == h.expiresMs
    && g.rateLimitPerMin == h.rateLimitPerMin && g.dailyQueryBudget == h.dailyQueryBudget
  }

  /** A copy of the record of `id`, on disk or in flight: as issued, and marked revoked only after a tombstone. */
  ghost predicate CopyOk(s: System, id: string, g: Grant) {
    && id in s.issued && g.id == id
    && SameAuthority(g, s.issued[id])
    && (g.revoked ==> id in s.disk.tombstones)
  }

  ghost predicate IssuedOk(s: System, id: string)
    requires id in s.issued
  {
    && IsValidGrantId(id) && s.issued[id].id == id
    && forall i :: 0 <= i < |s.issued[id].scopes| ==> ValidScope(s.issued[id].scopes[i])
  }

  ghost predicate SystemInv(s: System) {
    && s.disk.files.Keys == s.issued.Keys
    && s.disk.tombstones <= s.issued.Keys
    && (forall id :: id in s.issued ==> IssuedOk(s, id))
    && (forall id :: id in s.disk.files ==> s.disk.files[id].Readable? && CopyOk(s, id, s.disk.files[id].grant))
    && (forall p :: p in s.procs ==> ProcOk(s, s.procs[p]))
  }

  ghost predicate ProcOk(s: System, q: Proc) {
    CopyOk(s, q.id, q.copy) && (q.Marked? ==> q.id in s.disk.tombstones)
  }

  /** Tombstones are only ever added and issued grants stay as issued. */
  ghost predicate Grows(s: System, t: System) {
    && s.disk.tombstones <= t.disk.tombstones
    && s.issued.Keys <= t.issued.Keys
    && forall id :: id in s.issued ==> t.issued[id] == s.issued[id]
  }

  lemma {:induction false} CopyStaysOk(s: System, t: System, id: string, g: Grant)
    requires CopyOk(s, id, g) && Grows(s, t)
    ensures CopyOk(t, id, g)
  {}

  lemma {:induction false} IssuedStaysOk(s: System, t: System, id: string)
    requires id in s.issued && IssuedOk(s, id) && Grows(s, t)
    ensures id in t.issued && IssuedOk(t, id)
  {}

  lemma {:induction false} WrittenBackOk(s: System, q: Proc)
    requires ProcOk(s, q) && !q.Reading? && WrittenBack(q).Some?
    ensures CopyOk(s, q.id, WrittenBack(q).value)
  {}

  /** A step that only grows the system and touches nothing but good copies keeps the invariant. */
  lemma {:induction false} GrowthKeeps(s: System, t: System)
    requires SystemInv(s) && Grows(s, t)
    requires t.disk.files.Keys == t.issued.Keys && t.disk.tombstones <= t.issued.Keys
    requires forall id :: id in t.issued && id !in s.issued ==> IssuedOk(t, id)
    requires forall id :: id in t.disk.files && !(id in s.disk.files && t.disk.files[id] == s.disk.files[id]) ==>
      t.disk.files[id].Readable? && CopyOk(t, id, t.disk.files[id].grant)
    requires forall p :: p in t.procs && !(p in s.procs && t.procs[p] == s.procs[p]) ==> ProcOk(t, t.procs[p])
    ensures SystemInv(t)
  {
    forall id | id in t.issued ensures IssuedOk(t, id) {
      if id in s.issued {
        IssuedStaysOk(s, t, id);
      }
    }
    forall id | id in t.disk.files ensures t.disk.files[id].Readable? && CopyOk(t, id, t.disk.files[id].grant) {
      if id in s.disk.files && t.disk.files[id] == s.disk.files[id] {
        CopyStaysOk(s, t, id, s.disk.files[id].grant);
      }
    }
    forall p | p in t.procs ensures ProcOk(t, t.procs[p]) {
      if p in s.procs && t.procs[p] == s.procs[p] {
        CopyStaysOk(s, t, s.procs[p].id, s.procs[p].copy);
      }
    }
  }

  lemma {:induction false} WriteKeeps(s: System, p: nat)
    requires SystemInv(s) && Enabled(s, Write(p))
    ensures SystemInv(Step(s, Write(p))) && Grows(s, Step(s, Write(p)))
  {
    var t := Step(s, Write(p));
    var q := s.procs[p];
    assert ProcOk(s, q);
    if WrittenBack(q).Some? {
      var w := WrittenBack(q).value;
      WrittenBackOk(s, q);
      assert IssuedOk(s, q.id);
      assert t.disk.files == s.disk.files[w.id := Readable(w)];
      CopyStaysOk(s, t, q.id, w);
    }
    GrowthKeeps(s, t);
  }

  lemma {:induction false} PlaceTombstoneKeeps(s: System, p: nat)
    requires SystemInv(s) && Enabled(s, PlaceTombstone(p))
    ensures SystemInv(Step(s, PlaceTombstone(p))) && Grows(s, Step(s, PlaceTombstone(p)))
  {
    var t := Step(s, PlaceTombstone(p));
    assert ProcOk(s, s.procs[p]);
    CopyStaysOk(s, t, s.procs[p].id, s.procs[p].copy);
    GrowthKeeps(s, t);
  }

  lemma {:induction false} IssueKeeps(s: System, g: Grant)
    requires SystemInv(s) && Enabled(s, Issue(g))
    ensures SystemInv(Step(s, Issue(g))) && Grows(s, Step(s, Issue(g)))
  {
    GrowthKeeps(s, Step(s, Issue(g)));
  }

  /** Every step of every process keeps the invariant, and only adds tombstones and issued grants. */
  lemma {:induction false} StepKeeps(s: System, a: Action)
    requires SystemInv(s) && Enabled(s, a)
    ensures SystemInv(Step(s, a)) && Grows(s, Step(s, a))
  {
    match a
    case Issue(g) => IssueKeeps(s, g);
    case PlaceTombstone(p) => PlaceTombstoneKeeps(s, p);
    case Write(p) => WriteKeeps(s, p);
    case Drop(p) => GrowthKeeps(s, Step(s, a));
    case Read(p, op, id) =>
      CopyStaysOk(s, Step(s, a), id, s.disk.files[id].grant);
      GrowthKeeps(s, Step(s, a));
    case Consult(p) =>
      assert ProcOk(s, s.procs[p]);
      GrowthKeeps(s, Step(s, a));
  }

  lemma {:induction false} RunKeeps(s: System, actions: seq<Action>, t: System)
    requires SystemInv(s) && Reaches(s, actions, t)
    ensures SystemInv(t) && Grows(s, t)
    decreases |actions|
  {
    if actions != [] {
      StepKeeps(s, actions[0]);
      RunKeeps(Step(s, actions[0]), actions[1..], t);
    }
  }

  // ---------------------------------------------------------------- what holds in every reachable state

  /** Whatever the interleaving, every copy of a grant, on disk or in flight, has the authority it was issued with. */
  lemma {:induction false} AuthorityFrozen(actions: seq<Action>, t: System)
    requires Reaches(INITIAL, actions, t)
    ensures forall id :: id in t.disk.files ==>
      id in t.issued && t.disk.files[id].Readable? && SameAuthority(t.disk.files[id].grant, t.issued[id])
    ensures forall p :: p in t.procs ==> t.procs[p].id in t.issued && SameAuthority(t.procs[p].copy, t.issued[t.procs[p].id])
  {
    RunKeeps(INITIAL, actions, t);
    forall p | p in t.procs ensures t.procs[p].id in t.issued && SameAuthority(t.procs[p].copy, t.issued[t.procs[p].id]) {
      assert ProcOk(t, t.procs[p]);
    }
  }

  /** A loaded record reads as revoked exactly when its tombstone exists, whatever its field says. */
  lemma {:induction false} LoadsRevokedIffTombstoned(t: System, id: string)
    requires SystemInv(t) && id in t.disk.files
    ensures LoadFrom(t.disk, id).Ok? && LoadFrom(t.disk, id).value.Some?
    ensures LoadFrom(t.disk, id).value.value.revoked <==> id in t.disk.tombstones
    ensures SameAuthority(LoadFrom(t.disk, id).value.value, t.issued[id])
  {
    assert IssuedOk(t, id);
  }

  /** Some entry of the listing is for the id, and every entry for it is revoked. */
  ghost predicate ListedRevoked(out: seq<Grant>, id: string) {
    && (exists i :: 0 <= i < |out| && out[i].id == id)
    && forall i :: 0 <= i < |out| && out[i].id == id ==> out[i].revoked
  }

  /** Revocation sticks: after the tombstone, no later state loads or lists the grant as live. */
  lemma {:induction false} RevocationSticks(before: seq<Action>, s: System, after: seq<Action>, t: System, id: string)
    requires Reaches(INITIAL, before, s) && Reaches(s, after, t)
    requires id in s.disk.tombstones
    ensures LoadFrom(t.disk, id).Ok? && LoadFrom(t.disk, id).value.Some? && LoadFrom(t.disk, id).value.value.revoked
    ensures id in t.disk.files && t.disk.files[id].Readable?
    ensures Fold(t.disk, t.disk.files[id].grant.id, t.disk.files[id].grant).revoked
    ensures forall out :: ListsAll(t.disk, out) ==> ListedRevoked(out, id)
  {
    RunKeeps(INITIAL, before, s);
    RunKeeps(s, after, t);
    assert IssuedOk(t, id);
    LoadsRevokedIffTombstoned(t, id);
    forall out | ListsAll(t.disk, out) ensures ListedRevoked(out, id) {
      ListingShowsTombstones(t, out, id);
    }
  }

  /** In a reachable state every listing shows each grant under its own id, revoked iff tombstoned. */
  lemma {:induction false} ListingShowsTombstones(t: System, out: seq<Grant>, id: string)
    requires SystemInv(t) && ListsAll(t.disk, out) && id in t.disk.files
    ensures exists i :: 0 <= i < |out| && out[i].id == id
    ensures forall i :: 0 <= i < |out| && out[i].id == id ==> (out[i].revoked <==> id in t.disk.tombstones)
  {
    var d := t.disk;
    var ids :| Listing(d, d.files.Keys, out, ids);
    forall i | 0 <= i < |out| ensures out[i].id == ids[i] && (out[i].revoked <==> ids[i] in d.tombstones) {
      assert Entry(d, d.files.Keys, ids[i], out[i]);
      EntryShowsTombstone(t, ids[i], out[i]);
    }
    assert d.files[id].Readable?;
    var k :| 0 <= k < |ids| && ids[k] == id;
    assert out[k].id == id;
  }

  lemma {:induction false} EntryShowsTombstone(t: System, id: string, g: Grant)
    requires SystemInv(t) && Entry(t.disk, t.disk.files.Keys, id, g)
    ensures g.id == id && (g.revoked <==> id in t.disk.tombstones)
  {
    assert CopyOk(t, id, t.disk.files[id].grant);
    assert IssuedOk(t, id);
  }

  /** A copy that consults the tombstone is revoked exactly when one exists at that moment. */
  lemma {:induction false} ConsultSeesTombstone(actions: seq<Action>, s: System, p: nat)
    requires Reaches(INITIAL, actions, s) && Enabled(s, Consult(p))
    ensures Step(s, Consult(p)).procs[p].copy.revoked <==> s.procs[p].id in s.disk.tombstones
  {
    RunKeeps(INITIAL, actions, s);
    assert ProcOk(s, s.procs[p]);
    assert IssuedOk(s, s.procs[p].id);
  }

  /** The checks on a copy with issued authority, for the token that was handed out. */
  lemma {:induction false} CheckIssued(
    hmac: Hmac, secret: Secret, issued: Grant, g: Grant, required: Option<Scope>, nowMs: U64)
    requires SameAuthority(g, issued)
    ensures var p := ParsedToken(issued.id, ComputeMac(hmac, secret, issued.id, issued.scopes, issued.expiresMs));
      CheckGrant(hmac, secret, p, g, required, nowMs).Ok? <==>
        !g.revoked && nowMs < issued.expiresMs && (required.Some? ==> required.value in issued.scopes)
  {}

  /**
   In every reachable state the token handed out for a grant verifies exactly when the grant has
   no tombstone, has not expired, and was issued the required scope.
   */
  lemma {:induction false} IssuedTokenVerifiesIff(
    actions: seq<Action>, t: System, id: string, hmac: Hmac, secret: Secret, required: Option<Scope>, nowMs: U64)
    requires Reaches(INITIAL, actions, t) && id in t.issued
    ensures var g := t.issued[id];
      Verified(t.disk, hmac, secret, Mint(hmac, secret, id, g.scopes, g.expiresMs), required, nowMs).Ok? <==>
        id !in t.disk.tombstones && nowMs < g.expiresMs && (required.Some? ==> required.value in g.scopes)
  {
    RunKeeps(INITIAL, actions, t);
    var g := t.issued[id];
    assert IssuedOk(t, id);
    ParseInvertsMint(hmac, secret, id, g.scopes, g.expiresMs);
    LoadsRevokedIffTombstoned(t, id);
    CheckIssued(hmac, secret, g, LoadFrom(t.disk, id).value.value, required, nowMs);
  }

  /** The same for a process that loaded the record: only a tombstone visible to its load counts. */
  lemma {:induction false} LoadedTokenVerifiesIff(
    actions: seq<Action>, s: System, p: nat, hmac: Hmac, secret: Secret, required: Option<Scope>, nowMs: U64)
    requires Reaches(INITIAL, actions, s) && Enabled(s, Consult(p))
    ensures s.procs[p].id in s.issued
    ensures var g := s.issued[s.procs[p].id];
      var token := ParsedToken(g.id, ComputeMac(hmac, secret, g.id, g.scopes, g.expiresMs));
      CheckGrant(hmac, secret, token, Step(s, Consult(p)).procs[p].copy, required, nowMs).Ok? <==>
        s.procs[p].id !in s.disk.tombstones && nowMs < g.expiresMs && (required.Some? ==> required.value in g.scopes)
  {
    RunKeeps(INITIAL, actions, s);
    assert ProcOk(s, s.procs[p]);
    ConsultSeesTombstone(actions, s, p);
    CheckIssued(hmac, secret, s.issued[s.procs[p].id], Step(s, Consult(p)).procs[p].copy, required, nowMs);
  }

  /**
   A token means exactly the authority it was minted for: unless the two payloads collide under
   the MAC, a record passes the MAC check against it iff id, scopes and expiry are those of the
   token. So widening a record's scopes or moving its expiry invalidates the issued token.
   */
  lemma {:induction false} EditedRecordFailsMac(
    d: Disk, hmac: Hmac, secret: Secret, id: string, scopes: seq<Scope>, expiresMs: U64,
    required: Option<Scope>, nowMs: U64)
    requires IsValidGrantId(id) && ValidScopes(scopes)
    requires id in d.files && d.files[id].Readable? && d.files[id].grant.id == id && ValidScopes(d.files[id].grant.scopes)
    requires var g := d.files[id].grant;
      var (a, b) := (CanonicalPayload(id, scopes, expiresMs), CanonicalPayload(id, g.scopes, g.expiresMs));
      hmac(secret, a) == hmac(secret, b) ==> a == b
    ensures var g := d.files[id].grant;
      Verified(d, hmac, secret, Mint(hmac, secret, id, scopes, expiresMs), required, nowMs) == Err((BadMac, None)) <==>
        !(multiset(scopes) == multiset(g.scopes) && expiresMs == g.expiresMs)
  {
    var g := d.files[id].grant;
    ParseInvertsMint(hmac, secret, id, scopes, expiresMs);
    PayloadLossless(id, scopes, expiresMs, id, g.scopes, g.expiresMs);
  }

  // ---------------------------------------------------------------- an undisturbed process runs the store's operation

  /** Read and consult with nothing in between. */
  function Loaded(s: System, p: nat, op: Op, id: string): System
    requires Enabled(s, Read(p, op, id))
  {
    Step(Step(s, Read(p, op, id)), Consult(p))
  }

  /** Then write back. */
  function Solo(s: System, p: nat, op: Op, id: string): System
    requires Enabled(s, Read(p, op, id)) && !op.RevokeOp?
  {
    Step(Loaded(s, p, op, id), Write(p))
  }

  function SoloRevoke(s: System, p: nat, id: string): System
    requires Enabled(s, Read(p, RevokeOp, id))
  {
    Step(Step(Loaded(s, p, RevokeOp, id), PlaceTombstone(p)), Write(p))
  }

  ghost predicate SameFiles(a: Disk, b: Disk) {
    a.files == b.files && a.tombstones == b.tombstones
  }

  /** The copy is then what the store's `load` returns. */
  lemma {:induction false} LoadedIsLoad(s: System, p: nat, op: Op, id: string)
    requires SystemInv(s) && Enabled(s, Read(p, op, id))
    ensures Loaded(s, p, op, id).disk == s.disk
    ensures Loaded(s, p, op, id).procs[p].Holding? && Loaded(s, p, op, id).procs[p].op == op
    ensures LoadFrom(s.disk, id) == Ok(Some(Loaded(s, p, op, id).procs[p].copy))
    ensures Loaded(s, p, op, id).procs[p].id == Loaded(s, p, op, id).procs[p].copy.id == id && IsValidGrantId(id)
  {
    assert IssuedOk(s, id);
  }

  /** What an undisturbed process does to the files is the store operation it runs. */
  lemma {:induction false} SoloCharge(s: System, p: nat, id: string, nowMs: U64)
    requires SystemInv(s) && Enabled(s, Read(p, ChargeOp(nowMs), id))
    ensures SameFiles(Solo(s, p, ChargeOp(nowMs), id).disk, BudgetCharged(s.disk, id, nowMs).0)
  {
    LoadedIsLoad(s, p, ChargeOp(nowMs), id);
  }

  lemma {:induction false} SoloUse(s: System, p: nat, id: string, nowMs: U64, detail: Option<string>)
    requires SystemInv(s) && Enabled(s, Read(p, UseOp(nowMs), id))
    ensures SameFiles(Solo(s, p, UseOp(nowMs), id).disk, UseRecorded(s.disk, id, detail, nowMs).0)
  {
    LoadedIsLoad(s, p, UseOp(nowMs), id);
  }

  lemma {:induction false} SoloFlag(s: System, p: nat, id: string, nowMs: U64, reason: string)
    requires SystemInv(s) && Enabled(s, Read(p, FlagOp(reason, nowMs), id))
    ensures SameFiles(Solo(s, p, FlagOp(reason, nowMs), id).disk, Flagged(s.disk, id, reason, nowMs).0)
  {
    LoadedIsLoad(s, p, FlagOp(reason, nowMs), id);
  }

  lemma {:induction false} SoloRevocation(s: System, p: nat, id: string)
    requires SystemInv(s) && Enabled(s, Read(p, RevokeOp, id))
    ensures SameFiles(SoloRevoke(s, p, id).disk, Revoked(s.disk, id).0)
  {
    LoadedIsLoad(s, p, RevokeOp, id);
  }

  /** A verification writes nothing back. */
  lemma {:induction false} SoloVerify(s: System, p: nat, id: string)
    requires SystemInv(s) && Enabled(s, Read(p, VerifyOp, id))
    ensures Solo(s, p, VerifyOp, id).disk == s.disk
  {
    LoadedIsLoad(s, p, VerifyOp, id);
  }
}
