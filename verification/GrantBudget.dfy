/**
 The daily query budget over any serialised mix of charges, recorded uses and flags, on any
 clock (src/access/grant.rs:557-732).
 */
module GrantBudget {
  import opened Numbers
  import opened Options
  import opened Scopes
  import opened Grants

  /** What a server does to a grant's record, one after the other. */
  datatype Event = ChargeAt(nowMs: U64) | UseAt(nowMs: U64, detail: Option<string>) | FlagAt(nowMs: U64, reason: string)

  function Step(g: Grant, e: Event): Grant {
    match e
    case ChargeAt(now) => (match ChargeGrant(g, now) case Charged(h, _) => h case Exhausted => g)
    case UseAt(now, _) => UsedGrant(g, now)
    case FlagAt(now, reason) => FlaggedGrant(g, reason, now)
  }

  /** The record after a sequence of them; a refused charge writes nothing. */
  function After(g: Grant, events: seq<Event>): Grant {
    if events == [] then g else Step(After(g, events[..|events| - 1]), events[|events| - 1])
  }

  /** Whether a charge at `nowMs`, after all that, goes through. */
  predicate GoesThrough(g: Grant, events: seq<Event>, nowMs: U64) {
    ChargeGrant(After(g, events), nowMs).Charged?
  }

  /** The highest UTC day that the record or any charge has seen. */
  function HighestDay(g: Grant, events: seq<Event>): U64 {
    if events == [] then g.budgetDay
    else
      var before, last := HighestDay(g, events[..|events| - 1]), events[|events| - 1];
      if last.ChargeAt? && last.nowMs / 86_400_000 > before then last.nowMs / 86_400_000 else before
  }

  /** How many charges went through while `day` was the highest day seen. */
  function SuccessesOn(g: Grant, events: seq<Event>, day: U64): nat {
    if events == [] then 0
    else
      var init, last := events[..|events| - 1], events[|events| - 1];
      SuccessesOn(g, init, day)
      + if last.ChargeAt? && GoesThrough(g, init, last.nowMs) && HighestDay(g, events) == day then 1 else 0
  }

  /** What the record brings along: its own count, for its own day. */
  function Carried(g: Grant, day: U64): nat {
    if day == g.budgetDay then g.budgetUsed else 0
  }

  lemma {:induction false} HighestDayGrows(g: Grant, events: seq<Event>)
    ensures g.budgetDay <= HighestDay(g, events)
  {
    if events != [] {
      HighestDayGrows(g, events[..|events| - 1]);
    }
  }

  lemma {:induction false} NoSuccessesYet(g: Grant, events: seq<Event>, day: U64)
    requires day > HighestDay(g, events)
    ensures SuccessesOn(g, events, day) == 0
  {
    if events != [] {
      NoSuccessesYet(g, events[..|events| - 1], day);
    }
  }

  /**
   The stored day is the running maximum, and the stored counter counts that day's successes, uses and
   flags notwithstanding.
   */
  lemma {:induction false} RecordTracksDay(g: Grant, events: seq<Event>)
    ensures var h := After(g, events);
      && h.budgetDay == HighestDay(g, events)
      && h.budgetUsed == SuccessesOn(g, events, HighestDay(g, events)) + Carried(g, HighestDay(g, events))
      && Allowance(h) == Allowance(g)
  {
    if events != [] {
      var init := events[..|events| - 1];
      RecordTracksDay(g, init);
      HighestDayGrows(g, init);
      var before, after := HighestDay(g, init), HighestDay(g, events);
      if after > before {
        NoSuccessesYet(g, init, after);
      }
    }
  }

  /**
   A charge goes through exactly when the allowance of the highest day seen, counting this
   charge's day, is not used up; the remainder it returns then counts down exactly.
   */
  lemma {:induction false} ChargeCountsDown(g: Grant, events: seq<Event>, nowMs: U64)
    ensures var day := HighestDay(g, events + [ChargeAt(nowMs)]);
      var used := SuccessesOn(g, events, day) + Carried(g, day);
      && (GoesThrough(g, events, nowMs) <==> used < Allowance(g))
      && (GoesThrough(g, events, nowMs) ==>
            ChargeGrant(After(g, events), nowMs).remaining == Allowance(g) - used - 1)
  {
    var all := events + [ChargeAt(nowMs)];
    assert all[..|all| - 1] == events;
    RecordTracksDay(g, events);
    HighestDayGrows(g, events);
    var day := HighestDay(g, all);
    if day > HighestDay(g, events) {
      NoSuccessesYet(g, events, day);
    }
  }

  /** On any clock, backward steps included, no day lets through more than its budget. */
  lemma {:induction false} BudgetHolds(g: Grant, events: seq<Event>, day: U64)
    ensures SuccessesOn(g, events, day) + Carried(g, day) <= Allowance(g) || SuccessesOn(g, events, day) == 0
  {
    if events != [] {
      var init, last := events[..|events| - 1], events[|events| - 1];
      BudgetHolds(g, init, day);
      if last.ChargeAt? {
        ChargeCountsDown(g, init, last.nowMs);
        assert init + [ChargeAt(last.nowMs)] == events;
      }
    }
  }

  // ---------------------------------------------------------------- days of 24 hours

  /** How many charges went through at or after `from` and before `to`. */
  function SuccessesWithin(g: Grant, events: seq<Event>, from: nat, to: nat): nat {
    if events == [] then 0
    else
      var init, last := events[..|events| - 1], events[|events| - 1];
      SuccessesWithin(g, init, from, to)
      + if last.ChargeAt? && from <= last.nowMs < to && GoesThrough(g, init, last.nowMs) then 1 else 0
  }

  /** No charge comes at an earlier instant than one before it. */
  ghost predicate InOrder(events: seq<Event>) {
    forall i, j :: 0 <= i < j < |events| && events[i].ChargeAt? && events[j].ChargeAt? ==> events[i].nowMs <= events[j].nowMs
  }

  lemma WithinDay(t: nat, day: nat)
    ensures day * 86_400_000 <= t < (day + 1) * 86_400_000 <==> t / 86_400_000 == day
  {}

  /** Charges no later than an instant have seen no day later than that of the instant, or of the record. */
  lemma {:induction false} HighestDayUpto(g: Grant, events: seq<Event>, t: U64)
    requires forall i :: 0 <= i < |events| && events[i].ChargeAt? ==> events[i].nowMs <= t
    ensures HighestDay(g, events) <= if t / 86_400_000 > g.budgetDay then t / 86_400_000 else g.budgetDay
  {
    if events != [] {
      var init := events[..|events| - 1];
      assert forall i :: 0 <= i < |init| ==> init[i] == events[i];
      HighestDayUpto(g, init, t);
    }
  }

  lemma {:induction false} WithinIsOn(g: Grant, events: seq<Event>, day: U64)
    requires InOrder(events)
    ensures SuccessesWithin(g, events, day * 86_400_000, (day + 1) * 86_400_000)
         <= SuccessesOn(g, events, if day > g.budgetDay then day else g.budgetDay)
  {
    if events != [] {
      var init, last := events[..|events| - 1], events[|events| - 1];
      assert forall i :: 0 <= i < |init| ==> init[i] == events[i];
      WithinIsOn(g, init, day);
      WithinDay(last.nowMs, day);
      if last.ChargeAt? && last.nowMs / 86_400_000 == day {
        HighestDayUpto(g, events, last.nowMs);
        HighestDayGrows(g, events);
      }
    }
  }

  /**
   When the charges come in order, no UTC day, from one midnight to the next, lets through more than
   the budget, whatever the record brings along; a budget of 0 counts as 1.
   */
  lemma {:induction false} DailyLimit(g: Grant, events: seq<Event>, day: U64)
    requires InOrder(events)
    ensures SuccessesWithin(g, events, day * 86_400_000, (day + 1) * 86_400_000)
         <= if g.dailyQueryBudget == 0 then 1 else g.dailyQueryBudget
  {
    WithinIsOn(g, events, day);
    BudgetHolds(g, events, if day > g.budgetDay then day else g.budgetDay);
  }

  /** A new grant has its whole budget before it, on whichever day it is charged first. */
  lemma {:induction false} NewGrantAllows(
    id: string, holder: string, scopes: seq<Scope>, issuedMs: U64, expiresMs: U64, events: seq<Event>, nowMs: U64)
    ensures var g := NewGrant(id, holder, scopes, issuedMs, expiresMs);
      GoesThrough(g, events, nowMs) <==> SuccessesOn(g, events, HighestDay(g, events + [ChargeAt(nowMs)])) < 500
  {
    ChargeCountsDown(NewGrant(id, holder, scopes, issuedMs, expiresMs), events, nowMs);
  }

  // ---------------------------------------------------------------- on the store

  /** The disk after the same by one process. */
  function StepOn(d: Disk, id: string, e: Event): Disk {
    match e
    case ChargeAt(now) => BudgetCharged(d, id, now).0
    case UseAt(now, detail) => UseRecorded(d, id, detail, now).0
    case FlagAt(now, reason) => Flagged(d, id, reason, now).0
  }

  function DiskAfter(d: Disk, id: string, events: seq<Event>): Disk {
    if events == [] then d else StepOn(DiskAfter(d, id, events[..|events| - 1]), id, events[|events| - 1])
  }

  lemma {:induction false} StepFollows(d: Disk, id: string, g: Grant, e: Event)
    requires LoadFrom(d, id) == Ok(Some(g)) && g.id == id
    ensures LoadFrom(StepOn(d, id, e), id) == Ok(Some(Step(g, e))) && Step(g, e).id == id
    ensures StepOn(d, id, e).tombstones == d.tombstones
  {}

  /** The store's record follows the charges, uses and flags, one by one. */
  lemma {:induction false} StoreFollows(d: Disk, id: string, g: Grant, events: seq<Event>)
    requires LoadFrom(d, id) == Ok(Some(g)) && g.id == id
    ensures LoadFrom(DiskAfter(d, id, events), id) == Ok(Some(After(g, events))) && After(g, events).id == id
    ensures DiskAfter(d, id, events).tombstones == d.tombstones
    decreases |events|
  {
    if events != [] {
      var init, last := events[..|events| - 1], events[|events| - 1];
      StoreFollows(d, id, g, init);
      StepFollows(DiskAfter(d, id, init), id, After(g, init), last);
    }
  }

  /**
   And the store's answer to the next charge follows them too: the exact remainder while the
   day's allowance lasts, and a refusal, logged and writing nothing, from then on.
   */
  lemma {:induction false} StoreAnswersCharge(d: Disk, id: string, g: Grant, events: seq<Event>, nowMs: U64)
    requires LoadFrom(d, id) == Ok(Some(g)) && g.id == id
    ensures var day := HighestDay(g, events + [ChargeAt(nowMs)]);
      var used := SuccessesOn(g, events, day) + Carried(g, day);
      var (after, answer) := BudgetCharged(DiskAfter(d, id, events), id, nowMs);
      && answer == (if used < Allowance(g) then Ok(Allowance(g) - used - 1) else Err(OverBudget))
      && (used >= Allowance(g) ==>
            && after.files == DiskAfter(d, id, events).files
            && |after.audit| == |DiskAfter(d, id, events).audit| + 1
            && after.audit[|after.audit| - 1].event == Denied(BudgetExhausted))
  {
    StoreFollows(d, id, g, events);
    ChargeCountsDown(g, events, nowMs);
  }
}
