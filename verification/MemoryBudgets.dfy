/** Budget safety of the in-process ledger: with one fixed limit, committed plus
    held usage stays within the limit except for overage that was committed. */
module MemoryBudgets {
  import opened QuotaTypes
  import opened MemoryLedger
  import opened MemoryHolds
  import opened MemoryRuns

  // Every scope that holds the key has the same limit for it.
  predicate FixedLimit(scopes: seq<Scope>, ref: ScopeRef, k: Key, limit: int) {
    forall i :: 0 <= i < |scopes| && scopes[i].ref == ref && HoldsKey(scopes[i], k) ==>
      KeyLimit(scopes[i].limit, k) == limit
  }

  predicate AllFixed(rs: map<Id, Reservation>, ref: ScopeRef, k: Key, limit: int) {
    forall id :: id in rs ==> FixedLimit(rs[id].scopes, ref, k, limit)
  }

  lemma FixedIsCapped(scopes: seq<Scope>, ref: ScopeRef, k: Key, limit: int)
    requires FixedLimit(scopes, ref, k, limit) && limit > 0
    ensures Capped(scopes, ref, k)
  {
    forall i | 0 <= i < |scopes| && scopes[i].ref == ref && k.SpendHeld? && scopes[i].keys.spendHeld == k
      ensures scopes[i].limit.maxSpend > 0
    {
      assert HoldsKey(scopes[i], k);
    }
  }

  ghost predicate BudgetInv(s: Ledger, ref: ScopeRef, k: Key, limit: int, over: int) {
    && KeyInv(s, ref, k, HardCapped)
    && AllFixed(s.reservations, ref, k, limit)
    && UsedValue(s, ref, k) + Value(s, ref, k) <= limit + over
  }

  // The used counter survives releases and holds.
  lemma UsedAfterRelease(s: Ledger, id: Id, actual: int, now: int, ref: ScopeRef, k: Key)
    requires Good(s) && id in s.reservations && IsHeld(k)
    ensures UsedValue(ReleaseHold(s, s.reservations[id], actual, now), ref, k) == UsedValue(s, ref, k)
  {
    hide Value;
    hide GoodValues;
    var res := s.reservations[id];
    if UsedKey(k) != NoKey {
      ReleaseScopesUsed(s, res.scopes, EstimatedTokens(res.held), res.held.spend, actual, now, ref, UsedKey(k));
    }
  }

  lemma UsedAfterHolds(s: Ledger, scopes: seq<Scope>, e: EstimatedUsage, now: int, topUp: bool, ref: ScopeRef, k: Key)
    requires GoodValues(s) && NormalEstimate(e) && Matched(scopes) && IsHeld(k)
    ensures UsedValue(ApplyHolds(s, scopes, e, now, topUp), ref, k) == UsedValue(s, ref, k)
  {
    hide Value;
    hide GoodValues;
    if UsedKey(k) != NoKey {
      ApplyHoldsAt(s, scopes, e, now, topUp, ref, UsedKey(k));
      UsedIsNotHeld(scopes, ref, UsedKey(k), EstimatedTokens(e), e.spend);
      ValueBounds(s, ref, UsedKey(k));
    }
  }

  lemma {:induction false} UsedIsNotHeld(scopes: seq<Scope>, ref: ScopeRef, k: Key, tokens: int, spend: int)
    requires !IsHeld(k)
    ensures ScopesHold(scopes, ref, k, tokens, spend) == 0
    decreases |scopes|
  {
    if scopes != [] {
      UsedIsNotHeld(scopes[1..], ref, k, tokens, spend);
    }
  }

  lemma SameAccountsUsed(s: Ledger, s': Ledger, ref: ScopeRef, k: Key)
    requires SameValues(s, s')
    ensures UsedValue(s', ref, k) == UsedValue(s, ref, k) && Value(s', ref, k) == Value(s, ref, k)
  {
  }

  // --- Ending and cleaning up ---------------------------------------------------

  lemma EndBudget(s: Ledger, id: Id, actual: int, expired: bool, now: int, ref: ScopeRef, k: Key, limit: int, over: int)
    requires BudgetInv(s, ref, k, limit, over) && id in s.reservations && IsHeld(k)
    ensures BudgetInv(EndReservation(s, id, actual, expired, now), ref, k, limit, over)
  {
    hide GoodValues;
    hide Value;
    hide UsedValue;
    hide RecordSettlement;
    hide ReleaseHold;
    hide FixedLimit;
    hide ReservationHold;
    EndReservationInv(s, id, actual, expired, now, ref, k, HardCapped);
    var released := ReleaseHold(s, s.reservations[id], actual, now);
    var ended := released.(reservations := released.reservations - {id});
    ReleaseHoldAt(s, id, actual, now, ref, k);
    UsedAfterRelease(s, id, actual, now, ref, k);
    RecordSettlementKeeps(ended, id, expired, now);
    var s' := EndReservation(s, id, actual, expired, now);
    SameAccountsUsed(released, s', ref, k);
    HeldSumBounds(s.reservations, ref, k);
  }

  lemma {:induction false} ExpireAllBudget(s: Ledger, visit: seq<Id>, now: int, ref: ScopeRef, k: Key, limit: int, over: int)
    requires BudgetInv(s, ref, k, limit, over) && IsHeld(k)
    ensures BudgetInv(ExpireAll(s, visit, now), ref, k, limit, over)
    decreases |visit|
  {
    hide BudgetInv;
    hide EndReservation;
    if visit != [] {
      if visit[0] in s.reservations && Lapsed(s.reservations[visit[0]], now) {
        EndBudget(s, visit[0], 0, true, now, ref, k, limit, over);
      }
      ExpireAllBudget(ExpireOne(s, visit[0], now), visit[1..], now, ref, k, limit, over);
    }
  }

  lemma DropExpiredUsed(s: Ledger, now: int, ref: ScopeRef, k: Key)
    requires GoodValues(s) && IsHeld(k)
    ensures var s' := DropExpiredValues(DropExpiredCounters(s, now), now);
      UsedValue(s', ref, k) <= UsedValue(s, ref, k) && Value(s', ref, k) == Value(s, ref, k)
      && s'.reservations == s.reservations
  {
  }

  lemma CleanupBudget(s: Ledger, now: int, visit: seq<Id>, ref: ScopeRef, k: Key, limit: int, over: int)
    requires BudgetInv(s, ref, k, limit, over) && IsHeld(k)
    ensures BudgetInv(Cleanup(s, now, visit), ref, k, limit, over)
  {
    hide KeyInv;
    hide Value;
    hide UsedValue;
    hide DropExpiredValues;
    hide DropExpiredCounters;
    hide AllFixed;
    var s1 := ExpireAll(s, visit, now);
    var s2 := CleanupSettlements(s1, now);
    ExpireAllBudget(s, visit, now, ref, k, limit, over);
    CleanupSettlementsKeeps(s1, now);
    SameAccountsUsed(s1, s2, ref, k);
    SameAccountsInv(s1, s2, ref, k, HardCapped);
    KeyInvGood(s2, ref, k, HardCapped);
    DropExpiredUsed(s2, now, ref, k);
    DropExpiredInv(s2, now, ref, k, HardCapped);
  }

  // --- Admissions --------------------------------------------------------------------

  // A checked hold on the key keeps the budget within the limit itself.
  lemma CheckedBudget(s: Ledger, scopes: seq<Scope>, e: EstimatedUsage, now: int, topUp: bool,
                      ref: ScopeRef, k: Key, limit: int, over: int)
    requires GoodValues(s) && GoodScopes(scopes) && NormalEstimate(e) && IsHeld(k) && limit > 0 && over >= 0
    requires FixedLimit(scopes, ref, k, limit)
    requires CheckScopes(s, scopes, e, now, topUp).None?
    requires UsedValue(s, ref, k) + Value(s, ref, k) <= limit + over
    ensures UsedValue(s, ref, k) + Value(s, ref, k)
            + HoldsDelta(scopes, ref, k, EstimatedTokens(e), e.spend, topUp) <= limit + over
  {
    hide CheckScopes;
    hide CheckScope;
    hide GoodValues;
    var tokens, spend := EstimatedTokens(e), e.spend;
    if Touches(scopes, ref) {
      var i :| 0 <= i < |scopes| && scopes[i].ref == ref;
      SingleHold(scopes, i, k, tokens, spend);
      if HoldsKey(scopes[i], k) && !(topUp && k.Active?) {
        CheckedScopes(s, scopes, e, now, topUp, i);
        CheckedScope(s, scopes[i], e, now, topUp, k);
      }
    } else {
      NoHold(scopes, ref, k, tokens, spend);
    }
  }

  lemma HeldBudget(s: Ledger, scopes: seq<Scope>, e: EstimatedUsage, now: int, topUp: bool,
                   ref: ScopeRef, k: Key, limit: int, over: int)
    requires GoodValues(s) && GoodScopes(scopes) && NormalEstimate(e) && IsHeld(k) && limit > 0 && over >= 0
    requires FixedLimit(scopes, ref, k, limit)
    requires CheckScopes(s, scopes, e, now, topUp).None?
    requires UsedValue(s, ref, k) + Value(s, ref, k) <= limit + over
    ensures var s' := ApplyHolds(s, scopes, e, now, topUp); UsedValue(s', ref, k) + Value(s', ref, k) <= limit + over
  {
    hide GoodValues;
    hide Value;
    hide UsedValue;
    hide CheckScopes;
    hide HoldsDelta;
    CheckedBudget(s, scopes, e, now, topUp, ref, k, limit, over);
    UsedAfterHolds(s, scopes, e, now, topUp, ref, k);
    ApplyHoldsAt(s, scopes, e, now, topUp, ref, k);
  }

  lemma ReserveBudget(s: Ledger, id: Id, scopes: seq<ScopedLimit>, estimate: EstimatedUsage, ttl: int,
                      at: Instant, visit: seq<Id>, ref: ScopeRef, k: Key, limit: int, over: int)
    requires BudgetInv(s, ref, k, limit, over) && IsHeld(k) && DistinctScopeRefs(scopes) && limit > 0 && over >= 0
    requires FixedLimit(ResolveScopes(scopes, at), ref, k, limit)
    ensures BudgetInv(ReserveStep(s, id, scopes, estimate, ttl, at, visit).0, ref, k, limit, over)
  {
    hide KeyInv;
    hide Cleanup;
    hide ApplyHolds;
    hide CheckScopes;
    hide FixedLimit;
    hide Value;
    hide UsedValue;
    hide GoodScopes;
    var s1 := Cleanup(s, at.ns, visit);
    CleanupBudget(s, at.ns, visit, ref, k, limit, over);
    ResolvedGood(scopes, at);
    var e, resolved := NormalizeEstimate(estimate), ResolveScopes(scopes, at);
    FixedIsCapped(resolved, ref, k, limit);
    ReserveInv(s, id, scopes, estimate, ttl, at, visit, ref, k, HardCapped);
    if id !in s1.settlements && id !in s1.reservations && CheckScopes(s1, resolved, e, at.ns, false).None? {
      var s2 := ApplyHolds(s1, resolved, e, at.ns, false);
      var s' := ReserveStep(s, id, scopes, estimate, ttl, at, visit).0;
      KeyInvGood(s1, ref, k, HardCapped);
      HeldBudget(s1, resolved, e, at.ns, false, ref, k, limit, over);
      GoodIsMatched(resolved);
      ApplyHoldsGood(s1, resolved, e, at.ns, false);
      SameAccountsUsed(s2, s', ref, k);
    }
  }

  lemma GoodIsMatched(scopes: seq<Scope>)
    requires GoodScopes(scopes)
    ensures Matched(scopes)
  {
  }

  lemma TopUpBudget(s: Ledger, id: Id, delta: EstimatedUsage, ttl: int, at: Instant, visit: seq<Id>,
                    ref: ScopeRef, k: Key, limit: int, over: int)
    requires BudgetInv(s, ref, k, limit, over) && IsHeld(k) && limit > 0 && over >= 0
    ensures BudgetInv(TopUpStep(s, id, delta, ttl, at, visit).0, ref, k, limit, over)
  {
    hide KeyInv;
    hide Cleanup;
    hide ApplyHolds;
    hide CheckScopes;
    hide FixedLimit;
    hide Value;
    hide UsedValue;
    hide Grown;
    hide GoodScopes;
    var s1 := Cleanup(s, at.ns, visit);
    CleanupBudget(s, at.ns, visit, ref, k, limit, over);
    TopUpInv(s, id, delta, ttl, at, visit, ref, k, HardCapped);
    var s' := TopUpStep(s, id, delta, ttl, at, visit).0;
    if id in s1.reservations {
      var d, res := NormalizeEstimate(delta), s1.reservations[id];
      KeyInvGood(s1, ref, k, HardCapped);
      assert GoodReservation(res);
      GoodIsMatched(res.scopes);
      if EstimatedTokens(d) == 0 && d.spend == 0 {
        SameAccountsUsed(s1, s', ref, k);
      } else if CheckScopes(s1, res.scopes, d, at.ns, true).None? {
        HeldBudget(s1, res.scopes, d, at.ns, true, ref, k, limit, over);
        ApplyHoldsGood(s1, res.scopes, d, at.ns, true);
        SameAccountsUsed(ApplyHolds(s1, res.scopes, d, at.ns, true), s', ref, k);
      }
    }
  }

  // --- Commits and the overage they add ---------------------------------------------------

  /** By how much a commit of `actual` exceeds what the reservation held on the key. */
  function Overage(res: Reservation, actual: ActualUsage, ref: ScopeRef, k: Key): (r: int)
    ensures r >= 0
  {
    Max(0, ScopesUsed(res.scopes, ref, UsedKey(k), ActualTokens(actual), actual.spend) - ReservationHold(res, ref, k))
  }

  function StepOverage(s: Ledger, e: Event, ref: ScopeRef, k: Key): (r: int)
    ensures r >= 0
  {
    if e.op.Commit? && e.op.id != 0 && e.op.id in Cleanup(s, e.at.ns, e.visit).reservations
    then Overage(Cleanup(s, e.at.ns, e.visit).reservations[e.op.id], NormalizeActual(e.op.actual), ref, k)
    else 0
  }

  function RunOverage(s: Ledger, es: seq<Event>, ref: ScopeRef, k: Key): (r: int)
    ensures r >= 0
    decreases |es|
  {
    if es == [] then 0 else StepOverage(s, es[0], ref, k) + RunOverage(Step(s, es[0]).0, es[1..], ref, k)
  }

  lemma {:induction false} NoKeyUnused(scopes: seq<Scope>, ref: ScopeRef, tokens: int, spend: int)
    ensures ScopesUsed(scopes, ref, NoKey, tokens, spend) == 0
    decreases |scopes|
  {
    if scopes != [] {
      NoKeyUnused(scopes[1..], ref, tokens, spend);
    }
  }

  lemma UsedAfterCommit(s: Ledger, id: Id, actual: ActualUsage, now: int, ref: ScopeRef, k: Key)
    requires Good(s) && id in s.reservations && IsHeld(k) && NormalActual(actual)
    ensures var s', res := Committed(s, id, actual, now), s.reservations[id];
      UsedValue(s', ref, k)
        <= UsedValue(s, ref, k) + ScopesUsed(res.scopes, ref, UsedKey(k), ActualTokens(actual), actual.spend)
  {
    hide GoodValues;
    hide Value;
    hide ReleaseHold;
    hide UseScopes;
    hide ScopesUsed;
    var res := s.reservations[id];
    var s1 := ReleaseHold(s, res, ActualTokens(actual), now);
    UsedAfterRelease(s, id, ActualTokens(actual), now, ref, k);
    ReleaseHoldAt(s, id, ActualTokens(actual), now, ref, k);
    if UsedKey(k) != NoKey {
      UseScopesAt(s1, res.scopes, actual, now, ref, UsedKey(k));
    } else {
      NoKeyUnused(res.scopes, ref, ActualTokens(actual), actual.spend);
    }
  }

  lemma HeldAfterCommit(s: Ledger, id: Id, actual: ActualUsage, now: int, ref: ScopeRef, k: Key)
    requires KeyInv(s, ref, k, HardCapped) && id in s.reservations && IsHeld(k) && NormalActual(actual)
    ensures Value(Committed(s, id, actual, now), ref, k) == Value(s, ref, k) - ReservationHold(s.reservations[id], ref, k)
  {
    hide GoodValues;
    hide Value;
    hide ReleaseHold;
    hide UseScopes;
    hide ScopesUsed;
    hide ReservationHold;
    var res := s.reservations[id];
    var s1 := ReleaseHold(s, res, ActualTokens(actual), now);
    ReleaseHoldAt(s, id, ActualTokens(actual), now, ref, k);
    HeldSumBounds(s.reservations, ref, k);
    UseScopesAt(s1, res.scopes, actual, now, ref, k);
    HeldIsNotUsed(res.scopes, ref, k, ActualTokens(actual), actual.spend);
    ValueBounds(s1, ref, k);
  }

  lemma CommitBudget(s: Ledger, id: Id, usage: ActualUsage, at: Instant, visit: seq<Id>,
                     ref: ScopeRef, k: Key, limit: int, over: int)
    requires BudgetInv(s, ref, k, limit, over) && IsHeld(k) && over >= 0
    ensures var s1 := Cleanup(s, at.ns, visit);
      var more := if id in s1.reservations then Overage(s1.reservations[id], NormalizeActual(usage), ref, k) else 0;
      BudgetInv(CommitStep(s, id, usage, at, visit).0, ref, k, limit, over + more)
  {
    hide KeyInv;
    hide Cleanup;
    hide RecordSettlement;
    hide UseScopes;
    hide ReleaseHold;
    hide FixedLimit;
    hide Value;
    hide UsedValue;
    hide ScopesUsed;
    hide ReservationHold;
    var s1 := Cleanup(s, at.ns, visit);
    CleanupBudget(s, at.ns, visit, ref, k, limit, over);
    CommitInv(s, id, usage, at, visit, ref, k, HardCapped);
    if id in s1.reservations {
      var actual := NormalizeActual(usage);
      var s2 := Committed(s1, id, actual, at.ns);
      var s3 := s2.(reservations := s2.reservations - {id});
      KeyInvGood(s1, ref, k, HardCapped);
      UsedAfterCommit(s1, id, actual, at.ns, ref, k);
      HeldAfterCommit(s1, id, actual, at.ns, ref, k);
      CommittedBooks(s1, id, actual, at.ns);
      RecordSettlementKeeps(s3, id, false, at.ns);
      SameAccountsUsed(s2, CommitStep(s, id, usage, at, visit).0, ref, k);
    }
  }

  lemma CommittedBooks(s: Ledger, id: Id, actual: ActualUsage, now: int)
    requires Good(s) && id in s.reservations && NormalActual(actual)
    ensures Committed(s, id, actual, now).reservations == s.reservations
  {
    hide GoodValues;
    var res := s.reservations[id];
    ReleaseScopesGood(s, res.scopes, EstimatedTokens(res.held), res.held.spend, ActualTokens(actual), now);
    UseScopesGood(ReleaseHold(s, res, ActualTokens(actual), now), res.scopes, actual, now);
  }

  // --- Runs ------------------------------------------------------------------------------------

  predicate FixedEvent(e: Event, ref: ScopeRef, k: Key, limit: int) {
    e.op.Reserve? ==> FixedLimit(ResolveScopes(e.op.scopes, e.at), ref, k, limit)
  }

  lemma StepBudget(s: Ledger, e: Event, ref: ScopeRef, k: Key, limit: int, over: int)
    requires BudgetInv(s, ref, k, limit, over) && IsHeld(k) && limit > 0 && over >= 0
    requires GoodEvent(e) && FixedEvent(e, ref, k, limit)
    ensures BudgetInv(Step(s, e).0, ref, k, limit, over + StepOverage(s, e, ref, k))
  {
    hide BudgetInv;
    hide ReserveStep;
    hide TopUpStep;
    hide CommitStep;
    hide RefundStep;
    hide Cleanup;
    hide FixedLimit;
    hide Overage;
    match e.op
    case Reserve(id, scopes, estimate, ttl) =>
      ReserveBudget(s, id, scopes, estimate, ttl, e.at, e.visit, ref, k, limit, over);
    case TopUp(id, delta, ttl) => TopUpBudget(s, id, delta, ttl, e.at, e.visit, ref, k, limit, over);
    case Commit(id, actual) => CommitBudget(s, id, actual, e.at, e.visit, ref, k, limit, over);
    case Refund(id) => RefundBudget(s, id, e.at, e.visit, ref, k, limit, over);
    case Usage => CleanupBudget(s, e.at.ns, e.visit, ref, k, limit, over);
  }

  lemma RefundBudget(s: Ledger, id: Id, at: Instant, visit: seq<Id>, ref: ScopeRef, k: Key, limit: int, over: int)
    requires BudgetInv(s, ref, k, limit, over) && IsHeld(k)
    ensures BudgetInv(RefundStep(s, id, at, visit).0, ref, k, limit, over)
  {
    hide BudgetInv;
    hide Cleanup;
    hide EndReservation;
    CleanupBudget(s, at.ns, visit, ref, k, limit, over);
    var s1 := Cleanup(s, at.ns, visit);
    if id in s1.reservations {
      EndBudget(s1, id, 0, false, at.ns, ref, k, limit, over);
    }
  }

  lemma {:induction false} RunBudget(s: Ledger, es: seq<Event>, ref: ScopeRef, k: Key, limit: int, over: int)
    requires BudgetInv(s, ref, k, limit, over) && IsHeld(k) && limit > 0 && over >= 0
    requires forall i :: 0 <= i < |es| ==> GoodEvent(es[i]) && FixedEvent(es[i], ref, k, limit)
    ensures BudgetInv(Run(s, es), ref, k, limit, over + RunOverage(s, es, ref, k))
    decreases |es|
  {
    hide BudgetInv;
    hide Step;
    hide StepOverage;
    hide GoodEvent;
    hide FixedEvent;
    if es != [] {
      StepBudget(s, es[0], ref, k, limit, over);
      RunBudget(Step(s, es[0]).0, es[1..], ref, k, limit, over + StepOverage(s, es[0], ref, k));
    }
  }

  lemma EmptyBudget(ref: ScopeRef, k: Key, limit: int)
    requires limit > 0
    ensures BudgetInv(EMPTY_LEDGER, ref, k, limit, 0)
  {
    EmptyKeyInv(ref, k);
  }

  /** Over every run in which a key keeps one hard limit, committed plus held
      usage on it never exceeds the limit plus the total overage of commits that
      used more than they held. For the parallel limit there is no overage. */
  lemma BudgetNeverExceeded(es: seq<Event>, ref: ScopeRef, k: Key, limit: int)
    requires IsHeld(k) && limit > 0
    requires forall i :: 0 <= i < |es| ==> GoodEvent(es[i]) && FixedEvent(es[i], ref, k, limit)
    ensures var s := Run(EMPTY_LEDGER, es);
      UsedValue(s, ref, k) + Value(s, ref, k) <= limit + RunOverage(EMPTY_LEDGER, es, ref, k)
  {
    hide Run;
    hide RunOverage;
    hide KeyInv;
    hide GoodEvent;
    hide FixedEvent;
    EmptyBudget(ref, k, limit);
    RunBudget(EMPTY_LEDGER, es, ref, k, limit, 0);
  }

  lemma NoParallelOverage(s: Ledger, e: Event, ref: ScopeRef, limit: int)
    requires BudgetInv(s, ref, Active, limit, 0)
    ensures StepOverage(s, e, ref, Active) == 0
  {
    hide Cleanup;
    var s1 := Cleanup(s, e.at.ns, e.visit);
    CleanupBudget(s, e.at.ns, e.visit, ref, Active, limit, 0);
    if e.op.Commit? && e.op.id != 0 && e.op.id in s1.reservations {
      var res, actual := s1.reservations[e.op.id], NormalizeActual(e.op.actual);
      NoKeyUnused(res.scopes, ref, ActualTokens(actual), actual.spend);
      ScopesHoldNonNegative(res.scopes, ref, Active, EstimatedTokens(res.held), res.held.spend);
    }
  }

  lemma {:induction false} RunParallel(s: Ledger, es: seq<Event>, ref: ScopeRef, limit: int)
    requires BudgetInv(s, ref, Active, limit, 0) && limit > 0
    requires forall i :: 0 <= i < |es| ==> GoodEvent(es[i]) && FixedEvent(es[i], ref, Active, limit)
    ensures BudgetInv(Run(s, es), ref, Active, limit, 0)
    decreases |es|
  {
    hide BudgetInv;
    hide Step;
    hide StepOverage;
    hide GoodEvent;
    hide FixedEvent;
    if es != [] {
      StepBudget(s, es[0], ref, Active, limit, 0);
      NoParallelOverage(s, es[0], ref, limit);
      RunParallel(Step(s, es[0]).0, es[1..], ref, limit);
    }
  }

  /** The live reservations that take up a slot of the parallel limit. */
  function SlotHolders(rs: map<Id, Reservation>, ref: ScopeRef): set<Id> {
    set id | id in rs && ReservationHold(rs[id], ref, Active) > 0
  }

  // A reservation takes at most one slot, since its scopes have distinct references.
  lemma SlotIsOne(res: Reservation, ref: ScopeRef)
    requires GoodReservation(res)
    ensures 0 <= ReservationHold(res, ref, Active) <= 1
  {
    var tokens, spend := EstimatedTokens(res.held), res.held.spend;
    if Touches(res.scopes, ref) {
      var i :| 0 <= i < |res.scopes| && res.scopes[i].ref == ref;
      SingleHold(res.scopes, i, Active, tokens, spend);
    } else {
      NoHold(res.scopes, ref, Active, tokens, spend);
    }
  }

  lemma {:induction false} SlotsCountHolders(rs: map<Id, Reservation>, ref: ScopeRef)
    requires GoodReservations(rs)
    ensures HeldSum(rs, ref, Active) == |SlotHolders(rs, ref)|
    decreases |rs|
  {
    hide HeldSum, ReservationHold, GoodReservation;
    if rs.Keys == {} {
      NoReservations(rs, ref);
      assert SlotHolders(rs, ref) == {};
    } else {
      var id :| id in rs;
      var rest := rs - {id};
      SlotIsOne(rs[id], ref);
      HeldSumRemove(rs, id, ref, Active);
      SlotsCountHolders(rest, ref);
      assert SlotHolders(rs, ref) == SlotHolders(rest, ref) + (if ReservationHold(rs[id], ref, Active) > 0 then {id} else {});
    }
  }

  lemma NoReservations(rs: map<Id, Reservation>, ref: ScopeRef)
    requires rs.Keys == {}
    ensures HeldSum(rs, ref, Active) == 0
  {
    assert Holds(rs, ref, Active) == map[];
  }

  /** A fixed parallel limit is never exceeded, not even by settlement: neither
      by the counter nor by the number of live reservations that take a slot. */
  lemma ParallelLimitHolds(es: seq<Event>, ref: ScopeRef, limit: int)
    requires limit > 0
    requires forall i :: 0 <= i < |es| ==> GoodEvent(es[i]) && FixedEvent(es[i], ref, Active, limit)
    ensures Value(Run(EMPTY_LEDGER, es), ref, Active) <= limit
    ensures |SlotHolders(Run(EMPTY_LEDGER, es).reservations, ref)| <= limit
  {
    hide Run, GoodEvent, FixedEvent, GoodValues, GoodReservations, Value, HeldSum, SlotHolders;
    EmptyBudget(ref, Active, limit);
    RunParallel(EMPTY_LEDGER, es, ref, limit);
    SlotsCountHolders(Run(EMPTY_LEDGER, es).reservations, ref);
  }

  // --- Refusals ---------------------------------------------------------------------------

  /** What live reservations hold on the key, and its counter, are no more than before. */
  ghost predicate NoMoreHeld(s: Ledger, s': Ledger, ref: ScopeRef, k: Key) {
    Value(s', ref, k) <= Value(s, ref, k) && HeldSum(s'.reservations, ref, k) <= HeldSum(s.reservations, ref, k)
  }

  lemma EndHoldsNoMore(s: Ledger, id: Id, actual: int, expired: bool, now: int, ref: ScopeRef, k: Key)
    requires KeyInv(s, ref, k, Loose) && id in s.reservations && IsHeld(k)
    ensures NoMoreHeld(s, EndReservation(s, id, actual, expired, now), ref, k)
  {
    hide GoodValues, Value, HeldSum, ReservationHold, RecordSettlement, ReleaseHold;
    var released := ReleaseHold(s, s.reservations[id], actual, now);
    var ended := released.(reservations := released.reservations - {id});
    ReleaseHoldAt(s, id, actual, now, ref, k);
    SameValuesGood(released, ended, ref, k);
    RecordSettlementKeeps(ended, id, expired, now);
    SameValuesGood(ended, RecordSettlement(ended, id, expired, now), ref, k);
    HeldSumRemove(s.reservations, id, ref, k);
    HeldSumBounds(s.reservations, ref, k);
    ValueBounds(s, ref, k);
  }

  lemma {:induction false} ExpiryHoldsNoMore(s: Ledger, visit: seq<Id>, now: int, ref: ScopeRef, k: Key)
    requires KeyInv(s, ref, k, Loose) && IsHeld(k)
    ensures NoMoreHeld(s, ExpireAll(s, visit, now), ref, k) && KeyInv(ExpireAll(s, visit, now), ref, k, Loose)
    decreases |visit|
  {
    hide KeyInv, EndReservation, Value, HeldSum;
    if visit != [] {
      var id := visit[0];
      if id in s.reservations && Lapsed(s.reservations[id], now) {
        EndHoldsNoMore(s, id, 0, true, now, ref, k);
        EndReservationInv(s, id, 0, true, now, ref, k, Loose);
      }
      ExpiryHoldsNoMore(ExpireOne(s, id, now), visit[1..], now, ref, k);
    }
  }

  lemma CleanupHoldsNoMore(s: Ledger, now: int, visit: seq<Id>, ref: ScopeRef, k: Key)
    requires KeyInv(s, ref, k, Loose) && IsHeld(k)
    ensures NoMoreHeld(s, Cleanup(s, now, visit), ref, k)
  {
    hide KeyInv, ExpireAll, CleanupSettlements, HeldSum, GoodValues;
    ExpiryHoldsNoMore(s, visit, now, ref, k);
    var s1 := ExpireAll(s, visit, now);
    CleanupSettlementsKeeps(s1, now);
    KeyInvGood(s1, ref, k, Loose);
    ValueBounds(s1, ref, k);
  }

  // A refused reserve or top-up leaves exactly what cleanup leaves.
  lemma RefusedIsCleanup(s: Ledger, e: Event)
    requires (e.op.Reserve? || e.op.TopUp?) && Step(s, e).1 != Ok
    ensures Step(s, e).0 == Cleanup(s, e.at.ns, e.visit)
  {
    hide Cleanup, ApplyHolds, CheckScopes;
  }

  /** After every run, a reserve or top-up that is refused leaves exactly what
      cleanup leaves: it adds no hold on any key of any scope, neither to the
      counter nor to what live reservations hold. */
  lemma RefusalAddsNoHold(es: seq<Event>, e: Event, ref: ScopeRef, k: Key)
    requires IsHeld(k) && forall i :: 0 <= i < |es| ==> GoodEvent(es[i])
    requires (e.op.Reserve? || e.op.TopUp?) && Step(Run(EMPTY_LEDGER, es), e).1 != Ok
    ensures var s := Run(EMPTY_LEDGER, es);
      var s' := Step(s, e).0;
      && s' == Cleanup(s, e.at.ns, e.visit)
      && Value(s', ref, k) <= Value(s, ref, k)
      && HeldSum(s'.reservations, ref, k) <= HeldSum(s.reservations, ref, k)
  {
    hide Run, Step, Cleanup, KeyInv, Value, HeldSum;
    EmptyKeyInv(ref, k);
    RunInv(EMPTY_LEDGER, es, ref, k, Loose);
    RefusedIsCleanup(Run(EMPTY_LEDGER, es), e);
    CleanupHoldsNoMore(Run(EMPTY_LEDGER, es), e.at.ns, e.visit, ref, k);
  }
}
