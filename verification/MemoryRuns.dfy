/** Conservation in the in-process ledger: over every run of store calls a held
    counter follows the reservations that are live on it. */
module MemoryRuns {
  import opened QuotaTypes
  import opened MemoryLedger
  import opened MemoryHolds

  predicate Good(s: Ledger) { GoodValues(s) && GoodReservations(s.reservations) }

  /** How closely a held counter is followed: at most the sum over live
      reservations; equal to it as long as that sum fits in 64 bits; or equal
      because every scope on the key has a hard cap. */
  datatype Mode = Loose | Exact | HardCapped

  ghost predicate Tracks(s: Ledger, ref: ScopeRef, k: Key, mode: Mode) {
    if mode.Loose? then Value(s, ref, k) <= HeldSum(s.reservations, ref, k)
    else Value(s, ref, k) == HeldSum(s.reservations, ref, k)
  }

  // What the reservations after a call hold together fits in a counter.
  ghost predicate Fits(rs: map<Id, Reservation>, ref: ScopeRef, k: Key) { HeldSum(rs, ref, k) <= MAX_INT64 }

  // Soft spend budgets are checked against nothing, so only they can saturate.
  predicate Capped(scopes: seq<Scope>, ref: ScopeRef, k: Key) {
    forall i :: 0 <= i < |scopes| && scopes[i].ref == ref && k.SpendHeld? && scopes[i].keys.spendHeld == k ==>
      scopes[i].limit.maxSpend > 0
  }

  predicate AllCapped(rs: map<Id, Reservation>, ref: ScopeRef, k: Key) {
    forall id :: id in rs ==> Capped(rs[id].scopes, ref, k)
  }

  ghost predicate KeyInv(s: Ledger, ref: ScopeRef, k: Key, mode: Mode) {
    Good(s) && Tracks(s, ref, k, mode) && (mode.HardCapped? ==> AllCapped(s.reservations, ref, k))
  }

  // --- Settlement bookkeeping leaves the accounts alone ------------------------

  predicate SameAccounts(s: Ledger, s': Ledger) {
    s'.values == s.values && s'.valueExpires == s.valueExpires && s'.counters == s.counters
    && s'.reservations == s.reservations
  }

  lemma {:induction false} CleanupSettlementsKeeps(s: Ledger, now: int)
    ensures SameAccounts(s, CleanupSettlements(s, now))
    decreases |s.order|
  {
    if s.order != [] && !(s.order[0].id in s.settlements && now < s.settlements[s.order[0].id].expires) {
      CleanupSettlementsKeeps(RemoveOldest(s), now);
    }
  }

  lemma {:induction false} TrimSettlementsKeeps(s: Ledger)
    ensures SameAccounts(s, TrimSettlements(s))
    decreases |s.order|
  {
    if |s.settlements| > MAX_SETTLEMENTS && s.order != [] {
      TrimSettlementsKeeps(RemoveOldest(s));
    }
  }

  lemma RecordSettlementKeeps(s: Ledger, id: Id, expired: bool, now: int)
    ensures SameAccounts(s, RecordSettlement(s, id, expired, now))
  {
    if id != 0 {
      var order := if id in s.settlements then Without(s.order, s.settlements[id].element) else s.order;
      var pushed := s.(order := order + [Element(s.nextToken, id)], nextToken := s.nextToken + 1,
                       settlements := s.settlements[id := Settlement(now + REPLAY_WINDOW, expired, s.nextToken)]);
      CleanupSettlementsKeeps(pushed, now);
      TrimSettlementsKeeps(CleanupSettlements(pushed, now));
    }
  }

  lemma SameAccountsInv(s: Ledger, s': Ledger, ref: ScopeRef, k: Key, mode: Mode)
    requires SameAccounts(s, s') && KeyInv(s, ref, k, mode)
    ensures KeyInv(s', ref, k, mode)
  {
  }

  lemma KeyInvGood(s: Ledger, ref: ScopeRef, k: Key, mode: Mode)
    requires KeyInv(s, ref, k, mode)
    ensures Good(s)
  {
  }

  // --- Ending a reservation -----------------------------------------------------

  lemma ReleaseHoldAt(s: Ledger, id: Id, actual: int, now: int, ref: ScopeRef, k: Key)
    requires Good(s) && id in s.reservations && IsHeld(k)
    ensures var s' := ReleaseHold(s, s.reservations[id], actual, now);
      && Value(s', ref, k) == Max(0, Value(s, ref, k) - ReservationHold(s.reservations[id], ref, k))
      && GoodValues(s') && SameBooks(s, s')
  {
    hide Value;
    hide GoodValues;
    var res := s.reservations[id];
    ReleaseScopesAt(s, res.scopes, EstimatedTokens(res.held), res.held.spend, actual, now, ref, k);
    ReleaseScopesGood(s, res.scopes, EstimatedTokens(res.held), res.held.spend, actual, now);
  }

  lemma FewerReservations(rs: map<Id, Reservation>, id: Id, ref: ScopeRef, k: Key)
    ensures GoodReservations(rs) ==> GoodReservations(rs - {id})
    ensures AllCapped(rs, ref, k) ==> AllCapped(rs - {id}, ref, k)
  {
    hide GoodReservation, Capped;
  }

  lemma OneMoreReservation(rs: map<Id, Reservation>, id: Id, res: Reservation, ref: ScopeRef, k: Key)
    ensures GoodReservations(rs) && GoodReservation(res) ==> GoodReservations(rs[id := res])
    ensures AllCapped(rs, ref, k) && Capped(res.scopes, ref, k) ==> AllCapped(rs[id := res], ref, k)
    ensures id in rs && GoodReservations(rs) ==> GoodReservation(rs[id])
    ensures id in rs && AllCapped(rs, ref, k) ==> Capped(rs[id].scopes, ref, k)
  {
    hide GoodReservation, Capped;
  }

  // A ledger whose counter gave back what one reservation held, without it.
  lemma ReleasedInv(s: Ledger, s': Ledger, id: Id, ref: ScopeRef, k: Key, mode: Mode)
    requires KeyInv(s, ref, k, mode) && id in s.reservations
    requires GoodValues(s') && s'.reservations == s.reservations - {id}
    requires Value(s', ref, k) == Max(0, Value(s, ref, k) - ReservationHold(s.reservations[id], ref, k))
    ensures KeyInv(s', ref, k, mode)
  {
    hide Value, GoodValues, GoodReservations, AllCapped, HeldSum, ReservationHold;
    FewerReservations(s.reservations, id, ref, k);
    HeldSumRemove(s.reservations, id, ref, k);
    HeldSumBounds(s.reservations, ref, k);
    HeldSumBounds(s'.reservations, ref, k);
  }

  lemma EndReservationInv(s: Ledger, id: Id, actual: int, expired: bool, now: int, ref: ScopeRef, k: Key, mode: Mode)
    requires KeyInv(s, ref, k, mode) && id in s.reservations && IsHeld(k)
    ensures KeyInv(EndReservation(s, id, actual, expired, now), ref, k, mode)
  {
    hide GoodValues;
    hide RecordSettlement;
    hide ReleaseHold;
    var released := ReleaseHold(s, s.reservations[id], actual, now);
    var ended := released.(reservations := released.reservations - {id});
    ReleaseHoldAt(s, id, actual, now, ref, k);
    assert GoodValues(ended) && Value(ended, ref, k) == Value(released, ref, k) by { SameValuesGood(released, ended, ref, k); }
    ReleasedInv(s, ended, id, ref, k, mode);
    RecordSettlementKeeps(ended, id, expired, now);
    SameAccountsInv(ended, RecordSettlement(ended, id, expired, now), ref, k, mode);
  }

  lemma SameValuesGood(s: Ledger, s': Ledger, ref: ScopeRef, k: Key)
    requires GoodValues(s) && SameValues(s, s')
    ensures GoodValues(s') && Value(s', ref, k) == Value(s, ref, k)
  {
  }

  // --- Cleanup ----------------------------------------------------------------------

  lemma {:induction false} ExpireAllInv(s: Ledger, visit: seq<Id>, now: int, ref: ScopeRef, k: Key, mode: Mode)
    requires KeyInv(s, ref, k, mode) && IsHeld(k)
    ensures KeyInv(ExpireAll(s, visit, now), ref, k, mode)
    decreases |visit|
  {
    hide KeyInv;
    hide EndReservation;
    if visit != [] {
      if visit[0] in s.reservations && Lapsed(s.reservations[visit[0]], now) {
        EndReservationInv(s, visit[0], 0, true, now, ref, k, mode);
      }
      ExpireAllInv(ExpireOne(s, visit[0], now), visit[1..], now, ref, k, mode);
    }
  }

  lemma DropExpiredInv(s: Ledger, now: int, ref: ScopeRef, k: Key, mode: Mode)
    requires KeyInv(s, ref, k, mode) && IsHeld(k)
    ensures KeyInv(DropExpiredValues(DropExpiredCounters(s, now), now), ref, k, mode)
  {
    var s' := DropExpiredValues(DropExpiredCounters(s, now), now);
    assert Value(s', ref, k) == Value(s, ref, k);
  }

  lemma CleanupInv(s: Ledger, now: int, visit: seq<Id>, ref: ScopeRef, k: Key, mode: Mode)
    requires KeyInv(s, ref, k, mode) && IsHeld(k)
    ensures KeyInv(Cleanup(s, now, visit), ref, k, mode)
  {
    hide KeyInv;
    hide DropExpiredValues;
    hide DropExpiredCounters;
    var s1 := ExpireAll(s, visit, now);
    ExpireAllInv(s, visit, now, ref, k, mode);
    CleanupSettlementsKeeps(s1, now);
    SameAccountsInv(s1, CleanupSettlements(s1, now), ref, k, mode);
    DropExpiredInv(CleanupSettlements(s1, now), now, ref, k, mode);
  }

  // --- Checked holds fit --------------------------------------------------------------

  function UsedValue(s: Ledger, ref: ScopeRef, k: Key): int {
    if UsedKey(k) == NoKey then 0 else Value(s, ref, UsedKey(k))
  }

  predicate HoldsKey(scope: Scope, k: Key) {
    match k
    case Active => scope.keys.active == k
    case SpendHeld(_) => scope.keys.spendHeld == k
    case DayHeld(_) => scope.keys.dayHeld == k
    case MonthHeld(_) => scope.keys.monthHeld == k
    case _ => false
  }

  lemma TotalOfTwo(a: int, b: int)
    requires 0 <= a && 0 <= b
    ensures TotalOf([a, b]) == a + b
  {
    assert [a, b][1..] == [b] && [b][1..] == [];
    assert TotalOf([b]) == b;
  }

  lemma TotalOfThree(a: int, b: int, c: int)
    requires 0 <= a && 0 <= b && 0 <= c
    ensures TotalOf([a, b, c]) == a + b + c
  {
    assert [a, b, c][1..] == [b, c];
    TotalOfTwo(b, c);
  }

  lemma CheckedScope(s: Ledger, scope: Scope, e: EstimatedUsage, now: int, topUp: bool, k: Key)
    requires GoodValues(s) && ScopeMatchesLimit(scope) && NormalEstimate(e) && IsHeld(k)
    requires CheckScope(s, scope, e, now, topUp).None? && HoldsKey(scope, k) && KeyLimit(scope.limit, k) > 0
    requires k.Active? ==> !topUp
    ensures UsedValue(s, scope.ref, k) + Value(s, scope.ref, k)
            + HoldDelta(scope, scope.ref, k, EstimatedTokens(e), e.spend, topUp) <= KeyLimit(scope.limit, k)
  {
    hide TotalOf;
    var ref, keys, tokens := scope.ref, scope.keys, EstimatedTokens(e);
    TotalOfTwo(Value(s, ref, keys.active), 1);
    TotalOfThree(Value(s, ref, keys.spendUsed), Value(s, ref, keys.spendHeld), e.spend);
    TotalOfThree(Value(s, ref, keys.dayUsed), Value(s, ref, keys.dayHeld), tokens);
    TotalOfThree(Value(s, ref, keys.monthUsed), Value(s, ref, keys.monthHeld), tokens);
  }

  lemma {:induction false} CheckedScopes(s: Ledger, scopes: seq<Scope>, e: EstimatedUsage, now: int, topUp: bool, i: nat)
    requires i < |scopes| && CheckScopes(s, scopes, e, now, topUp).None?
    ensures CheckScope(s, scopes[i], e, now, topUp).None?
    decreases |scopes|
  {
    hide CheckScope;
    if i > 0 {
      assert scopes[1..][i - 1] == scopes[i];
      CheckedScopes(s, scopes[1..], e, now, topUp, i - 1);
    }
  }

  predicate Touches(scopes: seq<Scope>, ref: ScopeRef) { exists i :: 0 <= i < |scopes| && scopes[i].ref == ref }

  lemma CheckedHoldFits(s: Ledger, scopes: seq<Scope>, e: EstimatedUsage, now: int, topUp: bool, ref: ScopeRef, k: Key)
    requires GoodValues(s) && GoodScopes(scopes) && NormalEstimate(e) && IsHeld(k) && Capped(scopes, ref, k)
    requires CheckScopes(s, scopes, e, now, topUp).None?
    ensures Value(s, ref, k) + HoldsDelta(scopes, ref, k, EstimatedTokens(e), e.spend, topUp) <= MAX_INT64
  {
    hide CheckScopes;
    hide CheckScope;
    var tokens, spend := EstimatedTokens(e), e.spend;
    ValueBounds(s, ref, k);
    if Touches(scopes, ref) {
      var i :| 0 <= i < |scopes| && scopes[i].ref == ref;
      SingleHold(scopes, i, k, tokens, spend);
      if HoldsKey(scopes[i], k) && !(topUp && k.Active?) {
        CheckedScopes(s, scopes, e, now, topUp, i);
        ValueBounds(s, ref, UsedKey(k));
        CheckedScope(s, scopes[i], e, now, topUp, k);
      }
    } else {
      NoHold(scopes, ref, k, tokens, spend);
    }
  }

  // --- Reserve ------------------------------------------------------------------------------

  lemma ResolvedGood(scopes: seq<ScopedLimit>, at: Instant)
    requires DistinctScopeRefs(scopes)
    ensures GoodScopes(ResolveScopes(scopes, at))
  {
  }

  predicate DistinctScopeRefs(scopes: seq<ScopedLimit>) {
    forall i, j :: 0 <= i < j < |scopes| ==> scopes[i].ref != scopes[j].ref
  }

  lemma AdmittedInv(s: Ledger, id: Id, e: EstimatedUsage, scopes: seq<Scope>, expires: int, now: int,
                    ref: ScopeRef, k: Key, mode: Mode)
    requires KeyInv(s, ref, k, mode) && id !in s.reservations && GoodScopes(scopes) && NormalEstimate(e) && IsHeld(k)
    requires mode.HardCapped? ==> Capped(scopes, ref, k)
    requires mode.Exact? ==> Fits(s.reservations[id := Reservation(e, scopes, expires)], ref, k)
    requires CheckScopes(s, scopes, e, now, false).None?
    ensures var s' := ApplyHolds(s, scopes, e, now, false);
      KeyInv(s'.(reservations := s'.reservations[id := Reservation(e, scopes, expires)]), ref, k, mode)
  {
    hide GoodValues, Value, ApplyHolds, CheckScopes, Capped, HeldSum, GoodReservations, AllCapped;
    var s1 := ApplyHolds(s, scopes, e, now, false);
    var res := Reservation(e, scopes, expires);
    OneMoreReservation(s.reservations, id, res, ref, k);
    var s' := s1.(reservations := s1.reservations[id := res]);
    ApplyHoldsAt(s, scopes, e, now, false, ref, k);
    ApplyHoldsGood(s, scopes, e, now, false);
    SameValuesGood(s1, s', ref, k);
    HeldSumUpdate(s.reservations, id, res, ref, k);
    if mode.HardCapped? {
      CheckedHoldFits(s, scopes, e, now, false, ref, k);
    }
  }

  lemma ReserveInv(s: Ledger, id: Id, scopes: seq<ScopedLimit>, estimate: EstimatedUsage, ttl: int,
                   at: Instant, visit: seq<Id>, ref: ScopeRef, k: Key, mode: Mode)
    requires KeyInv(s, ref, k, mode) && IsHeld(k) && DistinctScopeRefs(scopes)
    requires mode.HardCapped? ==> Capped(ResolveScopes(scopes, at), ref, k)
    requires mode.Exact? ==> Fits(ReserveStep(s, id, scopes, estimate, ttl, at, visit).0.reservations, ref, k)
    ensures KeyInv(ReserveStep(s, id, scopes, estimate, ttl, at, visit).0, ref, k, mode)
  {
    hide KeyInv;
    hide Cleanup;
    hide ApplyHolds;
    hide CheckScopes;
    hide Capped;
    var s1 := Cleanup(s, at.ns, visit);
    CleanupInv(s, at.ns, visit, ref, k, mode);
    ResolvedGood(scopes, at);
    var e, resolved := NormalizeEstimate(estimate), ResolveScopes(scopes, at);
    if id !in s1.settlements && id !in s1.reservations && CheckScopes(s1, resolved, e, at.ns, false).None? {
      KeyInvGood(s1, ref, k, mode);
      ApplyHoldsGood(s1, resolved, e, at.ns, false);
      AdmittedInv(s1, id, e, resolved, at.ns + ReservationTtl(ttl), at.ns, ref, k, mode);
    }
  }

  // --- Top up ---------------------------------------------------------------------------------

  lemma GrownTotals(held: EstimatedUsage, d: EstimatedUsage)
    requires 0 <= held.input && 0 <= held.output && 0 <= held.spend && NormalEstimate(d)
    ensures EstimatedTokens(Grown(held, d)) == Min(MAX_INT64, EstimatedTokens(held) + EstimatedTokens(d))
    ensures Grown(held, d).spend == Min(MAX_INT64, held.spend + d.spend)
  {
  }

  lemma GrownHoldAt(scopes: seq<Scope>, i: nat, k: Key, tokens: int, spend: int, dTokens: int, dSpend: int)
    requires DistinctRefs(scopes) && i < |scopes| && IsHeld(k) && tokens <= MAX_INT64 && spend <= MAX_INT64
    ensures ScopesHold(scopes, scopes[i].ref, k, Min(MAX_INT64, tokens + dTokens), Min(MAX_INT64, spend + dSpend))
      == Min(MAX_INT64, ScopesHold(scopes, scopes[i].ref, k, tokens, spend)
                        + HoldsDelta(scopes, scopes[i].ref, k, dTokens, dSpend, true))
  {
    hide ScopesHold, ScopeHold, DistinctRefs;
    SingleHold(scopes, i, k, Min(MAX_INT64, tokens + dTokens), Min(MAX_INT64, spend + dSpend));
    SingleHold(scopes, i, k, tokens, spend);
    SingleHold(scopes, i, k, dTokens, dSpend);
    GrownScopeHold(scopes[i], tokens, spend, dTokens, dSpend, scopes[i].ref, k);
  }

  // A grown reservation holds on each key what it held plus what was added, saturating.
  lemma GrownHold(scopes: seq<Scope>, held: EstimatedUsage, d: EstimatedUsage, ref: ScopeRef, k: Key)
    requires GoodScopes(scopes) && IsHeld(k)
    requires 0 <= held.input && 0 <= held.output && 0 <= held.spend && NormalEstimate(d)
    ensures var g := Grown(held, d);
      ScopesHold(scopes, ref, k, EstimatedTokens(g), g.spend)
      == Min(MAX_INT64, ScopesHold(scopes, ref, k, EstimatedTokens(held), held.spend)
                        + HoldsDelta(scopes, ref, k, EstimatedTokens(d), d.spend, true))
  {
    hide Grown, ScopesHold, EstimatedTokens, Matched, DistinctRefs;
    var g := Grown(held, d);
    GrownTotals(held, d);
    if Touches(scopes, ref) {
      var i :| 0 <= i < |scopes| && scopes[i].ref == ref;
      GrownHoldAt(scopes, i, k, EstimatedTokens(held), held.spend, EstimatedTokens(d), d.spend);
    } else {
      NoHold(scopes, ref, k, EstimatedTokens(g), g.spend);
      NoHold(scopes, ref, k, EstimatedTokens(held), held.spend);
      NoHold(scopes, ref, k, EstimatedTokens(d), d.spend);
    }
  }

  lemma GrownScopeHold(scope: Scope, tokens: int, spend: int, dTokens: int, dSpend: int, ref: ScopeRef, k: Key)
    requires IsHeld(k) && tokens <= MAX_INT64 && spend <= MAX_INT64
    ensures ScopeHold(scope, ref, k, Min(MAX_INT64, tokens + dTokens), Min(MAX_INT64, spend + dSpend))
         == Min(MAX_INT64, ScopeHold(scope, ref, k, tokens, spend) + HoldDelta(scope, ref, k, dTokens, dSpend, true))
  {
  }

  lemma ToppedInv(s: Ledger, id: Id, d: EstimatedUsage, expires: int, now: int, ref: ScopeRef, k: Key, mode: Mode)
    requires KeyInv(s, ref, k, mode) && id in s.reservations && NormalEstimate(d) && IsHeld(k)
    requires CheckScopes(s, s.reservations[id].scopes, d, now, true).None?
    requires var res := s.reservations[id];
      mode.Exact? ==> Fits(s.reservations[id := res.(held := Grown(res.held, d), expires := expires)], ref, k)
    ensures var res := s.reservations[id];
      var s' := ApplyHolds(s, res.scopes, d, now, true);
      KeyInv(s'.(reservations := s'.reservations[id := res.(held := Grown(res.held, d), expires := expires)]), ref, k, mode)
  {
    hide GoodValues, Value, ApplyHolds, CheckScopes, Capped, ScopesHold, Grown, EstimatedTokens, GoodScopes, GoodReservation,
         HeldSum, GoodReservations, AllCapped;
    var res := s.reservations[id];
    OneMoreReservation(s.reservations, id, res.(held := Grown(res.held, d), expires := expires), ref, k);
    GrownReservation(res, d);
    var s1 := ApplyHolds(s, res.scopes, d, now, true);
    var res' := res.(held := Grown(res.held, d), expires := expires);
    var s' := s1.(reservations := s1.reservations[id := res']);
    ApplyHoldsAt(s, res.scopes, d, now, true, ref, k);
    ApplyHoldsGood(s, res.scopes, d, now, true);
    SameValuesGood(s1, s', ref, k);
    HeldSumUpdate(s.reservations, id, res', ref, k);
    HeldSumBounds(s.reservations, ref, k);
    GrownHold(res.scopes, res.held, d, ref, k);
    if mode.HardCapped? {
      CheckedHoldFits(s, res.scopes, d, now, true, ref, k);
    }
  }

  lemma GrownReservation(res: Reservation, d: EstimatedUsage)
    requires GoodReservation(res) && NormalEstimate(d)
    ensures GoodScopes(res.scopes) && Matched(res.scopes)
    ensures 0 <= res.held.input && 0 <= res.held.output && 0 <= res.held.spend
    ensures forall expires :: GoodReservation(res.(held := Grown(res.held, d), expires := expires))
  {
  }

  lemma RenewedInv(s: Ledger, id: Id, expires: int, ref: ScopeRef, k: Key, mode: Mode)
    requires KeyInv(s, ref, k, mode) && id in s.reservations
    ensures KeyInv(s.(reservations := s.reservations[id := s.reservations[id].(expires := expires)]), ref, k, mode)
  {
    hide GoodValues;
    hide Value;
    var s' := s.(reservations := s.reservations[id := s.reservations[id].(expires := expires)]);
    SameValuesGood(s, s', ref, k);
    HeldSumUpdate(s.reservations, id, s.reservations[id].(expires := expires), ref, k);
  }

  lemma TopUpInv(s: Ledger, id: Id, delta: EstimatedUsage, ttl: int, at: Instant, visit: seq<Id>,
                 ref: ScopeRef, k: Key, mode: Mode)
    requires KeyInv(s, ref, k, mode) && IsHeld(k)
    requires mode.Exact? ==> Fits(TopUpStep(s, id, delta, ttl, at, visit).0.reservations, ref, k)
    ensures KeyInv(TopUpStep(s, id, delta, ttl, at, visit).0, ref, k, mode)
  {
    hide KeyInv;
    hide Cleanup;
    hide ApplyHolds;
    hide CheckScopes;
    hide Grown;
    var s1 := Cleanup(s, at.ns, visit);
    CleanupInv(s, at.ns, visit, ref, k, mode);
    var d, expires := NormalizeEstimate(delta), at.ns + ReservationTtl(ttl);
    if id in s1.reservations {
      RenewedInv(s1, id, expires, ref, k, mode);
      if (EstimatedTokens(d) > 0 || d.spend > 0) && CheckScopes(s1, s1.reservations[id].scopes, d, at.ns, true).None? {
        KeyInvGood(s1, ref, k, mode);
        ApplyHoldsGood(s1, s1.reservations[id].scopes, d, at.ns, true);
        ToppedInv(s1, id, d, expires, at.ns, ref, k, mode);
      }
    }
  }

  // --- Commit and refund --------------------------------------------------------------------------

  function Committed(s: Ledger, id: Id, actual: ActualUsage, now: int): Ledger
    requires id in s.reservations
  {
    var res := s.reservations[id];
    UseScopes(ReleaseHold(s, res, ActualTokens(actual), now), res.scopes, actual, now)
  }

  lemma CommittedAt(s: Ledger, id: Id, actual: ActualUsage, now: int, ref: ScopeRef, k: Key)
    requires Good(s) && id in s.reservations && NormalActual(actual) && IsHeld(k)
    ensures var s' := Committed(s, id, actual, now);
      && GoodValues(s') && s'.reservations == s.reservations
      && Value(s', ref, k) == Max(0, Value(s, ref, k) - ReservationHold(s.reservations[id], ref, k))
  {
    hide GoodValues, Value, ReleaseHold, UseScopes, ScopesUsed, ReservationHold;
    var res := s.reservations[id];
    var s1 := ReleaseHold(s, res, ActualTokens(actual), now);
    ReleaseHoldAt(s, id, ActualTokens(actual), now, ref, k);
    UseScopesAt(s1, res.scopes, actual, now, ref, k);
    UseScopesGood(s1, res.scopes, actual, now);
    HeldIsNotUsed(res.scopes, ref, k, ActualTokens(actual), actual.spend);
    ValueBounds(s1, ref, k);
  }

  lemma CommittedInv(s: Ledger, id: Id, actual: ActualUsage, now: int, ref: ScopeRef, k: Key, mode: Mode)
    requires KeyInv(s, ref, k, mode) && id in s.reservations && NormalActual(actual) && IsHeld(k)
    ensures var s' := Committed(s, id, actual, now);
      KeyInv(s'.(reservations := s'.reservations - {id}), ref, k, mode)
  {
    hide GoodValues, Value, Committed, ReservationHold;
    var s2 := Committed(s, id, actual, now);
    var s' := s2.(reservations := s2.reservations - {id});
    CommittedAt(s, id, actual, now, ref, k);
    SameValuesGood(s2, s', ref, k);
    ReleasedInv(s, s', id, ref, k, mode);
  }

  lemma CommitInv(s: Ledger, id: Id, usage: ActualUsage, at: Instant, visit: seq<Id>, ref: ScopeRef, k: Key, mode: Mode)
    requires KeyInv(s, ref, k, mode) && IsHeld(k)
    ensures KeyInv(CommitStep(s, id, usage, at, visit).0, ref, k, mode)
  {
    hide KeyInv;
    hide Cleanup;
    hide RecordSettlement;
    hide UseScopes;
    hide ReleaseHold;
    var s1 := Cleanup(s, at.ns, visit);
    CleanupInv(s, at.ns, visit, ref, k, mode);
    if id in s1.reservations {
      var s2 := Committed(s1, id, NormalizeActual(usage), at.ns);
      var s3 := s2.(reservations := s2.reservations - {id});
      CommittedInv(s1, id, NormalizeActual(usage), at.ns, ref, k, mode);
      RecordSettlementKeeps(s3, id, false, at.ns);
      SameAccountsInv(s3, RecordSettlement(s3, id, false, at.ns), ref, k, mode);
    }
  }

  lemma RefundInv(s: Ledger, id: Id, at: Instant, visit: seq<Id>, ref: ScopeRef, k: Key, mode: Mode)
    requires KeyInv(s, ref, k, mode) && IsHeld(k)
    ensures KeyInv(RefundStep(s, id, at, visit).0, ref, k, mode)
  {
    hide KeyInv;
    hide Cleanup;
    hide EndReservation;
    CleanupInv(s, at.ns, visit, ref, k, mode);
    var s1 := Cleanup(s, at.ns, visit);
    if id in s1.reservations {
      EndReservationInv(s1, id, 0, false, at.ns, ref, k, mode);
    }
  }

  // --- Runs ---------------------------------------------------------------------------------------------

  predicate GoodEvent(e: Event) { e.op.Reserve? ==> DistinctScopeRefs(e.op.scopes) }

  // Every scope this call puts on the key has a hard spend cap.
  predicate CappedEvent(e: Event, ref: ScopeRef, k: Key) {
    e.op.Reserve? ==> Capped(ResolveScopes(e.op.scopes, e.at), ref, k)
  }

  lemma StepInv(s: Ledger, e: Event, ref: ScopeRef, k: Key, mode: Mode)
    requires KeyInv(s, ref, k, mode) && IsHeld(k) && GoodEvent(e)
    requires mode.HardCapped? ==> CappedEvent(e, ref, k)
    requires mode.Exact? ==> Fits(Step(s, e).0.reservations, ref, k)
    ensures KeyInv(Step(s, e).0, ref, k, mode)
  {
    hide KeyInv;
    hide ReserveStep;
    hide TopUpStep;
    hide CommitStep;
    hide RefundStep;
    hide Cleanup;
    hide Capped;
    match e.op
    case Reserve(id, scopes, estimate, ttl) =>
      if id != 0 {
        ReserveInv(s, id, scopes, estimate, ttl, e.at, e.visit, ref, k, mode);
      }
    case TopUp(id, delta, ttl) =>
      if id != 0 {
        TopUpInv(s, id, delta, ttl, e.at, e.visit, ref, k, mode);
      }
    case Commit(id, actual) => CommitInv(s, id, actual, e.at, e.visit, ref, k, mode);
    case Refund(id) => RefundInv(s, id, e.at, e.visit, ref, k, mode);
    case Usage => CleanupInv(s, e.at.ns, e.visit, ref, k, mode);
  }

  lemma {:induction false} RunInv(s: Ledger, es: seq<Event>, ref: ScopeRef, k: Key, mode: Mode)
    requires KeyInv(s, ref, k, mode) && IsHeld(k) && !mode.Exact?
    requires forall i :: 0 <= i < |es| ==> GoodEvent(es[i]) && (mode.HardCapped? ==> CappedEvent(es[i], ref, k))
    ensures KeyInv(Run(s, es), ref, k, mode)
    decreases |es|
  {
    hide KeyInv;
    hide Step;
    hide GoodEvent;
    hide CappedEvent;
    if es != [] {
      StepInv(s, es[0], ref, k, mode);
      RunInv(Step(s, es[0]).0, es[1..], ref, k, mode);
    }
  }

  lemma EmptyKeyInv(ref: ScopeRef, k: Key)
    ensures forall mode :: KeyInv(EMPTY_LEDGER, ref, k, mode)
  {
    assert Holds(EMPTY_LEDGER.reservations, ref, k) == map[];
  }

  /** Conservation: over every run from the empty store each held counter (a
      spend counter when every scope on it has a hard cap) is exactly the sum of
      what live reservations hold on it. */
  lemma HeldEqualsLiveReservations(es: seq<Event>, ref: ScopeRef, k: Key)
    requires IsHeld(k)
    requires forall i :: 0 <= i < |es| ==> GoodEvent(es[i]) && CappedEvent(es[i], ref, k)
    ensures Value(Run(EMPTY_LEDGER, es), ref, k) == HeldSum(Run(EMPTY_LEDGER, es).reservations, ref, k)
  {
    EmptyKeyInv(ref, k);
    RunInv(EMPTY_LEDGER, es, ref, k, HardCapped);
  }

  /** Without the cap a held counter may have saturated, and then never exceeds that sum. */
  lemma HeldNeverExceedsLiveReservations(es: seq<Event>, ref: ScopeRef, k: Key)
    requires IsHeld(k) && forall i :: 0 <= i < |es| ==> GoodEvent(es[i])
    ensures Value(Run(EMPTY_LEDGER, es), ref, k) <= HeldSum(Run(EMPTY_LEDGER, es).reservations, ref, k)
  {
    EmptyKeyInv(ref, k);
    RunInv(EMPTY_LEDGER, es, ref, k, Loose);
  }

  /** In such a run no release ever clamps: the counter covers each live reservation. */
  lemma ReleasesNeverClamp(es: seq<Event>, ref: ScopeRef, k: Key, id: Id)
    requires IsHeld(k) && id in Run(EMPTY_LEDGER, es).reservations
    requires forall i :: 0 <= i < |es| ==> GoodEvent(es[i]) && CappedEvent(es[i], ref, k)
    ensures var s := Run(EMPTY_LEDGER, es); ReservationHold(s.reservations[id], ref, k) <= Value(s, ref, k)
  {
    EmptyKeyInv(ref, k);
    RunInv(EMPTY_LEDGER, es, ref, k, HardCapped);
    HeldSumBounds(Run(EMPTY_LEDGER, es).reservations, ref, k);
  }

  // --- Exactly when a counter equals its sum ----------------------------------------------------

  /** In this state and after every call of the run the counter equals the sum
      over live reservations. */
  ghost predicate AlwaysEqual(s: Ledger, es: seq<Event>, ref: ScopeRef, k: Key)
    decreases |es|
  {
    Value(s, ref, k) == HeldSum(s.reservations, ref, k) && (es == [] || AlwaysEqual(Step(s, es[0]).0, es[1..], ref, k))
  }

  /** In this state and after every call of the run what live reservations hold
      together fits in 64 bits. */
  ghost predicate AlwaysFits(s: Ledger, es: seq<Event>, ref: ScopeRef, k: Key)
    decreases |es|
  {
    Fits(s.reservations, ref, k) && (es == [] || AlwaysFits(Step(s, es[0]).0, es[1..], ref, k))
  }

  /** From a state in which counter and sum agree, they agree throughout a run
      if and only if the sum never exceeds what a counter can hold: saturation
      is the only way they part. Caps are one way to ensure it. */
  lemma {:induction false} EqualIffSumsFit(s: Ledger, es: seq<Event>, ref: ScopeRef, k: Key)
    requires KeyInv(s, ref, k, Exact) && IsHeld(k) && forall i :: 0 <= i < |es| ==> GoodEvent(es[i])
    ensures AlwaysEqual(s, es, ref, k) <==> AlwaysFits(s, es, ref, k)
    decreases |es|
  {
    hide Step, GoodEvent, Value, GoodValues;
    ValueBounds(s, ref, k);
    if es != [] {
      var s' := Step(s, es[0]).0;
      StepInv(s, es[0], ref, k, Loose) by { LooserInv(s, ref, k); }
      ValueBounds(s', ref, k);
      if Fits(s'.reservations, ref, k) {
        StepInv(s, es[0], ref, k, Exact);
        EqualIffSumsFit(s', es[1..], ref, k);
      }
    }
  }

  lemma LooserInv(s: Ledger, ref: ScopeRef, k: Key)
    requires KeyInv(s, ref, k, Exact)
    ensures KeyInv(s, ref, k, Loose)
  {
  }

  const SOFT: LimitSpec := LimitSpec(0, 0, 0, 0, 1, 0, 0, 0, 0, 0, [], [])

  function SoftReserve(id: Id, ref: ScopeRef, at: Instant): Event {
    Event(at, [], Reserve(id, [ScopedLimit(ref, SOFT)], EstimatedUsage(0, 0, MAX_INT64), 0))
  }

  // Under a soft budget alone a reservation is admitted whatever it spends.
  lemma SoftCheckPasses(s: Ledger, ref: ScopeRef, at: Instant, e: EstimatedUsage)
    ensures CheckScopes(s, ResolveScopes([ScopedLimit(ref, SOFT)], at), e, at.ns, false).None?
  {
    hide TotalOf;
    var scopes := ResolveScopes([ScopedLimit(ref, SOFT)], at);
    assert scopes[1..] == [];
  }

  lemma SoftReserveAdmitted(s: Ledger, id: Id, ref: ScopeRef, at: Instant)
    requires id != 0 && s.settlements == map[] && s.order == [] && id !in s.reservations
    requires KeyInv(s, ref, SpendHeld(Forever), Loose)
    ensures var s' := Step(s, SoftReserve(id, ref, at)).0;
      s'.settlements == map[] && s'.order == [] && s'.reservations == s.reservations[id := SoftReservation(ref, at)]
  {
    hide ApplyHolds;
    hide CheckScopes;
    hide GoodValues;
    hide Value;
    hide ResolveScopes;
    var e := EstimatedUsage(0, 0, MAX_INT64);
    var s1 := Cleanup(s, at.ns, []);
    CleanupInv(s, at.ns, [], ref, SpendHeld(Forever), Loose);
    var scopes := ResolveScopes([ScopedLimit(ref, SOFT)], at);
    ResolvedGood([ScopedLimit(ref, SOFT)], at);
    SoftCheckPasses(s1, ref, at, e);
    ApplyHoldsGood(s1, scopes, e, at.ns, false);
  }

  function SoftReservation(ref: ScopeRef, at: Instant): Reservation {
    Reservation(EstimatedUsage(0, 0, MAX_INT64), ResolveScopes([ScopedLimit(ref, SOFT)], at), at.ns + ReservationTtl(0))
  }

  lemma SoftHold(ref: ScopeRef, at: Instant)
    ensures ReservationHold(SoftReservation(ref, at), ref, SpendHeld(Forever)) == MAX_INT64
  {
    var res := SoftReservation(ref, at);
    assert res.scopes[1..] == [];
    assert ScopesHold([], ref, SpendHeld(Forever), 0, MAX_INT64) == 0;
  }

  lemma RunTwo(s: Ledger, a: Event, b: Event)
    ensures Run(s, [a, b]) == Step(Step(s, a).0, b).0
  {
    hide Step;
    var es := [a, b];
    assert es[1..] == [b] && es[1..][1..] == [];
    var s1 := Step(s, a).0;
    assert Run(s, es) == Run(s1, es[1..]);
    assert Run(s1, [b]) == Run(Step(s1, b).0, []);
  }

  /** Without caps the sum need not fit: two reservations under a soft budget alone leave a spend
      counter below what they hold, because the counter has saturated. */
  lemma SoftSpendCounterSaturates(ref: ScopeRef, at: Instant)
    ensures var s := Run(EMPTY_LEDGER, [SoftReserve(1, ref, at), SoftReserve(2, ref, at)]);
      Value(s, ref, SpendHeld(Forever)) < HeldSum(s.reservations, ref, SpendHeld(Forever))
  {
    hide Step;
    hide Run;
    hide ReservationHold;
    hide SoftReservation;
    hide GoodValues;
    hide Value;
    var e1, e2, k := SoftReserve(1, ref, at), SoftReserve(2, ref, at), SpendHeld(Forever);
    var s1 := Step(EMPTY_LEDGER, e1).0;
    var s2 := Step(s1, e2).0;
    var res := SoftReservation(ref, at);
    RunTwo(EMPTY_LEDGER, e1, e2);
    EmptyKeyInv(ref, k);
    SoftReserveAdmitted(EMPTY_LEDGER, 1, ref, at);
    StepInv(EMPTY_LEDGER, e1, ref, k, Loose);
    SoftReserveAdmitted(s1, 2, ref, at);
    StepInv(s1, e2, ref, k, Loose);
    SoftHold(ref, at);
    HeldSumUpdate(map[], 1, res, ref, k);
    HeldSumUpdate(s1.reservations, 2, res, ref, k);
    assert Holds(map[], ref, k) == map[];
    ValueBounds(s2, ref, k);
  }
}
