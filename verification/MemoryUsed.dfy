/** Committed usage in the in-process ledger: over every run, a used counter is
    exactly the sum of what was committed on it, until its period and the hour after
    it are over. */
module MemoryUsed {
  import opened QuotaTypes
  import opened MemoryLedger
  import opened MemoryHolds
  import opened MemoryRuns
  import M = MemorySettlements

  predicate IsUsed(k: Key) { k.SpendUsed? || k.DayUsed? || k.MonthUsed? }

  predicate SameUsed(s: Ledger, s': Ledger, ref: ScopeRef, k: Key) {
    var fk := FullKey(ref, k);
    && (fk in s'.values <==> fk in s.values) && (fk in s.values ==> s'.values[fk] == s.values[fk])
    && (fk in s'.valueExpires <==> fk in s.valueExpires) && (fk in s.valueExpires ==> s'.valueExpires[fk] == s.valueExpires[fk])
  }

  lemma SameUsedTrans(s: Ledger, s1: Ledger, s2: Ledger, ref: ScopeRef, k: Key)
    requires SameUsed(s, s1, ref, k) && SameUsed(s1, s2, ref, k)
    ensures SameUsed(s, s2, ref, k)
  {
  }

  // --- Holds and releases leave used counters alone -------------------------------------------------------

  lemma OtherAdded(s: Ledger, r: ScopeRef, at: Key, delta: int, expires: int, now: int, ref: ScopeRef, k: Key)
    requires at != k
    ensures SameUsed(s, AddValue(s, r, at, delta, expires, now), ref, k)
  {
    hide SaturatingAdd, Value;
    assert FullKey(r, at) != FullKey(ref, k);
  }

  lemma OtherDecremented(s: Ledger, r: ScopeRef, at: Key, delta: int, ref: ScopeRef, k: Key)
    requires at != k
    ensures SameUsed(s, DecrValue(s, r, at, delta), ref, k)
  {
    hide Value;
    assert FullKey(r, at) != FullKey(ref, k);
  }

  lemma OtherValue(s: Ledger, r: ScopeRef, at: Key, delta: int, expires: int, now: int, ref: ScopeRef, k: Key)
    requires at != k
    ensures SameUsed(s, AddValue(s, r, at, delta, expires, now), ref, k)
    ensures SameUsed(s, DecrValue(s, r, at, delta), ref, k)
  {
    hide AddValue, DecrValue, SameUsed;
    OtherAdded(s, r, at, delta, expires, now, ref, k);
    OtherDecremented(s, r, at, delta, ref, k);
  }

  lemma MinuteHasNoValue(s: Ledger, r: ScopeRef, at: Key, delta: int, held: int, actual: int, now: int, ref: ScopeRef, k: Key)
    ensures SameUsed(s, AddCounter(s, r, at, delta, now), ref, k)
    ensures SameUsed(s, ReconcileCounter(s, r, at, held, actual, now), ref, k)
  {
  }

  lemma HoldKeepsUsed(s: Ledger, scope: Scope, e: EstimatedUsage, now: int, topUp: bool, ref: ScopeRef, k: Key)
    requires ScopeMatchesLimit(scope) && IsUsed(k)
    ensures SameUsed(s, ApplyHold(s, scope, e, now, topUp), ref, k)
  {
    hide AddValue, AddCounter, SameUsed;
    var r, keys, tokens := scope.ref, scope.keys, EstimatedTokens(e);
    var s0 := AddValue(s, r, keys.active, 1, 0, now);
    var s1 := if topUp then s else AddCounter(s0, r, keys.rpm, 1, now);
    var s2 := AddCounter(s1, r, keys.tpm, tokens, now);
    var s3 := AddValue(s2, r, keys.spendHeld, e.spend, 0, now);
    var s4 := AddValue(s3, r, keys.dayHeld, tokens, 0, now);
    var s5 := AddValue(s4, r, keys.monthHeld, tokens, 0, now);
    OtherValue(s, r, keys.active, 1, 0, now, ref, k);
    MinuteHasNoValue(s0, r, keys.rpm, 1, 0, 0, now, ref, k);
    MinuteHasNoValue(s1, r, keys.tpm, tokens, 0, 0, now, ref, k);
    OtherValue(s2, r, keys.spendHeld, e.spend, 0, now, ref, k);
    OtherValue(s3, r, keys.dayHeld, tokens, 0, now, ref, k);
    OtherValue(s4, r, keys.monthHeld, tokens, 0, now, ref, k);
    SameUsedTrans(s, s0, AddCounter(s0, r, keys.rpm, 1, now), ref, k);
    SameItself(s, ref, k);
    SameUsedTrans(s, s1, s2, ref, k);
    SameUsedTrans(s, s2, s3, ref, k);
    SameUsedTrans(s, s3, s4, ref, k);
    SameUsedTrans(s, s4, s5, ref, k);
  }

  lemma SameItself(s: Ledger, ref: ScopeRef, k: Key)
    ensures SameUsed(s, s, ref, k)
  {
  }

  lemma {:induction false} HoldsKeepUsed(s: Ledger, scopes: seq<Scope>, e: EstimatedUsage, now: int, topUp: bool, ref: ScopeRef, k: Key)
    requires Matched(scopes) && IsUsed(k)
    ensures SameUsed(s, ApplyHolds(s, scopes, e, now, topUp), ref, k)
    decreases |scopes|
  {
    hide ApplyHold, SameUsed, ScopeMatchesLimit, Matched;
    if scopes == [] {
      SameItself(s, ref, k);
    } else {
      MatchedParts(scopes);
      var s1 := ApplyHold(s, scopes[0], e, now, topUp);
      HoldKeepsUsed(s, scopes[0], e, now, topUp, ref, k);
      HoldsKeepUsed(s1, scopes[1..], e, now, topUp, ref, k);
      SameUsedTrans(s, s1, ApplyHolds(s, scopes, e, now, topUp), ref, k);
    }
  }

  lemma ReleaseKeepsUsed(s: Ledger, scope: Scope, tokens: int, spend: int, actual: int, now: int, ref: ScopeRef, k: Key)
    requires ScopeMatchesLimit(scope) && IsUsed(k)
    ensures SameUsed(s, ReleaseScope(s, scope, tokens, spend, actual, now), ref, k)
  {
    hide DecrValue, ReconcileCounter, SameUsed;
    var r, keys := scope.ref, scope.keys;
    var s1 := ReconcileCounter(s, r, keys.tpm, tokens, actual, now);
    var s2 := DecrValue(s1, r, keys.active, 1);
    var s3 := DecrValue(s2, r, keys.spendHeld, spend);
    var s4 := DecrValue(s3, r, keys.dayHeld, tokens);
    var s5 := DecrValue(s4, r, keys.monthHeld, tokens);
    MinuteHasNoValue(s, r, keys.tpm, 0, tokens, actual, now, ref, k);
    OtherValue(s1, r, keys.active, 1, 0, now, ref, k);
    OtherValue(s2, r, keys.spendHeld, spend, 0, now, ref, k);
    OtherValue(s3, r, keys.dayHeld, tokens, 0, now, ref, k);
    OtherValue(s4, r, keys.monthHeld, tokens, 0, now, ref, k);
    SameUsedTrans(s, s1, s2, ref, k);
    SameUsedTrans(s, s2, s3, ref, k);
    SameUsedTrans(s, s3, s4, ref, k);
    SameUsedTrans(s, s4, s5, ref, k);
  }

  lemma {:induction false} ReleasesKeepUsed(s: Ledger, scopes: seq<Scope>, tokens: int, spend: int, actual: int, now: int, ref: ScopeRef, k: Key)
    requires Matched(scopes) && IsUsed(k)
    ensures SameUsed(s, ReleaseScopes(s, scopes, tokens, spend, actual, now), ref, k)
    decreases |scopes|
  {
    hide ReleaseScope, SameUsed, ScopeMatchesLimit, Matched;
    if scopes == [] {
      SameItself(s, ref, k);
    } else {
      MatchedParts(scopes);
      var s1 := ReleaseScope(s, scopes[0], tokens, spend, actual, now);
      ReleaseKeepsUsed(s, scopes[0], tokens, spend, actual, now, ref, k);
      ReleasesKeepUsed(s1, scopes[1..], tokens, spend, actual, now, ref, k);
      SameUsedTrans(s, s1, ReleaseScopes(s, scopes, tokens, spend, actual, now), ref, k);
    }
  }

  // --- When a used counter ends ------------------------------------------------------------------------------

  /** The instant a scope gives a used counter; zero for never. */
  function Ending(scope: Scope, k: Key): int {
    match k
    case SpendUsed(_) => scope.expires.spendUsed
    case DayUsed(_) => scope.expires.dayUsed
    case MonthUsed(_) => scope.expires.monthUsed
    case _ => 0
  }

  predicate Uses(scope: Scope, k: Key) { k == scope.keys.spendUsed || k == scope.keys.dayUsed || k == scope.keys.monthUsed }

  predicate Ends(scopes: seq<Scope>, ref: ScopeRef, k: Key, end: int) {
    forall i :: 0 <= i < |scopes| && scopes[i].ref == ref && Uses(scopes[i], k) ==> Ending(scopes[i], k) == end
  }

  /** The counter, if it has an end, has this one. */
  predicate EndsAt(s: Ledger, ref: ScopeRef, k: Key, end: int) {
    FullKey(ref, k) in s.valueExpires ==> end != 0 && s.valueExpires[FullKey(ref, k)] == end
  }

  lemma AddedEnd(s: Ledger, r: ScopeRef, at: Key, delta: int, expires: int, now: int, ref: ScopeRef, k: Key)
    ensures var s', fk := AddValue(s, r, at, delta, expires, now), FullKey(ref, k);
      if r == ref && at == k && k != NoKey && delta != 0 && expires != 0
      then fk in s'.valueExpires && s'.valueExpires[fk] == if now < expires then expires else now + 3_600_000_000_000
      else (fk in s'.valueExpires <==> fk in s.valueExpires) && (fk in s.valueExpires ==> s'.valueExpires[fk] == s.valueExpires[fk])
  {
  }

  lemma UseEnds(s: Ledger, scope: Scope, actual: ActualUsage, now: int, ref: ScopeRef, k: Key, end: int)
    requires ScopeMatchesLimit(scope) && IsUsed(k) && EndsAt(s, ref, k, end) && (end == 0 || now < end)
    requires scope.ref == ref && Uses(scope, k) ==> Ending(scope, k) == end
    ensures EndsAt(UseScope(s, scope, actual, now), ref, k, end)
  {
    hide AddValue;
    var r, keys, tokens := scope.ref, scope.keys, ActualTokens(actual);
    var s1 := AddValue(s, r, keys.spendUsed, actual.spend, scope.expires.spendUsed, now);
    var s2 := AddValue(s1, r, keys.dayUsed, tokens, scope.expires.dayUsed, now);
    AddedEnd(s, r, keys.spendUsed, actual.spend, scope.expires.spendUsed, now, ref, k);
    AddedEnd(s1, r, keys.dayUsed, tokens, scope.expires.dayUsed, now, ref, k);
    AddedEnd(s2, r, keys.monthUsed, tokens, scope.expires.monthUsed, now, ref, k);
  }

  lemma {:induction false} UsesEnd(s: Ledger, scopes: seq<Scope>, actual: ActualUsage, now: int, ref: ScopeRef, k: Key, end: int)
    requires Matched(scopes) && IsUsed(k) && EndsAt(s, ref, k, end) && (end == 0 || now < end) && Ends(scopes, ref, k, end)
    ensures EndsAt(UseScopes(s, scopes, actual, now), ref, k, end)
    decreases |scopes|
  {
    hide UseScope, EndsAt, ScopeMatchesLimit, Uses, Ending;
    if scopes != [] {
      UseEnds(s, scopes[0], actual, now, ref, k, end);
      UsesEnd(UseScope(s, scopes[0], actual, now), scopes[1..], actual, now, ref, k, end);
    }
  }

  // --- The invariant -------------------------------------------------------------------------------------------

  predicate AllEnd(rs: map<Id, Reservation>, ref: ScopeRef, k: Key, end: int) {
    forall id :: id in rs ==> Ends(rs[id].scopes, ref, k, end)
  }

  ghost predicate UsedInv(s: Ledger, ref: ScopeRef, k: Key, end: int, total: int) {
    && KeyInv(s, ref, Active, Loose) && AllEnd(s.reservations, ref, k, end) && EndsAt(s, ref, k, end)
    && Value(s, ref, k) == Min(MAX_INT64, total)
  }

  lemma SameUsedInv(s: Ledger, s': Ledger, ref: ScopeRef, k: Key, end: int, total: int)
    requires UsedInv(s, ref, k, end, total) && SameUsed(s, s', ref, k)
    requires KeyInv(s', ref, Active, Loose) && AllEnd(s'.reservations, ref, k, end)
    ensures UsedInv(s', ref, k, end, total)
  {
    hide KeyInv, AllEnd;
  }

  lemma Parts(s: Ledger, ref: ScopeRef, k: Key, end: int, total: int, id: Id)
    requires UsedInv(s, ref, k, end, total)
    ensures KeyInv(s, ref, Active, Loose) && Good(s) && AllEnd(s.reservations, ref, k, end)
    ensures id in s.reservations ==> GoodReservation(s.reservations[id]) && Ends(s.reservations[id].scopes, ref, k, end)
    ensures AllEnd(s.reservations - {id}, ref, k, end)
  {
    hide Tracks, Ends, GoodReservation, GoodValues;
  }

  lemma EndUsed(s: Ledger, id: Id, actual: int, expired: bool, now: int, ref: ScopeRef, k: Key, end: int, total: int)
    requires UsedInv(s, ref, k, end, total) && id in s.reservations && IsUsed(k)
    ensures UsedInv(EndReservation(s, id, actual, expired, now), ref, k, end, total)
  {
    hide UsedInv, KeyInv, AllEnd, ReleaseScopes, RecordSettlement, Good, EstimatedTokens;
    Parts(s, ref, k, end, total, id);
    var res := s.reservations[id];
    EndReservationInv(s, id, actual, expired, now, ref, Active, Loose);
    ReleasesKeepUsed(s, res.scopes, EstimatedTokens(res.held), res.held.spend, actual, now, ref, k);
    M.ReleaseScopesQueue(s, res.scopes, EstimatedTokens(res.held), res.held.spend, actual, now);
    var released := ReleaseHold(s, res, actual, now);
    RecordSettlementKeeps(released.(reservations := released.reservations - {id}), id, expired, now);
    SameUsedInv(s, EndReservation(s, id, actual, expired, now), ref, k, end, total);
  }

  lemma {:induction false} ExpiryUsed(s: Ledger, visit: seq<Id>, now: int, ref: ScopeRef, k: Key, end: int, total: int)
    requires UsedInv(s, ref, k, end, total) && IsUsed(k)
    ensures UsedInv(ExpireAll(s, visit, now), ref, k, end, total)
    decreases |visit|
  {
    hide UsedInv, EndReservation;
    if visit != [] {
      if visit[0] in s.reservations && Lapsed(s.reservations[visit[0]], now) {
        EndUsed(s, visit[0], 0, true, now, ref, k, end, total);
      }
      ExpiryUsed(ExpireOne(s, visit[0], now), visit[1..], now, ref, k, end, total);
    }
  }

  lemma DropKeepsUsed(s: Ledger, now: int, ref: ScopeRef, k: Key, end: int)
    requires EndsAt(s, ref, k, end) && (end == 0 || now < end)
    ensures SameUsed(s, DropExpiredValues(DropExpiredCounters(s, now), now), ref, k)
  {
  }

  lemma CleanupUsed(s: Ledger, now: int, visit: seq<Id>, ref: ScopeRef, k: Key, end: int, total: int)
    requires UsedInv(s, ref, k, end, total) && IsUsed(k) && (end == 0 || now < end)
    ensures UsedInv(Cleanup(s, now, visit), ref, k, end, total)
  {
    hide KeyInv, AllEnd, ExpireAll, CleanupSettlements, EndsAt, Value;
    var s1 := ExpireAll(s, visit, now);
    var s2 := CleanupSettlements(s1, now);
    ExpiryUsed(s, visit, now, ref, k, end, total);
    CleanupSettlementsKeeps(s1, now);
    CleanupInv(s, now, visit, ref, Active, Loose);
    SameUsedTrans(s1, s2, Cleanup(s, now, visit), ref, k) by {
      SameEnds(s1, s2, ref, k, end);
      DropKeepsUsed(s2, now, ref, k, end);
    }
    SameUsedInv(s1, Cleanup(s, now, visit), ref, k, end, total);
  }

  lemma SameEnds(s: Ledger, s': Ledger, ref: ScopeRef, k: Key, end: int)
    requires SameAccounts(s, s') && EndsAt(s, ref, k, end)
    ensures EndsAt(s', ref, k, end) && SameUsed(s, s', ref, k)
  {
  }

  // --- Calls -----------------------------------------------------------------------------------------------------

  predicate FixedEnd(e: Event, ref: ScopeRef, k: Key, end: int) {
    e.op.Reserve? ==> Ends(ResolveScopes(e.op.scopes, e.at), ref, k, end)
  }

  /** What the call commits on the key. */
  function Commits(s: Ledger, e: Event, ref: ScopeRef, k: Key): int {
    var s1 := Cleanup(s, e.at.ns, e.visit);
    if e.op.Commit? && e.op.id != 0 && e.op.id in s1.reservations
    then ScopesUsed(s1.reservations[e.op.id].scopes, ref, k, ActualTokens(e.op.actual), Max(e.op.actual.spend, 0))
    else 0
  }

  function Committed(s: Ledger, es: seq<Event>, ref: ScopeRef, k: Key): int
    decreases |es|
  {
    if es == [] then 0 else Commits(s, es[0], ref, k) + Committed(Step(s, es[0]).0, es[1..], ref, k)
  }

  lemma ReserveUsed(s: Ledger, id: Id, scopes: seq<ScopedLimit>, estimate: EstimatedUsage, ttl: int, at: Instant, visit: seq<Id>,
                    ref: ScopeRef, k: Key, end: int, total: int)
    requires UsedInv(s, ref, k, end, total) && IsUsed(k) && (end == 0 || at.ns < end) && DistinctScopeRefs(scopes)
    requires Ends(ResolveScopes(scopes, at), ref, k, end)
    ensures UsedInv(ReserveStep(s, id, scopes, estimate, ttl, at, visit).0, ref, k, end, total)
  {
    hide UsedInv, KeyInv, Ends, Cleanup, ApplyHolds, CheckScopes, GoodScopes, SameUsed, Good;
    var s1, e, resolved := Cleanup(s, at.ns, visit), NormalizeEstimate(estimate), ResolveScopes(scopes, at);
    CleanupUsed(s, at.ns, visit, ref, k, end, total);
    ResolvedGood(scopes, at);
    Parts(s, ref, k, end, total, id);
    Parts(s1, ref, k, end, total, id);
    ReserveInv(s, id, scopes, estimate, ttl, at, visit, ref, Active, Loose);
    IsMatched(resolved);
    HoldsKeepUsed(s1, resolved, e, at.ns, false, ref, k);
    M.ApplyHoldsQueue(s1, resolved, e, at.ns, false);
    var s' := ReserveStep(s, id, scopes, estimate, ttl, at, visit).0;
    if s' != s1 {
      SameUsedBooks(s1, ApplyHolds(s1, resolved, e, at.ns, false), s', ref, k);
      SameUsedInv(s1, s', ref, k, end, total);
    }
  }

  lemma IsMatched(scopes: seq<Scope>)
    requires GoodScopes(scopes)
    ensures Matched(scopes)
  {
  }

  lemma SameUsedBooks(s: Ledger, s1: Ledger, s2: Ledger, ref: ScopeRef, k: Key)
    requires SameUsed(s, s1, ref, k) && s2.values == s1.values && s2.valueExpires == s1.valueExpires
    ensures SameUsed(s, s2, ref, k)
  {
  }

  lemma TopUpUsed(s: Ledger, id: Id, delta: EstimatedUsage, ttl: int, at: Instant, visit: seq<Id>, ref: ScopeRef, k: Key, end: int, total: int)
    requires UsedInv(s, ref, k, end, total) && IsUsed(k) && (end == 0 || at.ns < end)
    ensures UsedInv(TopUpStep(s, id, delta, ttl, at, visit).0, ref, k, end, total)
  {
    hide UsedInv, KeyInv, Ends, Cleanup, ApplyHolds, CheckScopes, GoodScopes, SameUsed, Good, Grown, EstimatedTokens;
    var s1, d := Cleanup(s, at.ns, visit), NormalizeEstimate(delta);
    CleanupUsed(s, at.ns, visit, ref, k, end, total);
    Parts(s, ref, k, end, total, id);
    Parts(s1, ref, k, end, total, id);
    TopUpInv(s, id, delta, ttl, at, visit, ref, Active, Loose);
    var s' := TopUpStep(s, id, delta, ttl, at, visit).0;
    if id in s1.reservations {
      var res := s1.reservations[id];
      IsMatched(res.scopes);
      HoldsKeepUsed(s1, res.scopes, d, at.ns, true, ref, k);
      M.ApplyHoldsQueue(s1, res.scopes, d, at.ns, true);
      SameItself(s1, ref, k);
      if s' != s1 {
        if s'.values == s1.values && s'.valueExpires == s1.valueExpires {
          SameUsedBooks(s1, s1, s', ref, k);
        } else {
          SameUsedBooks(s1, ApplyHolds(s1, res.scopes, d, at.ns, true), s', ref, k);
        }
        SameUsedInv(s1, s', ref, k, end, total);
      }
    }
  }

  lemma CommitBooked(s: Ledger, id: Id, actual: ActualUsage, now: int, ref: ScopeRef, k: Key, end: int, total: int)
    requires UsedInv(s, ref, k, end, total) && IsUsed(k) && (end == 0 || now < end) && id in s.reservations && NormalActual(actual)
    ensures var res := s.reservations[id];
      var s' := UseScopes(ReleaseHold(s, res, ActualTokens(actual), now), res.scopes, actual, now);
      && s'.reservations == s.reservations && EndsAt(s', ref, k, end)
      && Value(s', ref, k) == Min(MAX_INT64, total + ScopesUsed(res.scopes, ref, k, ActualTokens(actual), actual.spend))
  {
    hide KeyInv, ReleaseScopes, UseScopes, GoodValues, ScopesUsed, EstimatedTokens, ActualTokens, GoodScopes, Ends;
    Parts(s, ref, k, end, total, id);
    var res, tokens := s.reservations[id], ActualTokens(actual);
    var released := ReleaseHold(s, res, tokens, now);
    IsMatched(res.scopes);
    ReleasesKeepUsed(s, res.scopes, EstimatedTokens(res.held), res.held.spend, tokens, now, ref, k);
    ReleaseHoldAt(s, id, tokens, now, ref, Active);
    UseScopesAt(released, res.scopes, actual, now, ref, k);
    UsesEnd(released, res.scopes, actual, now, ref, k, end);
    M.UseScopesQueue(released, res.scopes, actual, now);
    TokensAreCounted(actual);
    ScopesUsedNonNegative(res.scopes, ref, k, tokens, actual.spend);
  }

  lemma TokensAreCounted(actual: ActualUsage)
    ensures 0 <= ActualTokens(actual)
  {
  }

  lemma CommitUsed(s: Ledger, id: Id, usage: ActualUsage, at: Instant, visit: seq<Id>, ref: ScopeRef, k: Key, end: int, total: int)
    requires UsedInv(s, ref, k, end, total) && IsUsed(k) && (end == 0 || at.ns < end) && id != 0
    ensures UsedInv(CommitStep(s, id, usage, at, visit).0, ref, k, end, total + Commits(s, Event(at, visit, Commit(id, usage)), ref, k))
  {
    hide KeyInv, Cleanup, ReleaseScopes, UseScopes, ScopesUsed, RecordSettlement, AllEnd, Good, GoodReservation, ActualTokens;
    var s1, actual := Cleanup(s, at.ns, visit), NormalizeActual(usage);
    CleanupUsed(s, at.ns, visit, ref, k, end, total);
    Parts(s, ref, k, end, total, id);
    Parts(s1, ref, k, end, total, id);
    CommitInv(s, id, usage, at, visit, ref, Active, Loose);
    if id in s1.reservations {
      CommitBooked(s1, id, actual, at.ns, ref, k, end, total);
      var res := s1.reservations[id];
      var s2 := UseScopes(ReleaseHold(s1, res, ActualTokens(actual), at.ns), res.scopes, actual, at.ns);
      RecordSettlementKeeps(s2.(reservations := s2.reservations - {id}), id, false, at.ns);
    }
  }

  lemma RefundUsed(s: Ledger, id: Id, at: Instant, visit: seq<Id>, ref: ScopeRef, k: Key, end: int, total: int)
    requires UsedInv(s, ref, k, end, total) && IsUsed(k) && (end == 0 || at.ns < end)
    ensures UsedInv(RefundStep(s, id, at, visit).0, ref, k, end, total)
  {
    hide UsedInv, Cleanup, EndReservation;
    var s1 := Cleanup(s, at.ns, visit);
    CleanupUsed(s, at.ns, visit, ref, k, end, total);
    if id in s1.reservations {
      EndUsed(s1, id, 0, false, at.ns, ref, k, end, total);
    }
  }

  lemma StepUsed(s: Ledger, e: Event, ref: ScopeRef, k: Key, end: int, total: int)
    requires UsedInv(s, ref, k, end, total) && IsUsed(k) && (end == 0 || e.at.ns < end) && GoodEvent(e) && FixedEnd(e, ref, k, end)
    ensures UsedInv(Step(s, e).0, ref, k, end, total + Commits(s, e, ref, k))
  {
    hide UsedInv, ReserveStep, TopUpStep, CommitStep, RefundStep, Cleanup, Ends, ScopesUsed, ActualTokens;
    match e.op
    case Reserve(id, scopes, estimate, ttl) =>
      ReserveUsed(s, id, scopes, estimate, ttl, e.at, e.visit, ref, k, end, total);
    case TopUp(id, delta, ttl) => TopUpUsed(s, id, delta, ttl, e.at, e.visit, ref, k, end, total);
    case Commit(id, actual) =>
      if id != 0 {
        CommitUsed(s, id, actual, e.at, e.visit, ref, k, end, total);
      }
    case Refund(id) => RefundUsed(s, id, e.at, e.visit, ref, k, end, total);
    case Usage => CleanupUsed(s, e.at.ns, e.visit, ref, k, end, total);
  }

  lemma {:induction false} RunUsed(s: Ledger, es: seq<Event>, ref: ScopeRef, k: Key, end: int, total: int)
    requires UsedInv(s, ref, k, end, total) && IsUsed(k)
    requires forall i :: 0 <= i < |es| ==> (end == 0 || es[i].at.ns < end) && GoodEvent(es[i]) && FixedEnd(es[i], ref, k, end)
    ensures UsedInv(Run(s, es), ref, k, end, total + Committed(s, es, ref, k))
    decreases |es|
  {
    hide UsedInv, Step, Commits, GoodEvent, FixedEnd;
    if es != [] {
      StepUsed(s, es[0], ref, k, end, total);
      RunUsed(Step(s, es[0]).0, es[1..], ref, k, end, total + Commits(s, es[0], ref, k));
    }
  }

  lemma NothingUsed(ref: ScopeRef, k: Key, end: int)
    ensures UsedInv(EMPTY_LEDGER, ref, k, end, 0)
  {
    hide KeyInv;
    EmptyKeyInv(ref, Active);
  }

  /** Over every run, until the counter ends, a used counter is exactly the sum
      of the amounts committed on it, capped at 64 bits: nothing is lost, nothing is
      booked twice, and refunds and expiries book nothing. */
  lemma CommittedUsageIsBooked(es: seq<Event>, ref: ScopeRef, k: Key, end: int)
    requires IsUsed(k)
    requires forall i :: 0 <= i < |es| ==> (end == 0 || es[i].at.ns < end) && GoodEvent(es[i]) && FixedEnd(es[i], ref, k, end)
    ensures Value(Run(EMPTY_LEDGER, es), ref, k) == Min(MAX_INT64, Committed(EMPTY_LEDGER, es, ref, k))
  {
    hide KeyInv, Run, Committed, AllEnd, EndsAt, GoodEvent, FixedEnd, Value;
    NothingUsed(ref, k, end);
    RunUsed(EMPTY_LEDGER, es, ref, k, end, 0);
  }

  /** A used counter of a day ends one hour after the day. */
  lemma DayEnds(e: Event, ref: ScopeRef, day: int)
    requires e.op.Reserve?
    ensures FixedEnd(e, ref, DayUsed(day), (day + 1) * 86_400_000_000_000 + 3_600_000_000_000)
  {
    var scopes := ResolveScopes(e.op.scopes, e.at);
    forall i | 0 <= i < |scopes| && scopes[i].ref == ref && Uses(scopes[i], DayUsed(day))
      ensures Ending(scopes[i], DayUsed(day)) == (day + 1) * 86_400_000_000_000 + 3_600_000_000_000
    {
      assert ScopeMatchesLimit(scopes[i]);
    }
  }

  /** Once it has ended it is forgotten by the next cleanup. */
  lemma EndedIsForgotten(s: Ledger, now: int, visit: seq<Id>, ref: ScopeRef, k: Key, end: int)
    requires IsUsed(k) && end != 0 && end <= now && GoodReservations(s.reservations)
    requires FullKey(ref, k) in s.valueExpires && s.valueExpires[FullKey(ref, k)] == end
    ensures Value(Cleanup(s, now, visit), ref, k) == 0
  {
    hide ExpireAll, CleanupSettlements, GoodReservations;
    ExpiryKeepsEnd(s, visit, now, ref, k);
    CleanupSettlementsKeeps(ExpireAll(s, visit, now), now);
  }

  lemma {:induction false} ExpiryKeepsEnd(s: Ledger, visit: seq<Id>, now: int, ref: ScopeRef, k: Key)
    requires IsUsed(k) && GoodReservations(s.reservations)
    ensures SameUsed(s, ExpireAll(s, visit, now), ref, k)
    decreases |visit|
  {
    hide EndReservation, SameUsed, GoodReservations;
    if visit == [] {
      SameItself(s, ref, k);
    } else {
      var s1 := ExpireOne(s, visit[0], now);
      SameItself(s, ref, k);
      if s1 != s {
        EndKeepsEnd(s, visit[0], now, ref, k);
      }
      ExpiryKeepsEnd(s1, visit[1..], now, ref, k);
      SameUsedTrans(s, s1, ExpireAll(s, visit, now), ref, k);
    }
  }

  lemma EndKeepsEnd(s: Ledger, id: Id, now: int, ref: ScopeRef, k: Key)
    requires IsUsed(k) && GoodReservations(s.reservations) && id in s.reservations
    ensures var s' := EndReservation(s, id, 0, true, now); SameUsed(s, s', ref, k) && GoodReservations(s'.reservations)
  {
    hide ReleaseScopes, RecordSettlement, EstimatedTokens, GoodReservation;
    var res := s.reservations[id];
    OfGood(res);
    ReleasesKeepUsed(s, res.scopes, EstimatedTokens(res.held), res.held.spend, 0, now, ref, k);
    M.ReleaseScopesQueue(s, res.scopes, EstimatedTokens(res.held), res.held.spend, 0, now);
    var released := ReleaseHold(s, res, 0, now);
    RecordSettlementKeeps(released.(reservations := released.reservations - {id}), id, true, now);
  }

  lemma OfGood(res: Reservation)
    requires GoodReservation(res)
    ensures Matched(res.scopes)
  {
  }
}
