/** What the pieces of a store call do to one held counter. */
module MemoryHolds {
  import opened QuotaTypes
  import opened MapSums
  import opened MemoryLedger

  function ScopeHold(scope: Scope, ref: ScopeRef, k: Key, tokens: int, spend: int): int {
    if scope.ref != ref then 0
    else KeyHold(scope.keys.active, scope.keys.spendHeld, scope.keys.dayHeld, scope.keys.monthHeld, tokens, spend, k)
  }

  function ScopesHold(scopes: seq<Scope>, ref: ScopeRef, k: Key, tokens: int, spend: int): int
    decreases |scopes|
  {
    if scopes == [] then 0
    else ScopeHold(scopes[0], ref, k, tokens, spend) + ScopesHold(scopes[1..], ref, k, tokens, spend)
  }

  function ReservationHold(res: Reservation, ref: ScopeRef, k: Key): int {
    ScopesHold(res.scopes, ref, k, EstimatedTokens(res.held), res.held.spend)
  }

  function Holds(rs: map<Id, Reservation>, ref: ScopeRef, k: Key): map<Id, int> {
    map id | id in rs :: ReservationHold(rs[id], ref, k)
  }

  /** The sum of what live reservations hold on a key. */
  ghost function HeldSum(rs: map<Id, Reservation>, ref: ScopeRef, k: Key): int { Sum(Holds(rs, ref, k)) }

  predicate Matched(scopes: seq<Scope>) {
    forall i :: 0 <= i < |scopes| ==> ScopeMatchesLimit(scopes[i])
  }

  lemma MatchedParts(scopes: seq<Scope>)
    requires Matched(scopes) && scopes != []
    ensures ScopeMatchesLimit(scopes[0]) && Matched(scopes[1..])
  {
  }

  predicate GoodScopes(scopes: seq<Scope>) { DistinctRefs(scopes) && Matched(scopes) }

  predicate GoodReservation(res: Reservation) {
    0 <= res.held.input && 0 <= res.held.output && 0 <= res.held.spend && GoodScopes(res.scopes)
  }

  predicate GoodReservations(rs: map<Id, Reservation>) {
    forall id :: id in rs ==> GoodReservation(rs[id])
  }

  // Values are int64 and never negative, and a held value never expires.
  predicate GoodValues(s: Ledger) {
    && (forall fk :: fk in s.values ==> 0 <= s.values[fk] <= MAX_INT64)
    && (forall fk :: fk in s.valueExpires ==> !IsHeld(fk.key))
  }

  // --- Sums ---------------------------------------------------------------

  lemma HeldSumRemove(rs: map<Id, Reservation>, id: Id, ref: ScopeRef, k: Key)
    requires id in rs
    ensures HeldSum(rs, ref, k) == ReservationHold(rs[id], ref, k) + HeldSum(rs - {id}, ref, k)
  {
    SumRemove(Holds(rs, ref, k), id);
    assert Holds(rs, ref, k) - {id} == Holds(rs - {id}, ref, k);
  }

  lemma HeldSumUpdate(rs: map<Id, Reservation>, id: Id, res: Reservation, ref: ScopeRef, k: Key)
    ensures HeldSum(rs[id := res], ref, k)
         == HeldSum(rs, ref, k) + ReservationHold(res, ref, k)
            - (if id in rs then ReservationHold(rs[id], ref, k) else 0)
  {
    SumUpdate(Holds(rs, ref, k), id, ReservationHold(res, ref, k));
    assert Holds(rs, ref, k)[id := ReservationHold(res, ref, k)] == Holds(rs[id := res], ref, k);
  }

  lemma ScopeHoldNonNegative(scope: Scope, ref: ScopeRef, k: Key, tokens: int, spend: int)
    requires 0 <= tokens && 0 <= spend
    ensures 0 <= ScopeHold(scope, ref, k, tokens, spend)
  {
  }

  lemma {:induction false} ScopesHoldNonNegative(scopes: seq<Scope>, ref: ScopeRef, k: Key, tokens: int, spend: int)
    requires 0 <= tokens && 0 <= spend
    ensures 0 <= ScopesHold(scopes, ref, k, tokens, spend)
    decreases |scopes|
  {
    if scopes != [] {
      ScopesHoldNonNegative(scopes[1..], ref, k, tokens, spend);
    }
  }

  lemma HeldSumBounds(rs: map<Id, Reservation>, ref: ScopeRef, k: Key)
    requires GoodReservations(rs)
    ensures 0 <= HeldSum(rs, ref, k)
    ensures forall id :: id in rs ==> 0 <= ReservationHold(rs[id], ref, k) <= HeldSum(rs, ref, k)
  {
    var h := Holds(rs, ref, k);
    forall id | id in h ensures h[id] >= 0 {
      ScopesHoldNonNegative(rs[id].scopes, ref, k, EstimatedTokens(rs[id].held), rs[id].held.spend);
    }
    SumNonNegative(h);
    forall id | id in rs ensures 0 <= ReservationHold(rs[id], ref, k) <= HeldSum(rs, ref, k) {
      assert id in h;
    }
  }

  // With distinct refs a key is held through at most one scope.
  lemma {:induction false} SingleHold(scopes: seq<Scope>, i: nat, k: Key, tokens: int, spend: int)
    requires DistinctRefs(scopes) && i < |scopes|
    ensures ScopesHold(scopes, scopes[i].ref, k, tokens, spend) == ScopeHold(scopes[i], scopes[i].ref, k, tokens, spend)
    decreases |scopes|
  {
    var rest := scopes[1..];
    if i == 0 {
      forall j | 0 <= j < |rest| ensures rest[j].ref != scopes[0].ref {
        assert rest[j] == scopes[j + 1];
      }
      NoHold(rest, scopes[0].ref, k, tokens, spend);
    } else {
      assert rest[i - 1] == scopes[i];
      SingleHold(rest, i - 1, k, tokens, spend);
    }
  }

  lemma {:induction false} NoHold(scopes: seq<Scope>, ref: ScopeRef, k: Key, tokens: int, spend: int)
    requires forall j :: 0 <= j < |scopes| ==> scopes[j].ref != ref
    ensures ScopesHold(scopes, ref, k, tokens, spend) == 0
    decreases |scopes|
  {
    if scopes != [] {
      NoHold(scopes[1..], ref, k, tokens, spend);
    }
  }

  lemma ValueBounds(s: Ledger, ref: ScopeRef, k: Key)
    requires GoodValues(s)
    ensures 0 <= Value(s, ref, k) <= MAX_INT64
  {
  }

  lemma CappedTwice(v: int, a: int, b: int)
    requires 0 <= a && 0 <= b
    ensures Min(MAX_INT64, Min(MAX_INT64, v + a) + b) == Min(MAX_INT64, v + (a + b))
  {
  }

  lemma FlooredTwice(v: int, a: int, b: int)
    requires 0 <= a && 0 <= b
    ensures Max(0, Max(0, v - a) - b) == Max(0, v - (a + b))
  {
  }

  // --- One counter step ------------------------------------------------------

  // Two ledgers that differ at most in minute counters and one held key.
  predicate SameBooks(s: Ledger, s': Ledger) {
    s'.reservations == s.reservations && s'.settlements == s.settlements && s'.order == s.order
    && s'.nextToken == s.nextToken
  }

  lemma AddValueAt(s: Ledger, r: ScopeRef, at: Key, delta: int, expires: int, now: int, ref: ScopeRef, k: Key)
    requires GoodValues(s) && 0 <= delta && k != NoKey
    ensures var s' := AddValue(s, r, at, delta, expires, now);
      && Value(s', ref, k) == (if r == ref && at == k then Min(MAX_INT64, Value(s, ref, k) + delta) else Value(s, ref, k))
      && SameBooks(s, s')
      && (expires == 0 || !IsHeld(at) ==> GoodValues(s'))
  {
  }

  lemma DecrValueAt(s: Ledger, r: ScopeRef, at: Key, delta: int, ref: ScopeRef, k: Key)
    requires GoodValues(s) && 0 <= delta && k != NoKey
    ensures var s' := DecrValue(s, r, at, delta);
      && Value(s', ref, k) == (if r == ref && at == k then Max(0, Value(s, ref, k) - delta) else Value(s, ref, k))
      && SameBooks(s, s') && GoodValues(s')
  {
  }

  predicate SameValues(s: Ledger, s': Ledger) { s'.values == s.values && s'.valueExpires == s.valueExpires }

  lemma CountersOnly(s: Ledger, r: ScopeRef, at: Key, delta: int, held: int, actual: int, now: int)
    ensures SameBooks(s, AddCounter(s, r, at, delta, now)) && SameValues(s, AddCounter(s, r, at, delta, now))
    ensures SameBooks(s, ReconcileCounter(s, r, at, held, actual, now))
    ensures SameValues(s, ReconcileCounter(s, r, at, held, actual, now))
  {
  }

  function HoldDelta(scope: Scope, ref: ScopeRef, k: Key, tokens: int, spend: int, topUp: bool): int {
    if topUp && k.Active? then 0 else ScopeHold(scope, ref, k, tokens, spend)
  }

  lemma ApplyRequestAt(s: Ledger, scope: Scope, now: int, ref: ScopeRef, k: Key)
    requires GoodValues(s) && ScopeMatchesLimit(scope) && k != NoKey
    ensures var s' := ApplyRequest(s, scope, now);
      && Value(s', ref, k) ==
           (if k.Active? then Min(MAX_INT64, Value(s, ref, k) + ScopeHold(scope, ref, k, 0, 0)) else Value(s, ref, k))
      && SameBooks(s, s') && GoodValues(s')
  {
    AddValueAt(s, scope.ref, scope.keys.active, 1, 0, now, ref, k);
    CountersOnly(AddValue(s, scope.ref, scope.keys.active, 1, 0, now), scope.ref, scope.keys.rpm, 1, 0, 0, now);
  }

  lemma ApplyBudgetsAt(s: Ledger, scope: Scope, tokens: int, spend: int, now: int, ref: ScopeRef, k: Key)
    requires GoodValues(s) && ScopeMatchesLimit(scope) && k != NoKey && 0 <= tokens && 0 <= spend
    ensures var s' := ApplyBudgets(s, scope, tokens, spend, now);
      && Value(s', ref, k) ==
           (if k.Active? then Value(s, ref, k)
            else Min(MAX_INT64, Value(s, ref, k) + ScopeHold(scope, ref, k, tokens, spend)))
      && SameBooks(s, s') && GoodValues(s')
  {
    hide AddValue;
    hide AddCounter;
    var r, keys := scope.ref, scope.keys;
    var s1 := AddCounter(s, r, keys.tpm, tokens, now);
    var s2 := AddValue(s1, r, keys.spendHeld, spend, 0, now);
    var s3 := AddValue(s2, r, keys.dayHeld, tokens, 0, now);
    CountersOnly(s, r, keys.tpm, tokens, 0, 0, now);
    AddValueAt(s1, r, keys.spendHeld, spend, 0, now, ref, k);
    AddValueAt(s2, r, keys.dayHeld, tokens, 0, now, ref, k);
    AddValueAt(s3, r, keys.monthHeld, tokens, 0, now, ref, k);
  }

  lemma ApplyHoldAt(s: Ledger, scope: Scope, e: EstimatedUsage, now: int, topUp: bool, ref: ScopeRef, k: Key)
    requires GoodValues(s) && ScopeMatchesLimit(scope) && k != NoKey && NormalEstimate(e)
    ensures var s' := ApplyHold(s, scope, e, now, topUp);
      && Value(s', ref, k) ==
           Min(MAX_INT64, Value(s, ref, k) + HoldDelta(scope, ref, k, EstimatedTokens(e), e.spend, topUp))
      && SameBooks(s, s') && GoodValues(s')
  {
    hide ApplyRequest;
    hide ApplyBudgets;
    var s1 := if topUp then s else ApplyRequest(s, scope, now);
    ApplyRequestAt(s, scope, now, ref, k);
    ApplyBudgetsAt(s1, scope, EstimatedTokens(e), e.spend, now, ref, k);
    assert 0 <= Value(s, ref, k) <= MAX_INT64;
  }

  function HoldsDelta(scopes: seq<Scope>, ref: ScopeRef, k: Key, tokens: int, spend: int, topUp: bool): int {
    if topUp && k.Active? then 0 else ScopesHold(scopes, ref, k, tokens, spend)
  }

  lemma {:induction false} ApplyHoldsGood(s: Ledger, scopes: seq<Scope>, e: EstimatedUsage, now: int, topUp: bool)
    requires GoodValues(s) && NormalEstimate(e)
    requires Matched(scopes)
    ensures SameBooks(s, ApplyHolds(s, scopes, e, now, topUp)) && GoodValues(ApplyHolds(s, scopes, e, now, topUp))
    decreases |scopes|
  {
    hide ApplyHold;
    hide Matched;
    hide ScopeMatchesLimit;
    hide GoodValues;
    if scopes != [] {
      MatchedParts(scopes);
      ApplyHoldAt(s, scopes[0], e, now, topUp, scopes[0].ref, Active);
      ApplyHoldsGood(ApplyHold(s, scopes[0], e, now, topUp), scopes[1..], e, now, topUp);
    }
  }

  lemma {:induction false} ApplyHoldsAt(s: Ledger, scopes: seq<Scope>, e: EstimatedUsage, now: int, topUp: bool,
                                        ref: ScopeRef, k: Key)
    requires GoodValues(s) && k != NoKey && NormalEstimate(e)
    requires Matched(scopes)
    ensures Value(ApplyHolds(s, scopes, e, now, topUp), ref, k) ==
            Min(MAX_INT64, Value(s, ref, k) + HoldsDelta(scopes, ref, k, EstimatedTokens(e), e.spend, topUp))
    decreases |scopes|
  {
    hide GoodValues;
    hide Value;
    hide ScopeHold;
    hide ApplyHold;
    hide Matched;
    hide ScopeMatchesLimit;
    hide SameBooks;
    ValueBounds(s, ref, k);
    if scopes != [] {
      MatchedParts(scopes);
      var tokens, spend := EstimatedTokens(e), e.spend;
      ApplyHoldAt(s, scopes[0], e, now, topUp, ref, k);
      ApplyHoldsAt(ApplyHold(s, scopes[0], e, now, topUp), scopes[1..], e, now, topUp, ref, k);
      ScopeHoldNonNegative(scopes[0], ref, k, tokens, spend);
      ScopesHoldNonNegative(scopes[1..], ref, k, tokens, spend);
      CappedTwice(Value(s, ref, k), HoldDelta(scopes[0], ref, k, tokens, spend, topUp),
                  HoldsDelta(scopes[1..], ref, k, tokens, spend, topUp));
    }
  }

  lemma ReleaseScopeAt(s: Ledger, scope: Scope, tokens: int, spend: int, actual: int, now: int, ref: ScopeRef, k: Key)
    requires GoodValues(s) && ScopeMatchesLimit(scope) && IsHeld(k) && 0 <= tokens && 0 <= spend
    ensures var s' := ReleaseScope(s, scope, tokens, spend, actual, now);
      && Value(s', ref, k) == Max(0, Value(s, ref, k) - ScopeHold(scope, ref, k, tokens, spend))
      && SameBooks(s, s') && GoodValues(s')
  {
    hide DecrValue;
    hide ReconcileCounter;
    var r, keys := scope.ref, scope.keys;
    var s1 := ReconcileCounter(s, r, keys.tpm, tokens, actual, now);
    var s2 := DecrValue(s1, r, keys.active, 1);
    var s3 := DecrValue(s2, r, keys.spendHeld, spend);
    var s4 := DecrValue(s3, r, keys.dayHeld, tokens);
    CountersOnly(s, r, keys.tpm, 0, tokens, actual, now);
    DecrValueAt(s1, r, keys.active, 1, ref, k);
    DecrValueAt(s2, r, keys.spendHeld, spend, ref, k);
    DecrValueAt(s3, r, keys.dayHeld, tokens, ref, k);
    DecrValueAt(s4, r, keys.monthHeld, tokens, ref, k);
    assert 0 <= Value(s, ref, k);
  }

  lemma {:induction false} ReleaseScopesGood(s: Ledger, scopes: seq<Scope>, tokens: int, spend: int, actual: int, now: int)
    requires GoodValues(s) && 0 <= tokens && 0 <= spend
    requires Matched(scopes)
    ensures SameBooks(s, ReleaseScopes(s, scopes, tokens, spend, actual, now)) && GoodValues(ReleaseScopes(s, scopes, tokens, spend, actual, now))
    decreases |scopes|
  {
    hide ReleaseScope;
    hide Matched;
    hide ScopeMatchesLimit;
    hide GoodValues;
    if scopes != [] {
      MatchedParts(scopes);
      ReleaseScopeAt(s, scopes[0], tokens, spend, actual, now, scopes[0].ref, Active);
      ReleaseScopesGood(ReleaseScope(s, scopes[0], tokens, spend, actual, now), scopes[1..], tokens, spend, actual, now);
    }
  }

  lemma {:induction false} ReleaseScopesAt(s: Ledger, scopes: seq<Scope>, tokens: int, spend: int, actual: int, now: int,
                                           ref: ScopeRef, k: Key)
    requires GoodValues(s) && IsHeld(k) && 0 <= tokens && 0 <= spend
    requires Matched(scopes)
    ensures Value(ReleaseScopes(s, scopes, tokens, spend, actual, now), ref, k)
         == Max(0, Value(s, ref, k) - ScopesHold(scopes, ref, k, tokens, spend))
    decreases |scopes|
  {
    hide GoodValues;
    hide Value;
    hide ScopeHold;
    hide ReleaseScope;
    hide Matched;
    hide ScopeMatchesLimit;
    hide SameBooks;
    ValueBounds(s, ref, k);
    if scopes != [] {
      MatchedParts(scopes);
      ReleaseScopeAt(s, scopes[0], tokens, spend, actual, now, ref, k);
      ReleaseScopesAt(ReleaseScope(s, scopes[0], tokens, spend, actual, now), scopes[1..], tokens, spend, actual, now, ref, k);
      ScopeHoldNonNegative(scopes[0], ref, k, tokens, spend);
      ScopesHoldNonNegative(scopes[1..], ref, k, tokens, spend);
      FlooredTwice(Value(s, ref, k), ScopeHold(scopes[0], ref, k, tokens, spend), ScopesHold(scopes[1..], ref, k, tokens, spend));
    }
  }

  // Used counters are not touched by a release.
  lemma ReleaseScopeUsed(s: Ledger, scope: Scope, tokens: int, spend: int, actual: int, now: int, ref: ScopeRef, k: Key)
    requires GoodValues(s) && ScopeMatchesLimit(scope) && !IsHeld(k) && k != NoKey && 0 <= tokens && 0 <= spend
    ensures var s' := ReleaseScope(s, scope, tokens, spend, actual, now);
      Value(s', ref, k) == Value(s, ref, k) && GoodValues(s')
  {
    hide DecrValue;
    hide ReconcileCounter;
    var r, keys := scope.ref, scope.keys;
    var s1 := ReconcileCounter(s, r, keys.tpm, tokens, actual, now);
    var s2 := DecrValue(s1, r, keys.active, 1);
    var s3 := DecrValue(s2, r, keys.spendHeld, spend);
    var s4 := DecrValue(s3, r, keys.dayHeld, tokens);
    CountersOnly(s, r, keys.tpm, 0, tokens, actual, now);
    DecrValueAt(s1, r, keys.active, 1, ref, k);
    DecrValueAt(s2, r, keys.spendHeld, spend, ref, k);
    DecrValueAt(s3, r, keys.dayHeld, tokens, ref, k);
    DecrValueAt(s4, r, keys.monthHeld, tokens, ref, k);
  }

  lemma {:induction false} ReleaseScopesUsed(s: Ledger, scopes: seq<Scope>, tokens: int, spend: int, actual: int, now: int,
                                             ref: ScopeRef, k: Key)
    requires GoodValues(s) && !IsHeld(k) && k != NoKey && 0 <= tokens && 0 <= spend
    requires Matched(scopes)
    ensures Value(ReleaseScopes(s, scopes, tokens, spend, actual, now), ref, k) == Value(s, ref, k)
    decreases |scopes|
  {
    hide ReleaseScope;
    hide Matched;
    hide ScopeMatchesLimit;
    if scopes != [] {
      MatchedParts(scopes);
      ReleaseScopeUsed(s, scopes[0], tokens, spend, actual, now, ref, k);
      ReleaseScopesUsed(ReleaseScope(s, scopes[0], tokens, spend, actual, now), scopes[1..], tokens, spend, actual, now, ref, k);
    }
  }

  // --- What a commit adds to the used counters ---------------------------------

  function UsedHold(scope: Scope, ref: ScopeRef, k: Key, tokens: int, spend: int): int {
    if scope.ref != ref then 0
    else
      match k
      case SpendUsed(_) => if scope.keys.spendUsed == k then spend else 0
      case DayUsed(_) => if scope.keys.dayUsed == k then tokens else 0
      case MonthUsed(_) => if scope.keys.monthUsed == k then tokens else 0
      case _ => 0
  }

  function ScopesUsed(scopes: seq<Scope>, ref: ScopeRef, k: Key, tokens: int, spend: int): int
    decreases |scopes|
  {
    if scopes == [] then 0
    else UsedHold(scopes[0], ref, k, tokens, spend) + ScopesUsed(scopes[1..], ref, k, tokens, spend)
  }

  lemma {:induction false} ScopesUsedNonNegative(scopes: seq<Scope>, ref: ScopeRef, k: Key, tokens: int, spend: int)
    requires 0 <= tokens && 0 <= spend
    ensures 0 <= ScopesUsed(scopes, ref, k, tokens, spend)
    decreases |scopes|
  {
    if scopes != [] {
      ScopesUsedNonNegative(scopes[1..], ref, k, tokens, spend);
    }
  }

  lemma UseScopeAt(s: Ledger, scope: Scope, actual: ActualUsage, now: int, ref: ScopeRef, k: Key)
    requires GoodValues(s) && ScopeMatchesLimit(scope) && NormalActual(actual) && k != NoKey
    ensures var s' := UseScope(s, scope, actual, now);
      && Value(s', ref, k) ==
           Min(MAX_INT64, Value(s, ref, k) + UsedHold(scope, ref, k, ActualTokens(actual), actual.spend))
      && SameBooks(s, s') && GoodValues(s')
  {
    hide AddValue;
    var r, keys, tokens := scope.ref, scope.keys, ActualTokens(actual);
    var s1 := AddValue(s, r, keys.spendUsed, actual.spend, scope.expires.spendUsed, now);
    var s2 := AddValue(s1, r, keys.dayUsed, tokens, scope.expires.dayUsed, now);
    AddValueAt(s, r, keys.spendUsed, actual.spend, scope.expires.spendUsed, now, ref, k);
    AddValueAt(s1, r, keys.dayUsed, tokens, scope.expires.dayUsed, now, ref, k);
    AddValueAt(s2, r, keys.monthUsed, tokens, scope.expires.monthUsed, now, ref, k);
    assert 0 <= Value(s, ref, k) <= MAX_INT64;
  }

  lemma {:induction false} UseScopesGood(s: Ledger, scopes: seq<Scope>, actual: ActualUsage, now: int)
    requires GoodValues(s) && NormalActual(actual)
    requires Matched(scopes)
    ensures SameBooks(s, UseScopes(s, scopes, actual, now)) && GoodValues(UseScopes(s, scopes, actual, now))
    decreases |scopes|
  {
    hide UseScope;
    hide Matched;
    hide ScopeMatchesLimit;
    hide GoodValues;
    if scopes != [] {
      MatchedParts(scopes);
      UseScopeAt(s, scopes[0], actual, now, scopes[0].ref, Active);
      UseScopesGood(UseScope(s, scopes[0], actual, now), scopes[1..], actual, now);
    }
  }

  lemma {:induction false} UseScopesAt(s: Ledger, scopes: seq<Scope>, actual: ActualUsage, now: int, ref: ScopeRef, k: Key)
    requires GoodValues(s) && NormalActual(actual) && k != NoKey
    requires Matched(scopes)
    ensures Value(UseScopes(s, scopes, actual, now), ref, k) ==
            Min(MAX_INT64, Value(s, ref, k) + ScopesUsed(scopes, ref, k, ActualTokens(actual), actual.spend))
    decreases |scopes|
  {
    hide GoodValues;
    hide Value;
    hide UsedHold;
    hide UseScope;
    hide Matched;
    hide ScopeMatchesLimit;
    hide SameBooks;
    ValueBounds(s, ref, k);
    if scopes != [] {
      MatchedParts(scopes);
      var tokens, spend := ActualTokens(actual), actual.spend;
      UseScopeAt(s, scopes[0], actual, now, ref, k);
      UseScopesAt(UseScope(s, scopes[0], actual, now), scopes[1..], actual, now, ref, k);
      ScopesUsedNonNegative(scopes[1..], ref, k, tokens, spend);
      UsedHoldNonNegative(scopes[0], ref, k, tokens, spend);
      CappedTwice(Value(s, ref, k), UsedHold(scopes[0], ref, k, tokens, spend), ScopesUsed(scopes[1..], ref, k, tokens, spend));
    }
  }

  lemma UsedHoldNonNegative(scope: Scope, ref: ScopeRef, k: Key, tokens: int, spend: int)
    requires 0 <= tokens && 0 <= spend
    ensures 0 <= UsedHold(scope, ref, k, tokens, spend)
  {
  }

  lemma {:induction false} HeldIsNotUsed(scopes: seq<Scope>, ref: ScopeRef, k: Key, tokens: int, spend: int)
    requires IsHeld(k)
    ensures ScopesUsed(scopes, ref, k, tokens, spend) == 0
    decreases |scopes|
  {
    if scopes != [] {
      HeldIsNotUsed(scopes[1..], ref, k, tokens, spend);
    }
  }
}
