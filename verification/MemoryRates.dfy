/** The minute counters of the in-process ledger and what the limits decide:
    every admission, refusal and settlement stated over counter values and
    amounts. */
module MemoryRates {
  import opened QuotaTypes
  import opened MemoryLedger
  import opened MemoryHolds
  import opened MemoryRuns

  function Entry(s: Ledger, ref: ScopeRef, k: Key): Option<CounterEntry> {
    if FullKey(ref, k) in s.counters then Some(s.counters[FullKey(ref, k)]) else None
  }

  /** The value a minute counter reads as. */
  function Reads(c: Option<CounterEntry>, now: int): int {
    if c.None? || c.value.expires < now then 0 else c.value.value
  }

  lemma ReadsEntry(s: Ledger, ref: ScopeRef, k: Key, now: int)
    ensures CounterValue(s, ref, k, now) == Reads(Entry(s, ref, k), now)
  {
  }

  // --- What a hold books -----------------------------------------------------------------------

  lemma AddCounterEntry(s: Ledger, r: ScopeRef, at: Key, delta: int, now: int, ref: ScopeRef, k: Key)
    requires k != NoKey
    ensures Entry(AddCounter(s, r, at, delta, now), ref, k)
         == if r == ref && at == k && delta != 0
            then Some(CounterEntry(SaturatingAdd(CounterValue(s, ref, k, now), delta), NextMinute(now)))
            else Entry(s, ref, k)
  {
  }

  lemma ValuesHaveNoEntry(s: Ledger, r: ScopeRef, at: Key, delta: int, expires: int, now: int, ref: ScopeRef, k: Key)
    ensures Entry(AddValue(s, r, at, delta, expires, now), ref, k) == Entry(s, ref, k)
    ensures Entry(DecrValue(s, r, at, delta), ref, k) == Entry(s, ref, k)
  {
  }

  /** A minute counter of the scope after a hold: one request more, or the
      tokens more, until the end of the current minute. */
  function Booked(c: Option<CounterEntry>, scope: Scope, tokens: int, now: int, topUp: bool, k: Key): Option<CounterEntry> {
    if k == scope.keys.rpm && !topUp then Some(CounterEntry(SaturatingAdd(Reads(c, now), 1), NextMinute(now)))
    else if k == scope.keys.tpm && tokens != 0 then Some(CounterEntry(SaturatingAdd(Reads(c, now), tokens), NextMinute(now)))
    else c
  }

  lemma RequestEntry(s: Ledger, scope: Scope, now: int, ref: ScopeRef, k: Key)
    requires k != NoKey
    ensures Entry(ApplyRequest(s, scope, now), ref, k)
         == if scope.ref == ref && k == scope.keys.rpm
            then Some(CounterEntry(SaturatingAdd(CounterValue(s, ref, k, now), 1), NextMinute(now))) else Entry(s, ref, k)
  {
    hide AddValue, AddCounter, Entry, SaturatingAdd;
    var s1 := AddValue(s, scope.ref, scope.keys.active, 1, 0, now);
    ValuesHaveNoEntry(s, scope.ref, scope.keys.active, 1, 0, now, ref, k);
    AddCounterEntry(s1, scope.ref, scope.keys.rpm, 1, now, ref, k);
    ReadsEntry(s, ref, k, now);
    ReadsEntry(s1, ref, k, now);
  }

  lemma BudgetsEntry(s: Ledger, scope: Scope, tokens: int, spend: int, now: int, ref: ScopeRef, k: Key)
    requires k != NoKey
    ensures Entry(ApplyBudgets(s, scope, tokens, spend, now), ref, k)
         == if scope.ref == ref && k == scope.keys.tpm && tokens != 0
            then Some(CounterEntry(SaturatingAdd(CounterValue(s, ref, k, now), tokens), NextMinute(now))) else Entry(s, ref, k)
  {
    hide AddValue, AddCounter, Entry, SaturatingAdd;
    var r, keys := scope.ref, scope.keys;
    var s1 := AddCounter(s, r, keys.tpm, tokens, now);
    var s2 := AddValue(s1, r, keys.spendHeld, spend, 0, now);
    var s3 := AddValue(s2, r, keys.dayHeld, tokens, 0, now);
    AddCounterEntry(s, r, keys.tpm, tokens, now, ref, k);
    ValuesHaveNoEntry(s1, r, keys.spendHeld, spend, 0, now, ref, k);
    ValuesHaveNoEntry(s2, r, keys.dayHeld, tokens, 0, now, ref, k);
    ValuesHaveNoEntry(s3, r, keys.monthHeld, tokens, 0, now, ref, k);
  }

  lemma HoldEntry(s: Ledger, scope: Scope, e: EstimatedUsage, now: int, topUp: bool, ref: ScopeRef, k: Key)
    requires k != NoKey && ScopeMatchesLimit(scope)
    ensures Entry(ApplyHold(s, scope, e, now, topUp), ref, k)
         == if scope.ref == ref then Booked(Entry(s, ref, k), scope, EstimatedTokens(e), now, topUp, k) else Entry(s, ref, k)
  {
    hide ApplyRequest, ApplyBudgets, Entry, SaturatingAdd;
    var s1 := if topUp then s else ApplyRequest(s, scope, now);
    RequestEntry(s, scope, now, ref, k);
    BudgetsEntry(s1, scope, EstimatedTokens(e), e.spend, now, ref, k);
    ReadsEntry(s, ref, k, now);
    ReadsEntry(s1, ref, k, now);
  }

  lemma {:induction false} HoldsElsewhere(s: Ledger, scopes: seq<Scope>, e: EstimatedUsage, now: int, topUp: bool, ref: ScopeRef, k: Key)
    requires k != NoKey && Matched(scopes) && !Touches(scopes, ref)
    ensures Entry(ApplyHolds(s, scopes, e, now, topUp), ref, k) == Entry(s, ref, k)
    decreases |scopes|
  {
    hide ApplyHold, Entry, ScopeMatchesLimit;
    if scopes != [] {
      HoldEntry(s, scopes[0], e, now, topUp, ref, k);
      HoldsElsewhere(ApplyHold(s, scopes[0], e, now, topUp), scopes[1..], e, now, topUp, ref, k);
    }
  }

  lemma {:induction false} HoldsEntry(s: Ledger, scopes: seq<Scope>, e: EstimatedUsage, now: int, topUp: bool, i: nat, k: Key)
    requires k != NoKey && GoodScopes(scopes) && i < |scopes|
    ensures Entry(ApplyHolds(s, scopes, e, now, topUp), scopes[i].ref, k)
         == Booked(Entry(s, scopes[i].ref, k), scopes[i], EstimatedTokens(e), now, topUp, k)
    decreases |scopes|
  {
    hide ApplyHold, Entry, ScopeMatchesLimit, Booked;
    var ref, s1, rest := scopes[i].ref, ApplyHold(s, scopes[0], e, now, topUp), scopes[1..];
    HoldEntry(s, scopes[0], e, now, topUp, ref, k);
    if i == 0 {
      HoldsElsewhere(s1, rest, e, now, topUp, ref, k);
    } else {
      assert rest[i - 1] == scopes[i];
      HoldsEntry(s1, rest, e, now, topUp, i - 1, k);
    }
  }

  // --- What a settlement takes back -----------------------------------------------------------

  /** A minute counter whose held tokens give way to the tokens really used. A
      counter past its minute goes, and so does one that falls to zero. */
  function Replaced(c: Option<CounterEntry>, held: int, actual: int, now: int): Option<CounterEntry> {
    if c.None? || (c.value.expires != 0 && c.value.expires <= now) then None
    else
      var v := Min(MAX_INT64, Max(0, Max(c.value.value, 0) + Max(actual, 0) - Max(held, 0)));
      if v == 0 then None else Some(c.value.(value := v))
  }

  lemma ReconcileEntry(s: Ledger, r: ScopeRef, at: Key, held: int, actual: int, now: int, ref: ScopeRef, k: Key)
    requires k != NoKey
    ensures Entry(ReconcileCounter(s, r, at, held, actual, now), ref, k)
         == if r == ref && at == k then Replaced(Entry(s, ref, k), held, actual, now) else Entry(s, ref, k)
  {
  }

  lemma ReleaseEntry(s: Ledger, scope: Scope, tokens: int, spend: int, actual: int, now: int, ref: ScopeRef, k: Key)
    requires k != NoKey
    ensures Entry(ReleaseScope(s, scope, tokens, spend, actual, now), ref, k)
         == if scope.ref == ref && k == scope.keys.tpm then Replaced(Entry(s, ref, k), tokens, actual, now) else Entry(s, ref, k)
  {
    hide DecrValue, ReconcileCounter, Entry, Replaced;
    var r, keys := scope.ref, scope.keys;
    var s1 := ReconcileCounter(s, r, keys.tpm, tokens, actual, now);
    var s2 := DecrValue(s1, r, keys.active, 1);
    var s3 := DecrValue(s2, r, keys.spendHeld, spend);
    var s4 := DecrValue(s3, r, keys.dayHeld, tokens);
    ReconcileEntry(s, r, keys.tpm, tokens, actual, now, ref, k);
    ValuesHaveNoEntry(s1, r, keys.active, 1, 0, now, ref, k);
    ValuesHaveNoEntry(s2, r, keys.spendHeld, spend, 0, now, ref, k);
    ValuesHaveNoEntry(s3, r, keys.dayHeld, tokens, 0, now, ref, k);
    ValuesHaveNoEntry(s4, r, keys.monthHeld, tokens, 0, now, ref, k);
  }

  lemma {:induction false} ReleasesElsewhere(s: Ledger, scopes: seq<Scope>, tokens: int, spend: int, actual: int, now: int, ref: ScopeRef, k: Key)
    requires k != NoKey && forall i :: 0 <= i < |scopes| ==> scopes[i].ref != ref || scopes[i].keys.tpm != k
    ensures Entry(ReleaseScopes(s, scopes, tokens, spend, actual, now), ref, k) == Entry(s, ref, k)
    decreases |scopes|
  {
    hide ReleaseScope, Entry;
    if scopes != [] {
      ReleaseEntry(s, scopes[0], tokens, spend, actual, now, ref, k);
      ReleasesElsewhere(ReleaseScope(s, scopes[0], tokens, spend, actual, now), scopes[1..], tokens, spend, actual, now, ref, k);
    }
  }

  lemma {:induction false} ReleasesEntry(s: Ledger, scopes: seq<Scope>, tokens: int, spend: int, actual: int, now: int, i: nat)
    requires DistinctRefs(scopes) && i < |scopes| && scopes[i].keys.tpm != NoKey
    ensures Entry(ReleaseScopes(s, scopes, tokens, spend, actual, now), scopes[i].ref, scopes[i].keys.tpm)
         == Replaced(Entry(s, scopes[i].ref, scopes[i].keys.tpm), tokens, actual, now)
    decreases |scopes|
  {
    hide ReleaseScope, Entry, Replaced;
    var ref, k, rest := scopes[i].ref, scopes[i].keys.tpm, scopes[1..];
    var s1 := ReleaseScope(s, scopes[0], tokens, spend, actual, now);
    ReleaseEntry(s, scopes[0], tokens, spend, actual, now, ref, k);
    if i == 0 {
      ReleasesElsewhere(s1, rest, tokens, spend, actual, now, ref, k);
    } else {
      assert rest[i - 1] == scopes[i];
      ReleasesEntry(s1, rest, tokens, spend, actual, now, i - 1);
    }
  }

  lemma {:induction false} UseHasNoEntry(s: Ledger, scopes: seq<Scope>, actual: ActualUsage, now: int)
    ensures UseScopes(s, scopes, actual, now).counters == s.counters
    decreases |scopes|
  {
    if scopes != [] {
      UseHasNoEntry(UseScope(s, scopes[0], actual, now), scopes[1..], actual, now);
    }
  }

  /** Settling a live reservation replaces, in each minute counter it counts on,
      the tokens it held by the tokens it used: a commit by the actual ones, a
      refund or an expiry by none. */
  lemma SettlementReplacesTokens(s: Ledger, id: Id, actual: ActualUsage, used: int, expired: bool, now: int, i: nat)
    requires id in s.reservations && i < |s.reservations[id].scopes| && GoodReservation(s.reservations[id])
    requires s.reservations[id].scopes[i].limit.tpm > 0
    ensures var res := s.reservations[id];
      var ref, k, held := res.scopes[i].ref, res.scopes[i].keys.tpm, EstimatedTokens(res.held);
      && Entry(EndReservation(s, id, used, expired, now), ref, k) == Replaced(Entry(s, ref, k), held, used, now)
      && Entry(UseScopes(ReleaseHold(s, res, ActualTokens(actual), now), res.scopes, actual, now), ref, k)
         == Replaced(Entry(s, ref, k), held, ActualTokens(actual), now)
  {
    hide ReleaseScopes, RecordSettlement, UseScopes, Replaced, EstimatedTokens, ActualTokens;
    var res := s.reservations[id];
    assert ScopeMatchesLimit(res.scopes[i]);
    ReleasesEntry(s, res.scopes, EstimatedTokens(res.held), res.held.spend, used, now, i);
    ReleasesEntry(s, res.scopes, EstimatedTokens(res.held), res.held.spend, ActualTokens(actual), now, i);
    var released := ReleaseHold(s, res, used, now);
    RecordSettlementKeeps(released.(reservations := released.reservations - {id}), id, expired, now);
    UseHasNoEntry(ReleaseHold(s, res, ActualTokens(actual), now), res.scopes, actual, now);
  }

  // --- What the limits decide ---------------------------------------------------------------------

  function Positive(x: int): int { if x < 0 then 0 else x }

  /** The limit that `reason` names leaves no room on the scope: what is booked
      plus what is asked for exceeds it. */
  predicate NoRoom(s: Ledger, scope: Scope, tokens: int, spend: int, now: int, reason: Limited) {
    var ref, limit, keys := scope.ref, scope.limit, scope.keys;
    match reason
    case MaxParallel => limit.maxParallel > 0 && Positive(Value(s, ref, keys.active)) + 1 > limit.maxParallel
    case Rpm => limit.rpm > 0 && Positive(CounterValue(s, ref, keys.rpm, now)) + 1 > limit.rpm
    case Tpm => limit.tpm > 0 && Positive(CounterValue(s, ref, keys.tpm, now)) + Positive(tokens) > limit.tpm
    case Spend =>
      limit.maxSpend > 0
      && Positive(Value(s, ref, keys.spendUsed)) + Positive(Value(s, ref, keys.spendHeld)) + Positive(spend) > limit.maxSpend
    case Daily =>
      limit.daily > 0
      && Positive(Value(s, ref, keys.dayUsed)) + Positive(Value(s, ref, keys.dayHeld)) + Positive(tokens) > limit.daily
    case Monthly =>
      limit.monthly > 0
      && Positive(Value(s, ref, keys.monthUsed)) + Positive(Value(s, ref, keys.monthHeld)) + Positive(tokens) > limit.monthly
  }

  /** The limits a call is held to: a top-up is no new request. */
  predicate Applies(reason: Limited, topUp: bool) { topUp ==> !reason.MaxParallel? && !reason.Rpm? }

  lemma AddsOne(a: int)
    ensures TotalOf([a]) == Positive(a)
  {
    assert [a][1..] == [];
  }

  lemma Adds(a: int, b: int, c: int)
    ensures TotalOf([a, b]) == Positive(a) + Positive(b)
    ensures TotalOf([a, b, c]) == Positive(a) + Positive(b) + Positive(c)
  {
    AddsOne(b);
    AddsOne(c);
    assert [b, c][1..] == [c] && [a, b][1..] == [b];
    assert TotalOf([b, c]) == Positive(b) + Positive(c);
    assert [a, b, c][1..] == [b, c];
  }

  // Limits are checked in this order.
  function Rank(reason: Limited): nat {
    match reason
    case MaxParallel => 0
    case Rpm => 1
    case Tpm => 2
    case Spend => 3
    case Daily => 4
    case Monthly => 5
  }

  /** No limit of the scope that is checked before the given rank lacks room. */
  predicate Roomy(s: Ledger, scope: Scope, tokens: int, spend: int, now: int, topUp: bool, rank: nat) {
    forall reason: Limited :: Applies(reason, topUp) && Rank(reason) < rank ==> !NoRoom(s, scope, tokens, spend, now, reason)
  }

  lemma ScopeDecision(s: Ledger, scope: Scope, e: EstimatedUsage, now: int, topUp: bool)
    ensures var v := CheckScope(s, scope, e, now, topUp);
      && (v.Some? ==> Applies(v.value, topUp) && NoRoom(s, scope, EstimatedTokens(e), e.spend, now, v.value))
      && Roomy(s, scope, EstimatedTokens(e), e.spend, now, topUp, if v.Some? then Rank(v.value) else 6)
  {
    hide TotalOf, Value, CounterValue, EstimatedTokens;
    var ref, keys, tokens := scope.ref, scope.keys, EstimatedTokens(e);
    Adds(Value(s, ref, keys.active), 1, 0);
    Adds(CounterValue(s, ref, keys.rpm, now), 1, 0);
    Adds(CounterValue(s, ref, keys.tpm, now), tokens, 0);
    Adds(Value(s, ref, keys.spendUsed), Value(s, ref, keys.spendHeld), e.spend);
    Adds(Value(s, ref, keys.dayUsed), Value(s, ref, keys.dayHeld), tokens);
    Adds(Value(s, ref, keys.monthUsed), Value(s, ref, keys.monthHeld), tokens);
  }

  /** Every limit of every scope has room. */
  predicate AllRoomy(s: Ledger, scopes: seq<Scope>, tokens: int, spend: int, now: int, topUp: bool) {
    forall i :: 0 <= i < |scopes| ==> Roomy(s, scopes[i], tokens, spend, now, topUp, 6)
  }

  /** The first limit that lacks room: the scopes before have room, and so do
      the limits checked before it. */
  predicate FirstBlocked(s: Ledger, scopes: seq<Scope>, tokens: int, spend: int, now: int, topUp: bool, reason: Limited) {
    Applies(reason, topUp)
    && exists i :: 0 <= i < |scopes| && NoRoom(s, scopes[i], tokens, spend, now, reason)
         && Roomy(s, scopes[i], tokens, spend, now, topUp, Rank(reason))
         && AllRoomy(s, scopes[..i], tokens, spend, now, topUp)
  }

  lemma {:induction false} ScopesDecision(s: Ledger, scopes: seq<Scope>, e: EstimatedUsage, now: int, topUp: bool)
    ensures var v := CheckScopes(s, scopes, e, now, topUp);
      && (v.Some? ==> FirstBlocked(s, scopes, EstimatedTokens(e), e.spend, now, topUp, v.value))
      && (v.None? <==> AllRoomy(s, scopes, EstimatedTokens(e), e.spend, now, topUp))
    decreases |scopes|
  {
    hide CheckScope, NoRoom, Roomy, EstimatedTokens, Rank;
    if scopes != [] {
      var rest, tokens, v := scopes[1..], EstimatedTokens(e), CheckScope(s, scopes[0], e, now, topUp);
      ScopeDecision(s, scopes[0], e, now, topUp);
      ScopesDecision(s, rest, e, now, topUp);
      if v.Some? {
        assert scopes[..0] == [];
        BlockedIsNotRoomy(s, scopes[0], tokens, e.spend, now, topUp, v.value);
      } else {
        RoomyFirst(s, scopes, tokens, e.spend, now, topUp);
        var w := CheckScopes(s, rest, e, now, topUp);
        if w.Some? {
          BlockedLater(s, scopes, tokens, e.spend, now, topUp, w.value);
        }
      }
    }
  }

  lemma BlockedIsNotRoomy(s: Ledger, scope: Scope, tokens: int, spend: int, now: int, topUp: bool, reason: Limited)
    requires Applies(reason, topUp) && NoRoom(s, scope, tokens, spend, now, reason)
    ensures !Roomy(s, scope, tokens, spend, now, topUp, 6)
  {
    hide NoRoom;
    assert Rank(reason) < 6;
  }

  lemma RoomyFirst(s: Ledger, scopes: seq<Scope>, tokens: int, spend: int, now: int, topUp: bool)
    requires scopes != []
    ensures AllRoomy(s, scopes, tokens, spend, now, topUp)
      <==> Roomy(s, scopes[0], tokens, spend, now, topUp, 6) && AllRoomy(s, scopes[1..], tokens, spend, now, topUp)
  {
    hide Roomy;
    var rest := scopes[1..];
    assert forall i :: 0 < i < |scopes| ==> scopes[i] == rest[i - 1];
  }

  lemma BlockedLater(s: Ledger, scopes: seq<Scope>, tokens: int, spend: int, now: int, topUp: bool, reason: Limited)
    requires scopes != [] && Roomy(s, scopes[0], tokens, spend, now, topUp, 6)
    requires FirstBlocked(s, scopes[1..], tokens, spend, now, topUp, reason)
    ensures FirstBlocked(s, scopes, tokens, spend, now, topUp, reason)
  {
    hide Roomy, NoRoom, Rank, AllRoomy;
    var rest := scopes[1..];
    var i :| 0 <= i < |rest| && NoRoom(s, rest[i], tokens, spend, now, reason)
      && Roomy(s, rest[i], tokens, spend, now, topUp, Rank(reason)) && AllRoomy(s, rest[..i], tokens, spend, now, topUp);
    var before := scopes[..i + 1];
    assert before[1..] == rest[..i];
    RoomyFirst(s, before, tokens, spend, now, topUp);
    assert scopes[i + 1] == rest[i];
  }

  /** Reserve of an ID that is neither live nor remembered: granted exactly if
      none of the six limits of any scope lacks room, and a refusal names the
      first limit that does. */
  lemma ReserveDecision(s: Ledger, e: Event)
    requires e.op.Reserve? && e.op.id != 0
    requires var s1 := Cleanup(s, e.at.ns, e.visit); e.op.id !in s1.settlements && e.op.id !in s1.reservations
    ensures var s1, scopes, u := Cleanup(s, e.at.ns, e.visit), ResolveScopes(e.op.scopes, e.at), NormalizeEstimate(e.op.estimate);
      var r := Step(s, e).1;
      && (r == Ok <==> AllRoomy(s1, scopes, EstimatedTokens(u), u.spend, e.at.ns, false))
      && (r != Ok ==> r.RateLimited? && FirstBlocked(s1, scopes, EstimatedTokens(u), u.spend, e.at.ns, false, r.reason))
  {
    hide Cleanup, ApplyHolds, CheckScopes, FirstBlocked, AllRoomy, EstimatedTokens, ResolveScopes;
    ScopesDecision(Cleanup(s, e.at.ns, e.visit), ResolveScopes(e.op.scopes, e.at), NormalizeEstimate(e.op.estimate), e.at.ns, false);
  }

  /** TopUp of a live reservation that asks for something: the same over the
      token and spend limits of the scopes it was reserved on. */
  lemma TopUpDecision(s: Ledger, e: Event)
    requires e.op.TopUp? && e.op.id != 0 && e.op.id in Cleanup(s, e.at.ns, e.visit).reservations
    ensures var s1, u := Cleanup(s, e.at.ns, e.visit), NormalizeEstimate(e.op.delta);
      var scopes, r := s1.reservations[e.op.id].scopes, Step(s, e).1;
      if EstimatedTokens(u) == 0 && u.spend == 0 then r == Ok
      else
        && (r == Ok <==> AllRoomy(s1, scopes, EstimatedTokens(u), u.spend, e.at.ns, true))
        && (r != Ok ==> r.RateLimited? && FirstBlocked(s1, scopes, EstimatedTokens(u), u.spend, e.at.ns, true, r.reason))
  {
    hide Cleanup, ApplyHolds, CheckScopes, FirstBlocked, AllRoomy, EstimatedTokens, Grown;
    var s1 := Cleanup(s, e.at.ns, e.visit);
    ScopesDecision(s1, s1.reservations[e.op.id].scopes, NormalizeEstimate(e.op.delta), e.at.ns, true);
  }
}
