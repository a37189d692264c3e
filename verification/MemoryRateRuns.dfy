/** Request and token rates of the in-process ledger over whole runs: the minute
    counter of requests is exactly the number of reservations made in that minute,
    and no granted call takes a minute counter past its limit. */
module MemoryRateRuns {
  import opened QuotaTypes
  import opened MemoryLedger
  import opened MemoryHolds
  import opened MemoryRuns
  import opened MemoryRates
  import M = MemorySettlements

  // --- One granted call ---------------------------------------------------------------------------

  lemma NextMinuteIsLater(now: int)
    ensures now < NextMinute(now) <= now + 60_000_000_000
  {
  }

  lemma BookedWithin(s: Ledger, scopes: seq<Scope>, e: EstimatedUsage, now: int, topUp: bool, i: nat)
    requires GoodScopes(scopes) && NormalEstimate(e) && i < |scopes|
    requires AllRoomy(s, scopes, EstimatedTokens(e), e.spend, now, topUp)
    ensures var s', ref, keys, limit := ApplyHolds(s, scopes, e, now, topUp), scopes[i].ref, scopes[i].keys, scopes[i].limit;
      && (limit.tpm > 0 ==>
            && CounterValue(s', ref, keys.tpm, now) <= limit.tpm
            && (EstimatedTokens(e) > 0 ==>
                  CounterValue(s', ref, keys.tpm, now) == Positive(CounterValue(s, ref, keys.tpm, now)) + EstimatedTokens(e)))
      && (limit.rpm > 0 && !topUp ==>
            CounterValue(s', ref, keys.rpm, now) == Positive(CounterValue(s, ref, keys.rpm, now)) + 1 <= limit.rpm)
  {
    hide ApplyHolds, Entry, CounterValue, EstimatedTokens, NextMinute;
    var s', scope := ApplyHolds(s, scopes, e, now, topUp), scopes[i];
    var ref, keys := scope.ref, scope.keys;
    assert ScopeMatchesLimit(scope);
    NextMinuteIsLater(now);
    assert Roomy(s, scope, EstimatedTokens(e), e.spend, now, topUp, 6);
    TokensNonNegative(e);
    if scope.limit.tpm > 0 {
      HasRoomFor(s, scope, EstimatedTokens(e), e.spend, now, topUp, Limited.Tpm);
      HoldsEntry(s, scopes, e, now, topUp, i, keys.tpm);
      ReadsEntry(s, ref, keys.tpm, now);
      ReadsEntry(s', ref, keys.tpm, now);
    }
    if scope.limit.rpm > 0 && !topUp {
      HasRoomFor(s, scope, EstimatedTokens(e), e.spend, now, topUp, Limited.Rpm);
      HoldsEntry(s, scopes, e, now, topUp, i, keys.rpm);
      ReadsEntry(s, ref, keys.rpm, now);
      ReadsEntry(s', ref, keys.rpm, now);
    }
  }

  lemma TokensNonNegative(e: EstimatedUsage)
    ensures 0 <= EstimatedTokens(e)
  {
  }

  lemma HasRoomFor(s: Ledger, scope: Scope, tokens: int, spend: int, now: int, topUp: bool, reason: Limited)
    requires Roomy(s, scope, tokens, spend, now, topUp, 6) && Applies(reason, topUp)
    ensures !NoRoom(s, scope, tokens, spend, now, reason)
  {
    assert Rank(reason) < 6;
  }

  /** A reserve that makes a reservation leaves the minute counters of every
      scope within their limits, one request and its tokens further. */
  lemma ReserveWithinRates(s: Ledger, e: Event, i: nat)
    requires GoodEvent(e) && e.op.Reserve? && M.Admits(s, e, e.op.id) && i < |e.op.scopes|
    ensures var s1, s', now := Cleanup(s, e.at.ns, e.visit), Step(s, e).0, e.at.ns;
      var ref, limit, minute, tokens := e.op.scopes[i].ref, e.op.scopes[i].limits, e.at.ns / 60_000_000_000, EstimatedTokens(e.op.estimate);
      && (limit.tpm > 0 ==>
            && CounterValue(s', ref, Key.Tpm(minute), now) <= limit.tpm
            && (tokens > 0 ==>
                  CounterValue(s', ref, Key.Tpm(minute), now) == Positive(CounterValue(s1, ref, Key.Tpm(minute), now)) + tokens))
      && (limit.rpm > 0 ==>
            CounterValue(s', ref, Key.Rpm(minute), now) == Positive(CounterValue(s1, ref, Key.Rpm(minute), now)) + 1 <= limit.rpm)
  {
    hide Cleanup, ApplyHolds, CheckScopes, AllRoomy, FirstBlocked, EstimatedTokens, GoodScopes;
    var s1, scopes, u := Cleanup(s, e.at.ns, e.visit), ResolveScopes(e.op.scopes, e.at), NormalizeEstimate(e.op.estimate);
    ResolvedGood(e.op.scopes, e.at);
    NotRemembered(s, e);
    ReserveDecision(s, e);
    BookedWithin(s1, scopes, u, e.at.ns, false, i);
    SameReadings(ApplyHolds(s1, scopes, u, e.at.ns, false), Step(s, e).0, scopes[i].ref, scopes[i].keys.tpm, e.at.ns);
    SameReadings(ApplyHolds(s1, scopes, u, e.at.ns, false), Step(s, e).0, scopes[i].ref, scopes[i].keys.rpm, e.at.ns);
  }

  lemma NotRemembered(s: Ledger, e: Event)
    requires e.op.Reserve? && M.Admits(s, e, e.op.id)
    ensures var s1 := Cleanup(s, e.at.ns, e.visit);
      && e.op.id !in s1.settlements
      && Step(s, e).0.counters == ApplyHolds(s1, ResolveScopes(e.op.scopes, e.at), NormalizeEstimate(e.op.estimate), e.at.ns, false).counters
  {
    hide Cleanup, ApplyHolds, CheckScopes, ResolveScopes;
  }

  lemma SameReadings(s: Ledger, s': Ledger, ref: ScopeRef, k: Key, now: int)
    requires s'.counters == s.counters
    ensures CounterValue(s', ref, k, now) == CounterValue(s, ref, k, now) && Entry(s', ref, k) == Entry(s, ref, k)
  {
  }

  // The ledger that cleanup leaves after any run of well-formed calls.
  lemma RunIsGood(es: seq<Event>, now: int, visit: seq<Id>)
    requires forall i :: 0 <= i < |es| ==> GoodEvent(es[i])
    ensures Good(Run(EMPTY_LEDGER, es)) && Good(Cleanup(Run(EMPTY_LEDGER, es), now, visit))
  {
    hide Run, Cleanup, Tracks, AllCapped, Good;
    var ref := ScopeRef("", "");
    EmptyKeyInv(ref, Active);
    RunInv(EMPTY_LEDGER, es, ref, Active, Loose);
    CleanupInv(Run(EMPTY_LEDGER, es), now, visit, ref, Active, Loose);
  }

  /** After every run, a granted top-up that asks for tokens or spend leaves the
      token counter of every scope of its reservation within the limit. */
  lemma TopUpWithinRates(es: seq<Event>, e: Event, i: nat)
    requires forall j :: 0 <= j < |es| ==> GoodEvent(es[j])
    requires e.op.TopUp? && e.op.id != 0
    requires EstimatedTokens(NormalizeEstimate(e.op.delta)) > 0 || NormalizeEstimate(e.op.delta).spend > 0
    requires var s := Run(EMPTY_LEDGER, es);
      Step(s, e).1 == Ok && e.op.id in Cleanup(s, e.at.ns, e.visit).reservations
      && i < |Cleanup(s, e.at.ns, e.visit).reservations[e.op.id].scopes|
    ensures var s := Run(EMPTY_LEDGER, es);
      var s1, s', now := Cleanup(s, e.at.ns, e.visit), Step(s, e).0, e.at.ns;
      var scope, tokens := s1.reservations[e.op.id].scopes[i], EstimatedTokens(NormalizeEstimate(e.op.delta));
      scope.limit.tpm > 0 ==>
        && CounterValue(s', scope.ref, scope.keys.tpm, now) <= scope.limit.tpm
        && (tokens > 0 ==>
              CounterValue(s', scope.ref, scope.keys.tpm, now) == Positive(CounterValue(s1, scope.ref, scope.keys.tpm, now)) + tokens)
  {
    hide Run, Cleanup, ApplyHolds, CheckScopes, AllRoomy, FirstBlocked, EstimatedTokens, GoodScopes, GoodValues, Grown;
    var s := Run(EMPTY_LEDGER, es);
    var s1, u := Cleanup(s, e.at.ns, e.visit), NormalizeEstimate(e.op.delta);
    RunIsGood(es, e.at.ns, e.visit);
    var res := s1.reservations[e.op.id];
    assert GoodReservation(res);
    TopUpDecision(s, e);
    BookedWithin(s1, res.scopes, u, e.at.ns, true, i);
    ToppedCounters(s, e);
    SameReadings(ApplyHolds(s1, res.scopes, u, e.at.ns, true), Step(s, e).0, res.scopes[i].ref, res.scopes[i].keys.tpm, e.at.ns);
  }

  lemma ToppedCounters(s: Ledger, e: Event)
    requires e.op.TopUp? && e.op.id != 0 && Step(s, e).1 == Ok && e.op.id in Cleanup(s, e.at.ns, e.visit).reservations
    requires EstimatedTokens(NormalizeEstimate(e.op.delta)) != 0 || NormalizeEstimate(e.op.delta).spend != 0
    ensures var s1 := Cleanup(s, e.at.ns, e.visit);
      Step(s, e).0.counters == ApplyHolds(s1, s1.reservations[e.op.id].scopes, NormalizeEstimate(e.op.delta), e.at.ns, true).counters
  {
    hide Cleanup, ApplyHolds, CheckScopes, Grown, EstimatedTokens;
  }

  // --- The request counter of a minute --------------------------------------------------------------

  lemma ReleaseKeepsRequests(s: Ledger, res: Reservation, actual: int, now: int, ref: ScopeRef, k: Key)
    requires GoodReservation(res) && k.Rpm?
    ensures Entry(ReleaseHold(s, res, actual, now), ref, k) == Entry(s, ref, k)
    ensures ReleaseHold(s, res, actual, now).reservations == s.reservations
  {
    hide ReleaseScopes, Entry, EstimatedTokens;
    forall i | 0 <= i < |res.scopes|
      ensures res.scopes[i].keys.tpm != k
    {
      assert ScopeMatchesLimit(res.scopes[i]);
    }
    ReleasesElsewhere(s, res.scopes, EstimatedTokens(res.held), res.held.spend, actual, now, ref, k);
    M.ReleaseScopesQueue(s, res.scopes, EstimatedTokens(res.held), res.held.spend, actual, now);
  }

  lemma EndKeepsRequests(s: Ledger, id: Id, actual: int, expired: bool, now: int, ref: ScopeRef, k: Key)
    requires GoodReservations(s.reservations) && id in s.reservations && k.Rpm?
    ensures var s' := EndReservation(s, id, actual, expired, now);
      Entry(s', ref, k) == Entry(s, ref, k) && GoodReservations(s'.reservations)
  {
    hide ReleaseHold, RecordSettlement, GoodReservation;
    ReleaseKeepsRequests(s, s.reservations[id], actual, now, ref, k);
    var released := ReleaseHold(s, s.reservations[id], actual, now);
    RecordSettlementKeeps(released.(reservations := released.reservations - {id}), id, expired, now);
  }

  lemma {:induction false} ExpiryKeepsRequests(s: Ledger, visit: seq<Id>, now: int, ref: ScopeRef, k: Key)
    requires GoodReservations(s.reservations) && k.Rpm?
    ensures Entry(ExpireAll(s, visit, now), ref, k) == Entry(s, ref, k)
    ensures GoodReservations(ExpireAll(s, visit, now).reservations)
    decreases |visit|
  {
    hide EndReservation, Entry, GoodReservations;
    if visit != [] {
      if visit[0] in s.reservations && Lapsed(s.reservations[visit[0]], now) {
        EndKeepsRequests(s, visit[0], 0, true, now, ref, k);
      }
      ExpiryKeepsRequests(ExpireOne(s, visit[0], now), visit[1..], now, ref, k);
    }
  }

  /** A counter as cleanup leaves it. */
  function Kept(c: Option<CounterEntry>, now: int): Option<CounterEntry> {
    if c.Some? && (c.value.expires == 0 || now < c.value.expires) then c else None
  }

  lemma CleanupKeepsRequests(s: Ledger, now: int, visit: seq<Id>, ref: ScopeRef, k: Key)
    requires GoodReservations(s.reservations) && k.Rpm?
    ensures Entry(Cleanup(s, now, visit), ref, k) == Kept(Entry(s, ref, k), now)
    ensures GoodReservations(Cleanup(s, now, visit).reservations)
  {
    hide ExpireAll, CleanupSettlements, GoodReservations;
    ExpiryKeepsRequests(s, visit, now, ref, k);
    CleanupSettlementsKeeps(ExpireAll(s, visit, now), now);
  }

  /** A reserve that makes a reservation on the scope within the minute. */
  predicate MakesRequest(s: Ledger, e: Event, ref: ScopeRef, minute: int) {
    && e.op.Reserve? && M.Admits(s, e, e.op.id) && e.at.ns / 60_000_000_000 == minute
    && exists i :: 0 <= i < |e.op.scopes| && e.op.scopes[i].ref == ref
  }

  function Requests(s: Ledger, es: seq<Event>, ref: ScopeRef, minute: int): nat
    decreases |es|
  {
    if es == [] then 0 else (if MakesRequest(s, es[0], ref, minute) then 1 else 0) + Requests(Step(s, es[0]).0, es[1..], ref, minute)
  }

  predicate FixedRpm(e: Event, ref: ScopeRef, limit: int) {
    e.op.Reserve? ==> forall i :: 0 <= i < |e.op.scopes| && e.op.scopes[i].ref == ref ==> e.op.scopes[i].limits.rpm == limit
  }

  /** The counter of the minute stands at n, until the minute ends. */
  predicate Counted(s: Ledger, ref: ScopeRef, minute: int, n: nat) {
    Entry(s, ref, Key.Rpm(minute)) == if n == 0 then None else Some(CounterEntry(n, (minute + 1) * 60_000_000_000))
  }

  lemma CleanupCounts(s: Ledger, now: int, visit: seq<Id>, ref: ScopeRef, minute: int, n: nat)
    requires GoodReservations(s.reservations) && Counted(s, ref, minute, n) && now < (minute + 1) * 60_000_000_000
    ensures Counted(Cleanup(s, now, visit), ref, minute, n) && GoodReservations(Cleanup(s, now, visit).reservations)
  {
    hide Cleanup, Entry, GoodReservations;
    CleanupKeepsRequests(s, now, visit, ref, Key.Rpm(minute));
  }

  // Any hold but that of a new request on the scope in the minute.
  lemma OtherHoldsKeepRequests(s: Ledger, scopes: seq<Scope>, e: EstimatedUsage, now: int, topUp: bool, ref: ScopeRef, k: Key)
    requires GoodScopes(scopes) && k.Rpm?
    requires topUp || forall i :: 0 <= i < |scopes| && scopes[i].ref == ref ==> scopes[i].keys.rpm != k
    ensures Entry(ApplyHolds(s, scopes, e, now, topUp), ref, k) == Entry(s, ref, k)
  {
    hide ApplyHolds, Entry, EstimatedTokens;
    if Touches(scopes, ref) {
      var i :| 0 <= i < |scopes| && scopes[i].ref == ref;
      assert ScopeMatchesLimit(scopes[i]);
      HoldsEntry(s, scopes, e, now, topUp, i, k);
    } else {
      HoldsElsewhere(s, scopes, e, now, topUp, ref, k);
    }
  }

  lemma RequestBooked(s: Ledger, e: Event, i: nat)
    requires GoodEvent(e) && e.op.Reserve? && M.Admits(s, e, e.op.id) && i < |e.op.scopes| && e.op.scopes[i].limits.rpm > 0
    ensures var ref, minute, s1 := e.op.scopes[i].ref, e.at.ns / 60_000_000_000, Cleanup(s, e.at.ns, e.visit);
      Entry(Step(s, e).0, ref, Key.Rpm(minute))
        == Some(CounterEntry(SaturatingAdd(Reads(Entry(s1, ref, Key.Rpm(minute)), e.at.ns), 1), (minute + 1) * 60_000_000_000))
  {
    hide Cleanup, Entry, Step, GoodScopes, ApplyHolds, SaturatingAdd, Reads;
    var s1, k := Cleanup(s, e.at.ns, e.visit), Key.Rpm(e.at.ns / 60_000_000_000);
    var scopes, u := ResolveScopes(e.op.scopes, e.at), NormalizeEstimate(e.op.estimate);
    NotRemembered(s, e);
    ResolvedGood(e.op.scopes, e.at);
    HoldsEntry(s1, scopes, u, e.at.ns, false, i, k);
    SameReadings(ApplyHolds(s1, scopes, u, e.at.ns, false), Step(s, e).0, scopes[i].ref, k, e.at.ns);
  }

  lemma RequestCounts(s: Ledger, e: Event, ref: ScopeRef, minute: int, limit: int64, n: nat)
    requires GoodReservations(s.reservations) && GoodEvent(e) && MakesRequest(s, e, ref, minute) && FixedRpm(e, ref, limit)
    requires limit > 0 && Counted(s, ref, minute, n)
    ensures Counted(Step(s, e).0, ref, minute, n + 1) && n + 1 <= limit
  {
    hide Cleanup, Entry, GoodReservations, Step, GoodEvent, CounterValue, M.Admits;
    var i :| 0 <= i < |e.op.scopes| && e.op.scopes[i].ref == ref;
    var now, s1 := e.at.ns, Cleanup(s, e.at.ns, e.visit);
    CleanupCounts(s, now, e.visit, ref, minute, n);
    ReserveWithinRates(s, e, i);
    ReadsEntry(s1, ref, Key.Rpm(minute), now);
    RequestBooked(s, e, i);
  }

  // A reserve that makes no reservation on the scope in the minute.
  lemma OtherReserveCounts(s: Ledger, e: Event, ref: ScopeRef, minute: int, n: nat)
    requires GoodReservations(s.reservations) && GoodEvent(e) && e.op.Reserve? && !MakesRequest(s, e, ref, minute)
    requires Counted(s, ref, minute, n) && e.at.ns < (minute + 1) * 60_000_000_000
    ensures Counted(Step(s, e).0, ref, minute, n)
  {
    hide Cleanup, Entry, GoodReservations, Step, GoodScopes, ApplyHolds;
    var now, s1 := e.at.ns, Cleanup(s, e.at.ns, e.visit);
    var scopes, u := ResolveScopes(e.op.scopes, e.at), NormalizeEstimate(e.op.estimate);
    CleanupCounts(s, now, e.visit, ref, minute, n);
    if M.Admits(s, e, e.op.id) {
      NotRemembered(s, e);
      ResolvedGood(e.op.scopes, e.at);
      OtherHoldsKeepRequests(s1, scopes, u, now, false, ref, Key.Rpm(minute));
      SameReadings(ApplyHolds(s1, scopes, u, now, false), Step(s, e).0, ref, Key.Rpm(minute), now);
    } else {
      NotAdmitted(s, e);
    }
  }

  lemma NotAdmitted(s: Ledger, e: Event)
    requires e.op.Reserve? && !M.Admits(s, e, e.op.id)
    ensures Step(s, e).0 == s || Step(s, e).0 == Cleanup(s, e.at.ns, e.visit)
  {
    hide Cleanup, ApplyHolds, CheckScopes, ResolveScopes;
  }

  lemma TopUpCounts(s: Ledger, id: Id, delta: EstimatedUsage, ttl: int, at: Instant, visit: seq<Id>, ref: ScopeRef, minute: int, n: nat)
    requires GoodReservations(s.reservations) && Counted(s, ref, minute, n) && at.ns < (minute + 1) * 60_000_000_000
    ensures Counted(TopUpStep(s, id, delta, ttl, at, visit).0, ref, minute, n)
  {
    hide Cleanup, ApplyHolds, CheckScopes, Grown, EstimatedTokens, GoodScopes;
    var s1 := Cleanup(s, at.ns, visit);
    CleanupCounts(s, at.ns, visit, ref, minute, n);
    if id in s1.reservations {
      assert GoodReservation(s1.reservations[id]);
      OtherHoldsKeepRequests(s1, s1.reservations[id].scopes, NormalizeEstimate(delta), at.ns, true, ref, Key.Rpm(minute));
    }
  }

  lemma CommitCounts(s: Ledger, id: Id, usage: ActualUsage, at: Instant, visit: seq<Id>, ref: ScopeRef, minute: int, n: nat)
    requires GoodReservations(s.reservations) && Counted(s, ref, minute, n) && at.ns < (minute + 1) * 60_000_000_000
    ensures Counted(CommitStep(s, id, usage, at, visit).0, ref, minute, n)
  {
    hide Cleanup, ReleaseHold, UseScopes, RecordSettlement, ActualTokens, GoodReservation;
    var now, s1 := at.ns, Cleanup(s, at.ns, visit);
    CleanupCounts(s, now, visit, ref, minute, n);
    if id in s1.reservations {
      var res, actual := s1.reservations[id], NormalizeActual(usage);
      var released := ReleaseHold(s1, res, ActualTokens(actual), now);
      ReleaseKeepsRequests(s1, res, ActualTokens(actual), now, ref, Key.Rpm(minute));
      UseHasNoEntry(released, res.scopes, actual, now);
      var s2 := UseScopes(released, res.scopes, actual, now);
      RecordSettlementKeeps(s2.(reservations := s2.reservations - {id}), id, false, now);
    }
  }

  lemma RefundCounts(s: Ledger, id: Id, at: Instant, visit: seq<Id>, ref: ScopeRef, minute: int, n: nat)
    requires GoodReservations(s.reservations) && Counted(s, ref, minute, n) && at.ns < (minute + 1) * 60_000_000_000
    ensures Counted(RefundStep(s, id, at, visit).0, ref, minute, n)
  {
    hide Cleanup, EndReservation, GoodReservations;
    var s1 := Cleanup(s, at.ns, visit);
    CleanupCounts(s, at.ns, visit, ref, minute, n);
    if id in s1.reservations {
      EndKeepsRequests(s1, id, 0, false, at.ns, ref, Key.Rpm(minute));
    }
  }

  lemma StepCounts(s: Ledger, e: Event, ref: ScopeRef, minute: int, limit: int64, n: nat)
    requires GoodReservations(s.reservations) && GoodEvent(e) && FixedRpm(e, ref, limit) && limit > 0
    requires Counted(s, ref, minute, n) && n <= limit && e.at.ns < (minute + 1) * 60_000_000_000
    ensures var m := n + if MakesRequest(s, e, ref, minute) then 1 else 0;
      Counted(Step(s, e).0, ref, minute, m) && m <= limit
  {
    hide Cleanup, ReserveStep, TopUpStep, CommitStep, RefundStep, Counted, GoodReservations, MakesRequest, FixedRpm, GoodEvent;
    if MakesRequest(s, e, ref, minute) {
      RequestCounts(s, e, ref, minute, limit, n);
    } else {
      match e.op
      case Reserve(id, scopes, estimate, ttl) => OtherReserveCounts(s, e, ref, minute, n);
      case TopUp(id, delta, ttl) => TopUpCounts(s, id, delta, ttl, e.at, e.visit, ref, minute, n);
      case Commit(id, actual) => CommitCounts(s, id, actual, e.at, e.visit, ref, minute, n);
      case Refund(id) => RefundCounts(s, id, e.at, e.visit, ref, minute, n);
      case Usage => CleanupCounts(s, e.at.ns, e.visit, ref, minute, n);
    }
  }

  lemma NoRequest(s: Ledger, e: Event, ref: ScopeRef, minute: int)
    requires e.at.ns >= (minute + 1) * 60_000_000_000 || !e.op.Reserve?
    ensures !MakesRequest(s, e, ref, minute)
  {
  }

  // --- Runs ---------------------------------------------------------------------------------------------

  predicate Steady(es: seq<Event>, ref: ScopeRef, limit: int) {
    forall i :: 0 <= i < |es| ==> GoodEvent(es[i]) && FixedRpm(es[i], ref, limit)
  }

  lemma {:induction false} RunCounts(s: Ledger, es: seq<Event>, from: int, ref: ScopeRef, minute: int, limit: int64, n: nat)
    requires KeyInv(s, ref, Active, Loose) && M.InOrder(es, from) && Steady(es, ref, limit) && limit > 0 && n <= limit
    requires from < (minute + 1) * 60_000_000_000 ==> Counted(s, ref, minute, n)
    ensures n + Requests(s, es, ref, minute) <= limit
    ensures M.Clock(es, from) < (minute + 1) * 60_000_000_000 ==> Counted(Run(s, es), ref, minute, n + Requests(s, es, ref, minute))
    decreases |es|
  {
    hide KeyInv, Step, Counted, MakesRequest, FixedRpm, GoodEvent;
    if es != [] {
      var e, rest := es[0], es[1..];
      KeyInvGood(s, ref, Active, Loose);
      StepInv(s, e, ref, Active, Loose);
      if e.at.ns < (minute + 1) * 60_000_000_000 {
        StepCounts(s, e, ref, minute, limit, n);
      } else {
        NoRequest(s, e, ref, minute);
      }
      assert rest != [] ==> rest[|rest| - 1] == es[|es| - 1];
      RunCounts(Step(s, e).0, rest, e.at.ns, ref, minute, limit, n + if MakesRequest(s, e, ref, minute) then 1 else 0);
    }
  }

  lemma NothingCounted(ref: ScopeRef, minute: int)
    ensures Counted(EMPTY_LEDGER, ref, minute, 0)
  {
  }

  /** Over every run on a forward clock, with one request limit on a scope: no
      more reservations are made on it in a minute than the limit allows. */
  lemma RequestRateHolds(es: seq<Event>, from: int, ref: ScopeRef, minute: int, limit: int64)
    requires M.InOrder(es, from) && Steady(es, ref, limit) && limit > 0
    ensures Requests(EMPTY_LEDGER, es, ref, minute) <= limit
  {
    hide KeyInv, Run, Requests, Steady, Counted;
    EmptyKeyInv(ref, Active);
    NothingCounted(ref, minute);
    RunCounts(EMPTY_LEDGER, es, from, ref, minute, limit, 0);
  }

  /** The rate is used in full: in the ledger after any such run, a reserve at
      time `at` lacks room for its request exactly if the minute has already seen as
      many reservations on the scope as the limit allows. */
  lemma RequestRateExact(es: seq<Event>, from: int, ref: ScopeRef, limit: int64, at: Instant, visit: seq<Id>,
                         scope: Scope, tokens: int, spend: int)
    requires M.InOrder(es, from) && Steady(es, ref, limit) && limit > 0 && M.Clock(es, from) <= at.ns
    requires scope.ref == ref && scope.limit.rpm == limit && scope.keys == KeysForScope(scope.limit, at)
    ensures NoRoom(Cleanup(Run(EMPTY_LEDGER, es), at.ns, visit), scope, tokens, spend, at.ns, Limited.Rpm)
      <==> Requests(EMPTY_LEDGER, es, ref, at.ns / 60_000_000_000) == limit
  {
    hide KeyInv, Run, Requests, Steady, Counted, Cleanup, Entry, CounterValue;
    var minute, s := at.ns / 60_000_000_000, Run(EMPTY_LEDGER, es);
    EmptyKeyInv(ref, Active);
    NothingCounted(ref, minute);
    RunCounts(EMPTY_LEDGER, es, from, ref, minute, limit, 0);
    SteadyIsGood(es, ref, limit);
    RunIsGood(es, at.ns, visit);
    var n := Requests(EMPTY_LEDGER, es, ref, minute);
    CleanupCounts(s, at.ns, visit, ref, minute, n);
    CountedReads(Cleanup(s, at.ns, visit), ref, minute, n, at.ns);
  }

  lemma SteadyIsGood(es: seq<Event>, ref: ScopeRef, limit: int)
    requires Steady(es, ref, limit)
    ensures forall i :: 0 <= i < |es| ==> GoodEvent(es[i])
  {
  }

  lemma CountedReads(s: Ledger, ref: ScopeRef, minute: int, n: nat, now: int)
    requires Counted(s, ref, minute, n) && now < (minute + 1) * 60_000_000_000
    ensures CounterValue(s, ref, Key.Rpm(minute), now) == n
  {
  }
}
