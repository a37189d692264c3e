/** Replay protection of the in-process ledger: the settlement map and its FIFO
    list stay in step, bounded and free of expired entries, and a reservation is
    settled at most once. */
module MemorySettlements {
  import opened QuotaTypes
  import opened MemoryLedger
  import opened MemoryRuns

  predicate Listed(order: seq<Element>, id: Id) { exists i :: 0 <= i < |order| && order[i].id == id }

  // Each list element is the element its settlement remembers, and vice versa.
  predicate Linked(s: Ledger) {
    && (forall i :: 0 <= i < |s.order| ==>
          && s.order[i].id in s.settlements
          && s.settlements[s.order[i].id].element == s.order[i].token)
    && (forall id :: id in s.settlements ==> Listed(s.order, id))
  }

  predicate TokensGrow(s: Ledger) {
    && (forall i :: 0 <= i < |s.order| ==> s.order[i].token < s.nextToken)
    && (forall i, j :: 0 <= i < j < |s.order| ==> s.order[i].token < s.order[j].token)
  }

  predicate ByExpiry(s: Ledger)
    requires Linked(s)
  {
    forall i, j :: 0 <= i < j < |s.order| ==>
      s.settlements[s.order[i].id].expires <= s.settlements[s.order[j].id].expires
  }

  predicate WithinWindow(s: Ledger, now: int) {
    forall id :: id in s.settlements ==> s.settlements[id].expires <= now + REPLAY_WINDOW
  }

  predicate Disjoint(s: Ledger) { forall id :: id in s.settlements ==> id !in s.reservations }

  predicate Queue(s: Ledger, now: int) {
    Linked(s) && TokensGrow(s) && ByExpiry(s) && WithinWindow(s, now) && Disjoint(s)
  }

  /** Map and list hold the same IDs, in expiry order, at most 65536 of them. */
  predicate SettleInv(s: Ledger, now: int) { Queue(s, now) && |s.settlements| <= MAX_SETTLEMENTS }

  predicate NoneExpired(s: Ledger, now: int) {
    forall id :: id in s.settlements ==> now < s.settlements[id].expires
  }

  lemma EmptySettleInv(now: int)
    ensures SettleInv(EMPTY_LEDGER, now)
  {
  }

  lemma EmptyOrder(s: Ledger)
    requires Linked(s) && s.order == []
    ensures s.settlements == map[]
  {
    forall id ensures id !in s.settlements {
      assert !Listed(s.order, id);
    }
  }

  lemma RemoveOldestQueue(s: Ledger, now: int)
    requires Queue(s, now) && s.order != []
    ensures Queue(RemoveOldest(s), now)
    ensures Shrinks(s, RemoveOldest(s))
  {
    var s' := RemoveOldest(s);
    var front := s.order[0];
    assert s'.settlements == s.settlements - {front.id};
    forall i | 0 <= i < |s'.order|
      ensures s'.order[i] == s.order[i + 1] && s'.order[i].id in s'.settlements
    {
      assert s.order[i + 1].token != front.token;
    }
    forall id | id in s'.settlements
      ensures Listed(s'.order, id)
    {
      var i :| 0 <= i < |s.order| && s.order[i].id == id;
      assert s'.order[i - 1].id == id;
    }
  }

  predicate Shrinks(s: Ledger, s': Ledger) {
    forall id :: id in s'.settlements ==> id in s.settlements && s'.settlements[id] == s.settlements[id]
  }

  lemma {:induction false} CleanupSettlementsQueue(s: Ledger, at: int, now: int)
    requires Queue(s, at)
    ensures var s' := CleanupSettlements(s, now);
      Queue(s', at) && NoneExpired(s', now) && Shrinks(s, s') && |s'.settlements| <= |s.settlements|
    decreases |s.order|
  {
    if s.order == [] {
      EmptyOrder(s);
    } else if now < s.settlements[s.order[0].id].expires {
      forall id | id in s.settlements
        ensures now < s.settlements[id].expires
      {
        assert Listed(s.order, id);
        var i :| 0 <= i < |s.order| && s.order[i].id == id;
      }
    } else {
      RemoveOldestQueue(s, at);
      CleanupSettlementsQueue(RemoveOldest(s), at, now);
    }
  }

  lemma {:induction false} TrimSettlementsQueue(s: Ledger, now: int)
    requires Queue(s, now)
    ensures var s' := TrimSettlements(s); SettleInv(s', now) && Shrinks(s, s')
    decreases |s.order|
  {
    if s.order == [] {
      EmptyOrder(s);
    } else if |s.settlements| > MAX_SETTLEMENTS {
      RemoveOldestQueue(s, now);
      TrimSettlementsQueue(RemoveOldest(s), now);
    }
  }

  function Pushed(s: Ledger, id: Id, expired: bool, now: int): Ledger {
    s.(order := s.order + [Element(s.nextToken, id)], nextToken := s.nextToken + 1,
       settlements := s.settlements[id := Settlement(now + REPLAY_WINDOW, expired, s.nextToken)])
  }

  lemma PushLinked(s: Ledger, id: Id, expired: bool, now: int)
    requires Linked(s) && id !in s.settlements
    ensures Linked(Pushed(s, id, expired, now))
  {
    var s' := Pushed(s, id, expired, now);
    forall x | x in s'.settlements
      ensures Listed(s'.order, x)
    {
      if x == id {
        assert s'.order[|s.order|].id == id;
      } else {
        assert Listed(s.order, x);
        var i :| 0 <= i < |s.order| && s.order[i].id == x;
        assert s'.order[i].id == x;
      }
    }
  }

  lemma PushByExpiry(s: Ledger, id: Id, expired: bool, before: int, now: int)
    requires Linked(s) && ByExpiry(s) && WithinWindow(s, before) && before <= now && id !in s.settlements
    requires Linked(Pushed(s, id, expired, now))
    ensures ByExpiry(Pushed(s, id, expired, now))
  {
    var s' := Pushed(s, id, expired, now);
    forall i, j | 0 <= i < j < |s'.order|
      ensures s'.settlements[s'.order[i].id].expires <= s'.settlements[s'.order[j].id].expires
    {
      assert s'.order[i] == s.order[i];
      if j < |s.order| {
        assert s'.order[j] == s.order[j];
      }
    }
  }

  // Settling an ID that is neither live nor already settled appends it.
  lemma PushQueue(s: Ledger, id: Id, expired: bool, before: int, now: int)
    requires Queue(s, before) && before <= now && id !in s.settlements && id !in s.reservations
    ensures Queue(Pushed(s, id, expired, now), now)
  {
    hide Linked;
    hide ByExpiry;
    PushLinked(s, id, expired, now);
    PushByExpiry(s, id, expired, before, now);
  }

  lemma RecordQueue(s: Ledger, id: Id, expired: bool, before: int, now: int)
    requires Queue(s, before) && before <= now && id !in s.settlements && id !in s.reservations && id != 0
    ensures SettleInv(RecordSettlement(s, id, expired, now), now)
    ensures NoneExpired(RecordSettlement(s, id, expired, now), now)
  {
    hide Queue;
    var pushed := Pushed(s, id, expired, now);
    PushQueue(s, id, expired, before, now);
    CleanupSettlementsQueue(pushed, now, now);
    TrimSettlementsQueue(CleanupSettlements(pushed, now), now);
  }

  // --- Calls -------------------------------------------------------------------

  // Counter updates do not concern the settlement books.
  predicate SameQueue(s: Ledger, s': Ledger) {
    s'.settlements == s.settlements && s'.order == s.order && s'.nextToken == s.nextToken
  }

  predicate OnlyCounters(s: Ledger, s': Ledger) { SameQueue(s, s') && s'.reservations == s.reservations }

  lemma ValueSteps(s: Ledger, ref: ScopeRef, k: Key, delta: int, expires: int, now: int)
    ensures OnlyCounters(s, AddValue(s, ref, k, delta, expires, now))
    ensures OnlyCounters(s, DecrValue(s, ref, k, delta))
  {
  }

  lemma MinuteSteps(s: Ledger, ref: ScopeRef, k: Key, delta: int, held: int, actual: int, now: int)
    ensures OnlyCounters(s, AddCounter(s, ref, k, delta, now))
    ensures OnlyCounters(s, ReconcileCounter(s, ref, k, held, actual, now))
  {
  }

  lemma CounterStep(s: Ledger, ref: ScopeRef, k: Key, delta: int, expires: int, held: int, actual: int, now: int)
    ensures OnlyCounters(s, AddValue(s, ref, k, delta, expires, now))
    ensures OnlyCounters(s, DecrValue(s, ref, k, delta))
    ensures OnlyCounters(s, AddCounter(s, ref, k, delta, now))
    ensures OnlyCounters(s, ReconcileCounter(s, ref, k, held, actual, now))
  {
    hide AddValue, DecrValue, AddCounter, ReconcileCounter, OnlyCounters;
    ValueSteps(s, ref, k, delta, expires, now);
    MinuteSteps(s, ref, k, delta, held, actual, now);
  }

  lemma ReleaseScopeQueue(s: Ledger, scope: Scope, tokens: int, spend: int, actual: int, now: int)
    ensures OnlyCounters(s, ReleaseScope(s, scope, tokens, spend, actual, now))
  {
    hide DecrValue;
    hide ReconcileCounter;
    var ref, keys := scope.ref, scope.keys;
    var s1 := ReconcileCounter(s, ref, keys.tpm, tokens, actual, now);
    var s2 := DecrValue(s1, ref, keys.active, 1);
    var s3 := DecrValue(s2, ref, keys.spendHeld, spend);
    var s4 := DecrValue(s3, ref, keys.dayHeld, tokens);
    CounterStep(s, ref, keys.tpm, 0, 0, tokens, actual, now);
    CounterStep(s1, ref, keys.active, 1, 0, 0, 0, now);
    CounterStep(s2, ref, keys.spendHeld, spend, 0, 0, 0, now);
    CounterStep(s3, ref, keys.dayHeld, tokens, 0, 0, 0, now);
    CounterStep(s4, ref, keys.monthHeld, tokens, 0, 0, 0, now);
  }

  lemma {:induction false} ReleaseScopesQueue(s: Ledger, scopes: seq<Scope>, tokens: int, spend: int, actual: int, now: int)
    ensures OnlyCounters(s, ReleaseScopes(s, scopes, tokens, spend, actual, now))
    decreases |scopes|
  {
    hide ReleaseScope;
    if scopes != [] {
      ReleaseScopeQueue(s, scopes[0], tokens, spend, actual, now);
      ReleaseScopesQueue(ReleaseScope(s, scopes[0], tokens, spend, actual, now), scopes[1..], tokens, spend, actual, now);
    }
  }

  lemma ApplyHoldQueue(s: Ledger, scope: Scope, e: EstimatedUsage, now: int, topUp: bool)
    ensures OnlyCounters(s, ApplyHold(s, scope, e, now, topUp))
  {
    hide AddValue;
    hide AddCounter;
    var ref, keys, tokens := scope.ref, scope.keys, EstimatedTokens(e);
    var s0 := AddValue(s, ref, keys.active, 1, 0, now);
    var s1 := if topUp then s else AddCounter(s0, ref, keys.rpm, 1, now);
    var s2 := AddCounter(s1, ref, keys.tpm, tokens, now);
    var s3 := AddValue(s2, ref, keys.spendHeld, e.spend, 0, now);
    var s4 := AddValue(s3, ref, keys.dayHeld, tokens, 0, now);
    CounterStep(s, ref, keys.active, 1, 0, 0, 0, now);
    CounterStep(s0, ref, keys.rpm, 1, 0, 0, 0, now);
    CounterStep(s1, ref, keys.tpm, tokens, 0, 0, 0, now);
    CounterStep(s2, ref, keys.spendHeld, e.spend, 0, 0, 0, now);
    CounterStep(s3, ref, keys.dayHeld, tokens, 0, 0, 0, now);
    CounterStep(s4, ref, keys.monthHeld, tokens, 0, 0, 0, now);
  }

  lemma {:induction false} ApplyHoldsQueue(s: Ledger, scopes: seq<Scope>, e: EstimatedUsage, now: int, topUp: bool)
    ensures OnlyCounters(s, ApplyHolds(s, scopes, e, now, topUp))
    decreases |scopes|
  {
    hide ApplyHold;
    if scopes != [] {
      ApplyHoldQueue(s, scopes[0], e, now, topUp);
      ApplyHoldsQueue(ApplyHold(s, scopes[0], e, now, topUp), scopes[1..], e, now, topUp);
    }
  }

  lemma {:induction false} UseScopesQueue(s: Ledger, scopes: seq<Scope>, actual: ActualUsage, now: int)
    ensures var s' := UseScopes(s, scopes, actual, now);
      SameQueue(s, s') && s'.reservations == s.reservations
    decreases |scopes|
  {
    if scopes != [] {
      UseScopesQueue(UseScope(s, scopes[0], actual, now), scopes[1..], actual, now);
    }
  }

  // Live IDs are never the empty ID.
  predicate RealIds(s: Ledger) { 0 !in s.reservations }

  predicate Books(s: Ledger, now: int) { SettleInv(s, now) && RealIds(s) }

  lemma RemoveLiveQueue(s: Ledger, s': Ledger, id: Id, now: int)
    requires Books(s, now) && id in s.reservations
    requires SameQueue(s, s') && s'.reservations == s.reservations - {id}
    ensures Queue(s', now) && id !in s'.settlements && id !in s'.reservations && id != 0 && RealIds(s')
  {
  }

  lemma EndReservationBooks(s: Ledger, id: Id, actual: int, expired: bool, before: int, now: int)
    requires Books(s, before) && before <= now && id in s.reservations
    ensures Books(EndReservation(s, id, actual, expired, now), now)
    ensures EndReservation(s, id, actual, expired, now).reservations == s.reservations - {id}
    ensures NoneExpired(EndReservation(s, id, actual, expired, now), now)
  {
    hide ReleaseScopes;
    hide RecordSettlement;
    hide Books;
    hide Queue;
    var res := s.reservations[id];
    var released := ReleaseHold(s, res, actual, now);
    var ended := released.(reservations := released.reservations - {id});
    ReleaseScopesQueue(s, res.scopes, EstimatedTokens(res.held), res.held.spend, actual, now);
    RemoveLiveQueue(s, ended, id, before);
    RecordQueue(ended, id, expired, before, now);
    RecordSettlementKeeps(ended, id, expired, now);
    MakeBooks(RecordSettlement(ended, id, expired, now), now);
  }

  lemma MakeBooks(s: Ledger, now: int)
    requires SettleInv(s, now) && RealIds(s)
    ensures Books(s, now)
  {
  }

  lemma LaterBooks(s: Ledger, before: int, now: int)
    requires Books(s, before) && before <= now
    ensures Books(s, now)
  {
  }

  lemma {:induction false} ExpireAllBooks(s: Ledger, visit: seq<Id>, before: int, now: int)
    requires Books(s, before) && before <= now
    ensures var s' := ExpireAll(s, visit, now);
      && Books(s', now)
      && (forall id :: id in s'.reservations ==>
            id in s.reservations && s'.reservations[id] == s.reservations[id] && (id in visit ==> !Lapsed(s.reservations[id], now)))
    decreases |visit|
  {
    hide Books;
    hide EndReservation;
    if visit == [] {
      LaterBooks(s, before, now);
    } else {
      var id := visit[0];
      LaterBooks(s, before, now);
      if id in s.reservations && Lapsed(s.reservations[id], now) {
        EndReservationBooks(s, id, 0, true, before, now);
      }
      ExpireAllBooks(ExpireOne(s, id, now), visit[1..], now, now);
    }
  }

  predicate Covers(visit: seq<Id>, rs: map<Id, Reservation>) { forall id :: id in rs ==> id in visit }

  /** Cleanup leaves no expired settlement and, when it visits every reservation,
      no lapsed reservation; it never adds a live reservation or changes one. */
  lemma CleanupBooks(s: Ledger, visit: seq<Id>, before: int, now: int)
    requires Books(s, before) && before <= now
    ensures var s' := Cleanup(s, now, visit);
      && Books(s', now) && NoneExpired(s', now)
      && (forall id :: id in s'.reservations ==> id in s.reservations && s'.reservations[id] == s.reservations[id])
      && (Covers(visit, s.reservations) ==> forall id :: id in s'.reservations ==> !Lapsed(s'.reservations[id], now))
  {
    hide ExpireAll;
    hide Queue;
    var s1 := ExpireAll(s, visit, now);
    ExpireAllBooks(s, visit, before, now);
    BooksQueue(s1, now);
    CleanupSettlementsQueue(s1, now, now);
    CleanupSettlementsKeeps(s1, now);
    var s2 := CleanupSettlements(s1, now);
    SameQueueBooks(s2, Cleanup(s, now, visit), now);
  }

  lemma BooksQueue(s: Ledger, now: int)
    requires Books(s, now)
    ensures Queue(s, now)
  {
  }

  lemma SameQueueBooks(s: Ledger, s': Ledger, now: int)
    requires Queue(s, now) && |s.settlements| <= MAX_SETTLEMENTS && RealIds(s)
    requires SameQueue(s, s') && s'.reservations == s.reservations
    ensures Books(s', now)
  {
  }

  lemma AddLiveBooks(s: Ledger, s': Ledger, id: Id, res: Reservation, now: int)
    requires Books(s, now) && id != 0 && (id in s.settlements ==> id in s.reservations)
    requires SameQueue(s, s') && s'.reservations == s.reservations[id := res]
    ensures Books(s', now)
  {
  }

  lemma ReserveBooks(s: Ledger, id: Id, scopes: seq<ScopedLimit>, estimate: EstimatedUsage, ttl: int,
                     at: Instant, visit: seq<Id>)
    requires var s1 := Cleanup(s, at.ns, visit); Books(s1, at.ns) && NoneExpired(s1, at.ns)
    requires id != 0
    ensures var s' := ReserveStep(s, id, scopes, estimate, ttl, at, visit).0; Books(s', at.ns) && NoneExpired(s', at.ns)
  {
    hide Books;
    hide Cleanup;
    hide ApplyHolds;
    hide CheckScopes;
    hide ResolveScopes;
    var s1, s' := Cleanup(s, at.ns, visit), ReserveStep(s, id, scopes, estimate, ttl, at, visit).0;
    ApplyHoldsQueue(s1, ResolveScopes(scopes, at), NormalizeEstimate(estimate), at.ns, false);
    if s' != s1 {
      AddLiveBooks(s1, s', id, s'.reservations[id], at.ns);
    }
  }

  lemma TopUpBooks(s: Ledger, id: Id, delta: EstimatedUsage, ttl: int, at: Instant, visit: seq<Id>)
    requires var s1 := Cleanup(s, at.ns, visit); Books(s1, at.ns) && NoneExpired(s1, at.ns)
    requires id != 0
    ensures var s' := TopUpStep(s, id, delta, ttl, at, visit).0; Books(s', at.ns) && NoneExpired(s', at.ns)
  {
    hide Books;
    hide Cleanup;
    hide ApplyHolds;
    hide CheckScopes;
    hide Grown;
    var s1, s' := Cleanup(s, at.ns, visit), TopUpStep(s, id, delta, ttl, at, visit).0;
    if id in s1.reservations {
      ApplyHoldsQueue(s1, s1.reservations[id].scopes, NormalizeEstimate(delta), at.ns, true);
      if s' != s1 {
        AddLiveBooks(s1, s', id, s'.reservations[id], at.ns);
      }
    }
  }

  /** Every store call keeps the settlement books, and leaves no expired entry. */
  lemma StepBooks(s: Ledger, e: Event, before: int)
    requires Books(s, before) && before <= e.at.ns
    ensures Books(Step(s, e).0, e.at.ns)
    ensures Step(s, e).0 == s || NoneExpired(Step(s, e).0, e.at.ns)
  {
    hide Books;
    hide NoneExpired;
    hide Cleanup;
    hide ReserveStep;
    hide TopUpStep;
    hide UseScopes;
    hide ReleaseScopes;
    hide RecordSettlement;
    hide EndReservation;
    var now := e.at.ns;
    var s1 := Cleanup(s, now, e.visit);
    LaterBooks(s, before, now);
    CleanupBooks(s, e.visit, before, now);
    match e.op
    case Reserve(id, scopes, estimate, ttl) =>
      if id != 0 {
        ReserveBooks(s, id, scopes, estimate, ttl, e.at, e.visit);
      }
    case TopUp(id, delta, ttl) =>
      if id != 0 {
        TopUpBooks(s, id, delta, ttl, e.at, e.visit);
      }
    case Commit(id, actual) =>
      if id != 0 && id in s1.reservations {
        CommitBooks(s1, id, NormalizeActual(actual), now);
      }
    case Refund(id) =>
      if id != 0 && id in s1.reservations {
        EndReservationBooks(s1, id, 0, false, now, now);
      }
    case Usage =>
  }

  lemma CommitBooks(s: Ledger, id: Id, actual: ActualUsage, now: int)
    requires Books(s, now) && id in s.reservations
    ensures var s2 := Committed(s, id, actual, now);
      var s' := RecordSettlement(s2.(reservations := s2.reservations - {id}), id, false, now);
      Books(s', now) && NoneExpired(s', now) && s'.reservations == s.reservations - {id}
  {
    hide ReleaseScopes;
    hide UseScopes;
    hide RecordSettlement;
    hide Books;
    hide Queue;
    var res := s.reservations[id];
    var s1 := ReleaseHold(s, res, ActualTokens(actual), now);
    var s2 := Committed(s, id, actual, now);
    var ended := s2.(reservations := s2.reservations - {id});
    ReleaseScopesQueue(s, res.scopes, EstimatedTokens(res.held), res.held.spend, ActualTokens(actual), now);
    UseScopesQueue(s1, res.scopes, actual, now);
    RemoveLiveQueue(s, ended, id, now);
    RecordQueue(ended, id, false, now, now);
    RecordSettlementKeeps(ended, id, false, now);
    MakeBooks(RecordSettlement(ended, id, false, now), now);
  }

  // --- Runs ------------------------------------------------------------------------

  predicate InOrder(es: seq<Event>, from: int) {
    && (forall i :: 0 <= i < |es| ==> from <= es[i].at.ns)
    && (forall i, j :: 0 <= i < j < |es| ==> es[i].at.ns <= es[j].at.ns)
  }

  function Clock(es: seq<Event>, from: int): int { if es == [] then from else es[|es| - 1].at.ns }

  lemma {:induction false} RunBooks(s: Ledger, es: seq<Event>, from: int)
    requires Books(s, from) && InOrder(es, from)
    ensures Books(Run(s, es), Clock(es, from))
    decreases |es|
  {
    hide Books;
    hide Step;
    if es != [] {
      StepBooks(s, es[0], from);
      RunBooks(Step(s, es[0]).0, es[1..], es[0].at.ns);
    }
  }

  /** Over every run the settlement map and list agree, in expiry order, within capacity. */
  lemma SettlementBooksHold(es: seq<Event>)
    requires InOrder(es, 0)
    ensures SettleInv(Run(EMPTY_LEDGER, es), Clock(es, 0))
    ensures |Run(EMPTY_LEDGER, es).settlements| <= 65_536
  {
    EmptySettleInv(0);
    RunBooks(EMPTY_LEDGER, es, 0);
  }

  // --- At most once --------------------------------------------------------------------

  /** The call makes the ID live: a reserve that is granted while the ID is not
      live. Refused and replayed reserves admit nothing. */
  predicate Admits(s: Ledger, e: Event, id: Id) {
    && e.op.Reserve? && e.op.id == id && id != 0
    && Step(s, e).1 == Ok && id !in Cleanup(s, e.at.ns, e.visit).reservations
  }

  predicate Names(e: Event, id: Id) { !e.op.Usage? && e.op.id == id && id != 0 }

  /** A call for an ID that is not live, unless it admits the ID, does nothing
      but cleanup: a refused reserve, a replay, a second settlement. */
  lemma NotLiveIsCleanup(s: Ledger, e: Event, id: Id)
    requires Names(e, id) && id !in Cleanup(s, e.at.ns, e.visit).reservations && !Admits(s, e, id)
    ensures Step(s, e).0 == Cleanup(s, e.at.ns, e.visit)
  {
    hide Cleanup, ApplyHolds, CheckScopes, UseScopes, ReleaseScopes, RecordSettlement, EndReservation, ResolveScopes;
  }

  /** An ID that is not live stays so unless a reserve admits it, and any other
      call for it changes nothing but what cleanup changes. */
  lemma NotLiveIsFinal(s: Ledger, e: Event, id: Id, before: int)
    requires Books(s, before) && before <= e.at.ns && id !in s.reservations && !Admits(s, e, id)
    ensures id !in Step(s, e).0.reservations
    ensures Names(e, id) ==> Step(s, e).0 == Cleanup(s, e.at.ns, e.visit)
  {
    hide Books, Cleanup, ApplyHolds, CheckScopes, UseScopes, ReleaseScopes, RecordSettlement, EndReservation, ResolveScopes, Admits;
    var now := e.at.ns;
    var s1 := Cleanup(s, now, e.visit);
    CleanupBooks(s, e.visit, before, now);
    if Names(e, id) {
      NotLiveIsCleanup(s, e, id);
    } else {
      match e.op
      case Reserve(other, scopes, estimate, ttl) =>
        ApplyHoldsQueue(s1, ResolveScopes(scopes, e.at), NormalizeEstimate(estimate), now, false);
      case TopUp(other, delta, ttl) =>
        if other in s1.reservations {
          ApplyHoldsQueue(s1, s1.reservations[other].scopes, NormalizeEstimate(delta), now, true);
        }
      case Commit(other, actual) =>
        if other in s1.reservations {
          CommitBooks(s1, other, NormalizeActual(actual), now);
        }
      case Refund(other) =>
        if other in s1.reservations {
          EndReservationBooks(s1, other, 0, false, now, now);
        }
      case Usage =>
    }
  }

  // Calls for the empty ID return at once, without cleanup.
  predicate Idle(e: Event) { !e.op.Usage? && e.op.id == 0 }

  // How often the call ends the reservation of the ID: by expiry in its cleanup
  // half, by settlement in its own half.
  function Ended(s: Ledger, e: Event, id: Id): nat {
    var cleaned, s' := Cleanup(s, e.at.ns, e.visit).reservations, Step(s, e).0.reservations;
    if Idle(e) then 0
    else (if id in s.reservations && id !in cleaned then 1 else 0) + (if id in cleaned && id !in s' then 1 else 0)
  }

  // How often the ID stops being live.
  function Settlements(s: Ledger, es: seq<Event>, id: Id): nat
    decreases |es|
  {
    if es == [] then 0 else Ended(s, es[0], id) + Settlements(Step(s, es[0]).0, es[1..], id)
  }

  // How often a reserve makes the ID live.
  function Admissions(s: Ledger, es: seq<Event>, id: Id): nat
    decreases |es|
  {
    if es == [] then 0
    else (if Admits(s, es[0], id) then 1 else 0) + Admissions(Step(s, es[0]).0, es[1..], id)
  }

  /** One call: what it ends was live before or is admitted again by it. */
  lemma EndedAtMostOnce(s: Ledger, e: Event, id: Id, before: int)
    requires Books(s, before) && before <= e.at.ns
    ensures Ended(s, e, id) + (if id in Step(s, e).0.reservations then 1 else 0)
         <= (if Admits(s, e, id) then 1 else 0) + if id in s.reservations then 1 else 0
  {
    hide Books, Cleanup, ApplyHolds, CheckScopes, UseScopes, ReleaseScopes, RecordSettlement, EndReservation, ResolveScopes;
    var now := e.at.ns;
    var s1 := Cleanup(s, now, e.visit);
    CleanupBooks(s, e.visit, before, now);
    if !Idle(e) && !Admits(s, e, id) {
      if Names(e, id) {
        if id !in s1.reservations {
          NotLiveIsCleanup(s, e, id);
        }
      } else {
        OthersStay(s, e, id, before);
      }
    }
  }

  // A call for another ID does nothing to this one beyond cleanup.
  lemma OthersStay(s: Ledger, e: Event, id: Id, before: int)
    requires Books(s, before) && before <= e.at.ns && !Names(e, id) && !Idle(e)
    ensures id in Step(s, e).0.reservations <==> id in Cleanup(s, e.at.ns, e.visit).reservations
  {
    hide Books, Cleanup, ApplyHolds, CheckScopes, UseScopes, ReleaseScopes, RecordSettlement, EndReservation, ResolveScopes;
    var now := e.at.ns;
    var s1 := Cleanup(s, now, e.visit);
    CleanupBooks(s, e.visit, before, now);
    match e.op
    case Reserve(other, scopes, estimate, ttl) =>
      ApplyHoldsQueue(s1, ResolveScopes(scopes, e.at), NormalizeEstimate(estimate), now, false);
    case TopUp(other, delta, ttl) =>
      if other in s1.reservations {
        ApplyHoldsQueue(s1, s1.reservations[other].scopes, NormalizeEstimate(delta), now, true);
      }
    case Commit(other, actual) =>
      if other in s1.reservations {
        CommitBooks(s1, other, NormalizeActual(actual), now);
      }
    case Refund(other) =>
      if other in s1.reservations {
        EndReservationBooks(s1, other, 0, false, now, now);
      }
    case Usage =>
  }

  /** At most one commit, refund or expiry settles an ID per successful reserve
      of it, over every run: refused and replayed reserves do not count, and an
      expiry inside the very call that reserves the ID again does. */
  lemma {:induction false} SettledAtMostOnce(s: Ledger, es: seq<Event>, id: Id, from: int)
    requires Books(s, from) && InOrder(es, from)
    ensures Settlements(s, es, id) <= Admissions(s, es, id) + if id in s.reservations then 1 else 0
    ensures id !in s.reservations && Admissions(s, es, id) == 0 ==> id !in Run(s, es).reservations
    decreases |es|
  {
    hide Books, Step, Admits, Ended;
    if es != [] {
      StepBooks(s, es[0], from);
      EndedAtMostOnce(s, es[0], id, from);
      SettledAtMostOnce(Step(s, es[0]).0, es[1..], id, es[0].at.ns);
    }
  }
}
