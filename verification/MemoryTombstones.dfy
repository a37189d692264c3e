/** How long the in-process ledger remembers a settlement: a reserve of a
    settled ID is answered with a conflict until the replay window ends or
    65,536 newer settlements have been recorded. */
module MemoryTombstones {
  import opened QuotaTypes
  import opened MapSums
  import opened MemoryLedger
  import opened MemoryRuns
  import opened MemorySettlements

  predicate Tombstone(s: Ledger, id: Id, t: Settlement) { id in s.settlements && s.settlements[id] == t }

  /** Settlements recorded after this one, counted by list tokens. */
  function Newer(s: Ledger, t: Settlement): int { s.nextToken - t.element - 1 }

  predicate Room(s: Ledger, t: Settlement) { Newer(s, t) < 65_536 }

  // --- The list is no longer than the tokens it spans --------------------------------------------

  lemma {:induction false} TokensSpread(s: Ledger, i: nat)
    requires TokensGrow(s) && i < |s.order|
    ensures s.order[i].token >= s.order[0].token + i
  {
    if i > 0 {
      TokensSpread(s, i - 1);
    }
  }

  function Ids(order: seq<Element>): set<Id>
    decreases |order|
  {
    if order == [] then {} else {order[0].id} + Ids(order[1..])
  }

  lemma {:induction false} IdsOfOrder(order: seq<Element>)
    ensures |Ids(order)| <= |order|
    ensures forall i :: 0 <= i < |order| ==> order[i].id in Ids(order)
    decreases |order|
  {
    if order != [] {
      IdsOfOrder(order[1..]);
      assert forall i :: 0 < i < |order| ==> order[i] == order[1..][i - 1];
    }
  }

  /** With the oldest element in front, at most as many settlements are
      remembered as tokens were given out since. */
  lemma SettlementsSpan(s: Ledger)
    requires Linked(s) && TokensGrow(s) && s.order != []
    ensures |s.settlements| <= s.nextToken - s.order[0].token
  {
    IdsOfOrder(s.order);
    forall id | id in s.settlements.Keys
      ensures id in Ids(s.order)
    {
      assert Listed(s.order, id);
    }
    SubsetSize(s.settlements.Keys, Ids(s.order));
    TokensSpread(s, |s.order| - 1);
  }

  // --- What removes a settlement ---------------------------------------------------------------------

  lemma {:induction false} CleanupKeepsTombstone(s: Ledger, now: int, id: Id, t: Settlement)
    requires Tombstone(s, id, t) && now < t.expires
    ensures var s' := CleanupSettlements(s, now); Tombstone(s', id, t) && s'.nextToken == s.nextToken
    decreases |s.order|
  {
    if s.order != [] && !(s.order[0].id in s.settlements && now < s.settlements[s.order[0].id].expires) {
      CleanupKeepsTombstone(RemoveOldest(s), now, id, t);
    }
  }

  lemma {:induction false} TrimKeepsTombstone(s: Ledger, now: int, id: Id, t: Settlement)
    requires Queue(s, now) && Tombstone(s, id, t) && Room(s, t)
    ensures var s' := TrimSettlements(s); Tombstone(s', id, t) && s'.nextToken == s.nextToken
    decreases |s.order|
  {
    if |s.settlements| > MAX_SETTLEMENTS && s.order != [] {
      SettlementsSpan(s);
      RemoveOldestQueue(s, now);
      TrimKeepsTombstone(RemoveOldest(s), now, id, t);
    }
  }

  lemma TrimKeepsToken(s: Ledger)
    ensures TrimSettlements(s).nextToken == s.nextToken
    decreases |s.order|
  {
    if |s.settlements| > MAX_SETTLEMENTS && s.order != [] {
      TrimKeepsToken(RemoveOldest(s));
    }
  }

  lemma RecordKeepsTombstone(s: Ledger, other: Id, expired: bool, before: int, now: int, id: Id, t: Settlement)
    requires Queue(s, before) && before <= now && other !in s.settlements && other !in s.reservations && other != 0
    requires Tombstone(s, id, t) && now < t.expires
    ensures var s' := RecordSettlement(s, other, expired, now);
      s'.nextToken == s.nextToken + 1 && (Room(s', t) ==> Tombstone(s', id, t))
  {
    hide Queue, CleanupSettlements, TrimSettlements;
    var pushed := Pushed(s, other, expired, now);
    PushQueue(s, other, expired, before, now);
    CleanupSettlementsQueue(pushed, now, now);
    CleanupKeepsTombstone(pushed, now, id, t);
    var cleaned := CleanupSettlements(pushed, now);
    TrimKeepsToken(cleaned);
    if Room(cleaned, t) {
      TrimKeepsTombstone(cleaned, now, id, t);
    }
  }

  /** Ending another reservation keeps the tombstone while there is room. */
  lemma EndKeepsTombstone(s: Ledger, other: Id, actual: int, expired: bool, before: int, now: int, id: Id, t: Settlement)
    requires Books(s, before) && before <= now && other in s.reservations && Tombstone(s, id, t) && now < t.expires
    ensures var s' := EndReservation(s, other, actual, expired, now);
      s'.nextToken == s.nextToken + 1 && (Room(s', t) ==> Tombstone(s', id, t))
  {
    hide ReleaseScopes, RecordSettlement, Books, Queue;
    var res := s.reservations[other];
    var released := ReleaseHold(s, res, actual, now);
    var ended := released.(reservations := released.reservations - {other});
    ReleaseScopesQueue(s, res.scopes, EstimatedTokens(res.held), res.held.spend, actual, now);
    RemoveLiveQueue(s, ended, other, before);
    RecordKeepsTombstone(ended, other, expired, before, now, id, t);
  }

  lemma {:induction false} TokensOnlyGrow(s: Ledger, visit: seq<Id>, before: int, now: int, id: Id, t: Settlement)
    requires Books(s, before) && before <= now && Tombstone(s, id, t) && now < t.expires
    ensures var s' := ExpireAll(s, visit, now);
      Room(s', t) ==> Room(s, t) && Tombstone(s', id, t) && Books(s', now)
    decreases |visit|
  {
    hide Books, EndReservation;
    if visit == [] {
      LaterBooks(s, before, now);
    } else {
      var other := visit[0];
      LaterBooks(s, before, now);
      if other in s.reservations && Lapsed(s.reservations[other], now) {
        EndReservationBooks(s, other, 0, true, before, now);
        EndKeepsTombstone(s, other, 0, true, before, now, id, t);
        var s1 := EndReservation(s, other, 0, true, now);
        if Room(s1, t) {
          TokensOnlyGrow(s1, visit[1..], now, now, id, t);
        } else {
          ExpiryNeverTakesTokensBack(s1, visit[1..], now);
        }
      } else {
        TokensOnlyGrow(s, visit[1..], now, now, id, t);
      }
    }
  }

  lemma RecordTokens(s: Ledger, id: Id, expired: bool, now: int)
    ensures RecordSettlement(s, id, expired, now).nextToken >= s.nextToken
  {
    if id != 0 {
      var order := if id in s.settlements then Without(s.order, s.settlements[id].element) else s.order;
      var pushed := s.(order := order + [Element(s.nextToken, id)], nextToken := s.nextToken + 1,
                       settlements := s.settlements[id := Settlement(now + REPLAY_WINDOW, expired, s.nextToken)]);
      CleanupTokens(pushed, now);
      TrimKeepsToken(CleanupSettlements(pushed, now));
    }
  }

  lemma {:induction false} CleanupTokens(s: Ledger, now: int)
    ensures CleanupSettlements(s, now).nextToken == s.nextToken
    decreases |s.order|
  {
    if s.order != [] && !(s.order[0].id in s.settlements && now < s.settlements[s.order[0].id].expires) {
      CleanupTokens(RemoveOldest(s), now);
    }
  }

  lemma {:induction false} ExpiryNeverTakesTokensBack(s: Ledger, visit: seq<Id>, now: int)
    ensures ExpireAll(s, visit, now).nextToken >= s.nextToken
    decreases |visit|
  {
    hide ReleaseScopes, RecordSettlement;
    if visit != [] {
      var other := visit[0];
      if other in s.reservations && Lapsed(s.reservations[other], now) {
        var res := s.reservations[other];
        var released := ReleaseHold(s, res, 0, now);
        ReleaseScopesQueue(s, res.scopes, EstimatedTokens(res.held), res.held.spend, 0, now);
        RecordTokens(released.(reservations := released.reservations - {other}), other, true, now);
      }
      ExpiryNeverTakesTokensBack(ExpireOne(s, other, now), visit[1..], now);
    }
  }

  // --- Calls and runs -----------------------------------------------------------------------------------

  lemma CleanupCallKeepsTombstone(s: Ledger, now: int, visit: seq<Id>, before: int, id: Id, t: Settlement)
    requires Books(s, before) && before <= now && Tombstone(s, id, t) && now < t.expires
    ensures var s' := Cleanup(s, now, visit);
      s'.nextToken >= s.nextToken && (Room(s', t) ==> Tombstone(s', id, t))
  {
    hide Books, ExpireAll, CleanupSettlements;
    TokensOnlyGrow(s, visit, before, now, id, t);
    ExpiryNeverTakesTokensBack(s, visit, now);
    var s1 := ExpireAll(s, visit, now);
    CleanupTokens(s1, now);
    if Room(s1, t) {
      CleanupKeepsTombstone(s1, now, id, t);
    }
  }

  lemma CommitKeepsTombstone(s: Ledger, other: Id, actual: ActualUsage, now: int, id: Id, t: Settlement)
    requires Books(s, now) && other in s.reservations && Tombstone(s, id, t) && now < t.expires
    ensures var s2 := Committed(s, other, actual, now);
      var s' := RecordSettlement(s2.(reservations := s2.reservations - {other}), other, false, now);
      s'.nextToken == s.nextToken + 1 && (Room(s', t) ==> Tombstone(s', id, t))
  {
    hide ReleaseScopes, UseScopes, RecordSettlement, Books, Queue;
    var res := s.reservations[other];
    var s1 := ReleaseHold(s, res, ActualTokens(actual), now);
    var s2 := Committed(s, other, actual, now);
    var ended := s2.(reservations := s2.reservations - {other});
    ReleaseScopesQueue(s, res.scopes, EstimatedTokens(res.held), res.held.spend, ActualTokens(actual), now);
    UseScopesQueue(s1, res.scopes, actual, now);
    RemoveLiveQueue(s, ended, other, now);
    RecordKeepsTombstone(ended, other, false, now, now, id, t);
  }

  /** No call of any request removes a tombstone inside its window while there
      is room, and a reserve of its ID is then refused as a conflict. */
  lemma StepKeepsTombstone(s: Ledger, e: Event, before: int, id: Id, t: Settlement)
    requires Books(s, before) && before <= e.at.ns < t.expires && Tombstone(s, id, t)
    ensures var (s', r) := Step(s, e);
      && s'.nextToken >= s.nextToken
      && (Room(s', t) ==> Tombstone(s', id, t) && (e.op.Reserve? && e.op.id == id && id != 0 ==> r == Conflict))
  {
    hide Books, Cleanup, ApplyHolds, CheckScopes, UseScopes, ReleaseScopes, RecordSettlement, EndReservation, ResolveScopes, Grown;
    var now := e.at.ns;
    var s1 := Cleanup(s, now, e.visit);
    CleanupBooks(s, e.visit, before, now);
    CleanupCallKeepsTombstone(s, now, e.visit, before, id, t);
    match e.op
    case Reserve(other, scopes, estimate, ttl) =>
      ApplyHoldsQueue(s1, ResolveScopes(scopes, e.at), NormalizeEstimate(estimate), now, false);
    case TopUp(other, delta, ttl) =>
      if other in s1.reservations {
        ApplyHoldsQueue(s1, s1.reservations[other].scopes, NormalizeEstimate(delta), now, true);
      }
    case Commit(other, actual) =>
      if other != 0 && other in s1.reservations {
        CommitTokens(s1, other, NormalizeActual(actual), now);
        if Room(s1, t) {
          CommitKeepsTombstone(s1, other, NormalizeActual(actual), now, id, t);
        }
      }
    case Refund(other) =>
      if other != 0 && other in s1.reservations {
        EndTokens(s1, other, false, now);
        if Room(s1, t) {
          EndKeepsTombstone(s1, other, 0, false, now, now, id, t);
        }
      }
    case Usage =>
  }

  lemma CommitTokens(s: Ledger, other: Id, actual: ActualUsage, now: int)
    requires other in s.reservations
    ensures var s2 := Committed(s, other, actual, now);
      RecordSettlement(s2.(reservations := s2.reservations - {other}), other, false, now).nextToken >= s.nextToken
  {
    hide ReleaseScopes, UseScopes, RecordSettlement;
    var res := s.reservations[other];
    ReleaseScopesQueue(s, res.scopes, EstimatedTokens(res.held), res.held.spend, ActualTokens(actual), now);
    UseScopesQueue(ReleaseHold(s, res, ActualTokens(actual), now), res.scopes, actual, now);
    var s2 := Committed(s, other, actual, now);
    RecordTokens(s2.(reservations := s2.reservations - {other}), other, false, now);
  }

  lemma EndTokens(s: Ledger, other: Id, expired: bool, now: int)
    requires other in s.reservations
    ensures EndReservation(s, other, 0, expired, now).nextToken >= s.nextToken
  {
    hide ReleaseScopes, RecordSettlement;
    var res := s.reservations[other];
    var released := ReleaseHold(s, res, 0, now);
    ReleaseScopesQueue(s, res.scopes, EstimatedTokens(res.held), res.held.spend, 0, now);
    RecordTokens(released.(reservations := released.reservations - {other}), other, expired, now);
  }

  predicate Before(es: seq<Event>, end: int) { forall i :: 0 <= i < |es| ==> es[i].at.ns < end }

  lemma {:induction false} RunKeepsTombstone(s: Ledger, es: seq<Event>, from: int, id: Id, t: Settlement)
    requires Books(s, from) && InOrder(es, from) && Before(es, t.expires) && Tombstone(s, id, t)
    ensures var s' := Run(s, es);
      s'.nextToken >= s.nextToken && (Room(s', t) ==> Tombstone(s', id, t))
    decreases |es|
  {
    hide Books, Step;
    if es != [] {
      var s1 := Step(s, es[0]).0;
      StepBooks(s, es[0], from);
      StepKeepsTombstone(s, es[0], from, id, t);
      if Room(s1, t) {
        RunKeepsTombstone(s1, es[1..], es[0].at.ns, id, t);
      } else {
        RunTokens(s1, es[1..]);
      }
    }
  }

  lemma CleanupCallTokens(s: Ledger, now: int, visit: seq<Id>)
    ensures Cleanup(s, now, visit).nextToken >= s.nextToken
  {
    hide ExpireAll, CleanupSettlements;
    ExpiryNeverTakesTokensBack(s, visit, now);
    CleanupTokens(ExpireAll(s, visit, now), now);
  }

  lemma StepTokens(s: Ledger, e: Event)
    ensures Step(s, e).0.nextToken >= s.nextToken
  {
    hide Cleanup, ApplyHolds, CheckScopes, UseScopes, ReleaseScopes, RecordSettlement, EndReservation, ResolveScopes, Grown;
    var now := e.at.ns;
    var s1 := Cleanup(s, now, e.visit);
    CleanupCallTokens(s, now, e.visit);
    match e.op
    case Reserve(other, scopes, estimate, ttl) =>
      ApplyHoldsQueue(s1, ResolveScopes(scopes, e.at), NormalizeEstimate(estimate), now, false);
    case TopUp(other, delta, ttl) =>
      if other in s1.reservations {
        ApplyHoldsQueue(s1, s1.reservations[other].scopes, NormalizeEstimate(delta), now, true);
      }
    case Commit(other, actual) =>
      if other in s1.reservations {
        CommitTokens(s1, other, NormalizeActual(actual), now);
      }
    case Refund(other) =>
      if other in s1.reservations {
        EndTokens(s1, other, false, now);
      }
    case Usage =>
  }

  lemma {:induction false} RunTokens(s: Ledger, es: seq<Event>)
    ensures Run(s, es).nextToken >= s.nextToken
    decreases |es|
  {
    hide Step;
    if es != [] {
      StepTokens(s, es[0]);
      RunTokens(Step(s, es[0]).0, es[1..]);
    }
  }

  lemma TombstoneRefuses(s: Ledger, es: seq<Event>, e: Event, from: int, id: Id, t: Settlement)
    requires Books(s, from) && InOrder(es + [e], from) && Before(es + [e], t.expires) && Tombstone(s, id, t)
    requires e.op.Reserve? && e.op.id == id && id != 0
    ensures Room(Step(Run(s, es), e).0, t) ==> Step(Run(s, es), e).1 == Conflict
  {
    hide Books, Step, Run;
    var all := es + [e];
    assert forall i :: 0 <= i < |es| ==> all[i] == es[i];
    assert all[|es|] == e;
    RunBooks(s, es, from);
    RunKeepsTombstone(s, es, from, id, t);
    var s1 := Run(s, es);
    StepTokens(s1, e);
    if Room(s1, t) {
      assert Clock(es, from) <= e.at.ns;
      StepKeepsTombstone(s1, e, Clock(es, from), id, t);
    }
  }

  // --- What leaves a tombstone ------------------------------------------------------------------------

  /** What is remembered of the ID, if anything, is that it ended at this time,
      by expiry or not, under a token given out since `first`. */
  predicate EndedAt(s: Ledger, id: Id, now: int, first: nat, expired: bool) {
    && (id in s.settlements ==>
          && s.settlements[id].expires == now + 60_000_000_000 && s.settlements[id].expired == expired
          && first <= s.settlements[id].element < s.nextToken)
    && (s.nextToken - first <= 65_536 ==> id in s.settlements)
  }

  // The newest settlement is never the one that is trimmed.
  lemma RecordLeaves(s: Ledger, id: Id, expired: bool, before: int, now: int)
    requires Queue(s, before) && before <= now && id !in s.settlements && id !in s.reservations && id != 0
    ensures Tombstone(RecordSettlement(s, id, expired, now), id, Settlement(now + REPLAY_WINDOW, expired, s.nextToken))
    ensures RecordSettlement(s, id, expired, now).nextToken == s.nextToken + 1
  {
    hide Queue, CleanupSettlements, TrimSettlements;
    var pushed, t := Pushed(s, id, expired, now), Settlement(now + REPLAY_WINDOW, expired, s.nextToken);
    PushQueue(s, id, expired, before, now);
    CleanupSettlementsQueue(pushed, now, now);
    CleanupKeepsTombstone(pushed, now, id, t);
    var cleaned := CleanupSettlements(pushed, now);
    TrimKeepsToken(cleaned);
    TrimKeepsTombstone(cleaned, now, id, t);
  }

  lemma EndLeaves(s: Ledger, id: Id, actual: int, expired: bool, before: int, now: int)
    requires Books(s, before) && before <= now && id in s.reservations
    ensures EndedAt(EndReservation(s, id, actual, expired, now), id, now, s.nextToken, expired)
  {
    hide ReleaseScopes, RecordSettlement, Books, Queue;
    var res := s.reservations[id];
    var released := ReleaseHold(s, res, actual, now);
    var ended := released.(reservations := released.reservations - {id});
    ReleaseScopesQueue(s, res.scopes, EstimatedTokens(res.held), res.held.spend, actual, now);
    RemoveLiveQueue(s, ended, id, before);
    RecordLeaves(ended, id, expired, before, now);
  }

  lemma CommitLeaves(s: Ledger, id: Id, actual: ActualUsage, now: int)
    requires Books(s, now) && id in s.reservations
    ensures var s2 := Committed(s, id, actual, now);
      EndedAt(RecordSettlement(s2.(reservations := s2.reservations - {id}), id, false, now), id, now, s.nextToken, false)
  {
    hide ReleaseScopes, UseScopes, RecordSettlement, Books, Queue;
    var res := s.reservations[id];
    var s1 := ReleaseHold(s, res, ActualTokens(actual), now);
    var s2 := Committed(s, id, actual, now);
    var ended := s2.(reservations := s2.reservations - {id});
    ReleaseScopesQueue(s, res.scopes, EstimatedTokens(res.held), res.held.spend, ActualTokens(actual), now);
    UseScopesQueue(s1, res.scopes, actual, now);
    RemoveLiveQueue(s, ended, id, now);
    RecordLeaves(ended, id, false, now, now);
  }

  // What was remembered is forgotten or stays as it was, while other IDs end.
  lemma {:induction false} ExpiryForgetsOnly(s: Ledger, visit: seq<Id>, before: int, now: int, id: Id)
    requires Books(s, before) && before <= now && id !in s.reservations
    ensures var s' := ExpireAll(s, visit, now);
      id in s'.settlements ==> id in s.settlements && s'.settlements[id] == s.settlements[id]
    decreases |visit|
  {
    hide Books, EndReservation;
    if visit != [] {
      var other := visit[0];
      LaterBooks(s, before, now);
      if other in s.reservations && Lapsed(s.reservations[other], now) {
        EndForgetsOnly(s, other, 0, true, before, now, id);
        EndReservationBooks(s, other, 0, true, before, now);
      }
      ExpiryForgetsOnly(ExpireOne(s, other, now), visit[1..], now, now, id);
    }
  }

  lemma RecordForgetsOnly(s: Ledger, other: Id, expired: bool, before: int, now: int, id: Id)
    requires Queue(s, before) && before <= now && other !in s.settlements && other !in s.reservations && other != 0 && id != other
    ensures var s' := RecordSettlement(s, other, expired, now);
      id in s'.settlements ==> id in s.settlements && s'.settlements[id] == s.settlements[id]
  {
    hide Queue, CleanupSettlements, TrimSettlements;
    var pushed := Pushed(s, other, expired, now);
    PushQueue(s, other, expired, before, now);
    CleanupSettlementsQueue(pushed, now, now);
    TrimSettlementsQueue(CleanupSettlements(pushed, now), now);
  }

  lemma EndForgetsOnly(s: Ledger, other: Id, actual: int, expired: bool, before: int, now: int, id: Id)
    requires Books(s, before) && before <= now && other in s.reservations && id != other
    ensures var s' := EndReservation(s, other, actual, expired, now);
      id in s'.settlements ==> id in s.settlements && s'.settlements[id] == s.settlements[id]
  {
    hide ReleaseScopes, RecordSettlement, Books, Queue;
    var res := s.reservations[other];
    var released := ReleaseHold(s, res, actual, now);
    var ended := released.(reservations := released.reservations - {other});
    ReleaseScopesQueue(s, res.scopes, EstimatedTokens(res.held), res.held.spend, actual, now);
    RemoveLiveQueue(s, ended, other, before);
    RecordForgetsOnly(ended, other, expired, before, now, id);
  }

  lemma {:induction false} ExpiryLeaves(s: Ledger, visit: seq<Id>, before: int, now: int, id: Id, first: nat)
    requires Books(s, before) && before <= now && id in s.reservations && first <= s.nextToken
    ensures var s' := ExpireAll(s, visit, now); id !in s'.reservations ==> EndedAt(s', id, now, first, true)
    decreases |visit|
  {
    hide Books, EndReservation;
    if visit != [] {
      var other, rest := visit[0], visit[1..];
      LaterBooks(s, before, now);
      if other in s.reservations && Lapsed(s.reservations[other], now) {
        var s1 := EndReservation(s, other, 0, true, now);
        EndReservationBooks(s, other, 0, true, before, now);
        EndTokens(s, other, true, now);
        if other == id {
          EndLeaves(s, id, 0, true, before, now);
          ExpiryForgetsOnly(s1, rest, now, now, id);
          ExpiryNeverTakesTokensBack(s1, rest, now);
          if ExpireAll(s1, rest, now).nextToken - first <= MAX_SETTLEMENTS {
            TokensOnlyGrow(s1, rest, now, now, id, s1.settlements[id]);
          }
        } else {
          ExpiryLeaves(s1, rest, now, now, id, first);
        }
      } else {
        ExpiryLeaves(s, rest, now, now, id, first);
      }
    }
  }

  lemma CleanupLeaves(s: Ledger, now: int, visit: seq<Id>, before: int, id: Id)
    requires Books(s, before) && before <= now && id in s.reservations
    ensures var s' := Cleanup(s, now, visit); id !in s'.reservations ==> EndedAt(s', id, now, s.nextToken, true)
  {
    hide Books, ExpireAll, CleanupSettlements, Queue;
    var s1 := ExpireAll(s, visit, now);
    ExpiryLeaves(s, visit, before, now, id, s.nextToken);
    ExpireAllBooks(s, visit, before, now);
    BooksQueue(s1, now);
    CleanupSettlementsQueue(s1, now, now);
    CleanupSettlementsKeeps(s1, now);
    CleanupTokens(s1, now);
    if id !in s1.reservations && id in s1.settlements {
      CleanupKeepsTombstone(s1, now, id, s1.settlements[id]);
    }
  }

  lemma SameEnd(s: Ledger, s': Ledger, id: Id, now: int, first: nat, expired: bool)
    requires SameQueue(s, s') && EndedAt(s, id, now, first, expired)
    ensures EndedAt(s', id, now, first, expired)
  {
  }

  // A later settlement of another ID in the same call.
  lemma EndedThenOther(s: Ledger, s': Ledger, id: Id, now: int, first: nat, expired: bool)
    requires EndedAt(s, id, now, first, expired) && s'.nextToken >= s.nextToken
    requires id in s'.settlements ==> id in s.settlements && s'.settlements[id] == s.settlements[id]
    requires id in s.settlements && Room(s', s.settlements[id]) ==> Tombstone(s', id, s.settlements[id])
    ensures EndedAt(s', id, now, first, expired)
  {
  }

  // Reserves and top-ups settle nothing beyond their cleanup.
  lemma ReserveSettlesNothing(s: Ledger, other: Id, scopes: seq<ScopedLimit>, estimate: EstimatedUsage, ttl: int,
                              at: Instant, visit: seq<Id>)
    ensures var s1, s' := Cleanup(s, at.ns, visit), ReserveStep(s, other, scopes, estimate, ttl, at, visit).0;
      SameQueue(s1, s') && s1.reservations.Keys <= s'.reservations.Keys
  {
    hide Cleanup, ApplyHolds, CheckScopes, ResolveScopes;
    ApplyHoldsQueue(Cleanup(s, at.ns, visit), ResolveScopes(scopes, at), NormalizeEstimate(estimate), at.ns, false);
  }

  lemma TopUpSettlesNothing(s: Ledger, other: Id, delta: EstimatedUsage, ttl: int, at: Instant, visit: seq<Id>)
    ensures var s1, s' := Cleanup(s, at.ns, visit), TopUpStep(s, other, delta, ttl, at, visit).0;
      SameQueue(s1, s') && s1.reservations.Keys <= s'.reservations.Keys
  {
    hide Cleanup, ApplyHolds, CheckScopes, Grown;
    var s1 := Cleanup(s, at.ns, visit);
    if other in s1.reservations {
      ApplyHoldsQueue(s1, s1.reservations[other].scopes, NormalizeEstimate(delta), at.ns, true);
    }
  }

  lemma CommitCallSettles(s: Ledger, other: Id, usage: ActualUsage, at: Instant, visit: seq<Id>, id: Id, first: nat)
    requires var s1 := Cleanup(s, at.ns, visit);
      Books(s1, at.ns) && first <= s1.nextToken && (id !in s1.reservations ==> EndedAt(s1, id, at.ns, first, true))
    ensures var s' := CommitStep(s, other, usage, at, visit).0; id !in s'.reservations ==> EndedAt(s', id, at.ns, first, id !in Cleanup(s, at.ns, visit).reservations)
  {
    hide Books, Cleanup, UseScopes, ReleaseScopes, RecordSettlement, EndedAt;
    var s1 := Cleanup(s, at.ns, visit);
    if other in s1.reservations {
      CommitSettles(s1, other, NormalizeActual(usage), at.ns, id, first);
    }
  }

  lemma RefundCallSettles(s: Ledger, other: Id, at: Instant, visit: seq<Id>, id: Id, first: nat)
    requires var s1 := Cleanup(s, at.ns, visit);
      Books(s1, at.ns) && first <= s1.nextToken && (id !in s1.reservations ==> EndedAt(s1, id, at.ns, first, true))
    ensures var s' := RefundStep(s, other, at, visit).0; id !in s'.reservations ==> EndedAt(s', id, at.ns, first, id !in Cleanup(s, at.ns, visit).reservations)
  {
    hide Books, Cleanup, EndReservation, EndedAt;
    var s1 := Cleanup(s, at.ns, visit);
    if other in s1.reservations {
      RefundSettles(s1, other, at.ns, id, first);
    }
  }

  /** A call in which an ID stops being live (committed, refunded or expired)
      leaves its tombstone for the whole window, unless the call itself recorded
      more than 65,536 settlements. The tombstone says whether it had expired. */
  lemma SettlingLeavesTombstone(s: Ledger, e: Event, before: int, id: Id)
    requires Books(s, before) && before <= e.at.ns && id in s.reservations && id !in Step(s, e).0.reservations
    ensures EndedAt(Step(s, e).0, id, e.at.ns, s.nextToken, id !in Cleanup(s, e.at.ns, e.visit).reservations)
  {
    hide Books, Cleanup, ReserveStep, TopUpStep, CommitStep, RefundStep, EndedAt;
    var now := e.at.ns;
    var s1, s' := Cleanup(s, now, e.visit), Step(s, e).0;
    CleanupBooks(s, e.visit, before, now);
    CleanupLeaves(s, now, e.visit, before, id);
    CleanupCallTokens(s, now, e.visit);
    match e.op
    case Reserve(other, scopes, estimate, ttl) =>
      ReserveSettlesNothing(s, other, scopes, estimate, ttl, e.at, e.visit);
      SameEnd(s1, s', id, now, s.nextToken, true);
    case TopUp(other, delta, ttl) =>
      TopUpSettlesNothing(s, other, delta, ttl, e.at, e.visit);
      SameEnd(s1, s', id, now, s.nextToken, true);
    case Commit(other, actual) => CommitCallSettles(s, other, actual, e.at, e.visit, id, s.nextToken);
    case Refund(other) => RefundCallSettles(s, other, e.at, e.visit, id, s.nextToken);
    case Usage =>
  }

  lemma RefundSettles(s: Ledger, other: Id, now: int, id: Id, first: nat)
    requires Books(s, now) && other in s.reservations && first <= s.nextToken
    requires id !in s.reservations ==> EndedAt(s, id, now, first, true)
    ensures var s' := EndReservation(s, other, 0, false, now);
      id !in s'.reservations ==> EndedAt(s', id, now, first, id !in s.reservations)
  {
    hide Books, EndReservation;
    var s' := EndReservation(s, other, 0, false, now);
    EndReservationBooks(s, other, 0, false, now, now);
    EndTokens(s, other, false, now);
    if id == other {
      EndLeaves(s, id, 0, false, now, now);
    } else if id !in s.reservations {
      EndForgetsOnly(s, other, 0, false, now, now, id);
      if id in s.settlements {
        EndKeepsTombstone(s, other, 0, false, now, now, id, s.settlements[id]);
      }
      EndedThenOther(s, s', id, now, first, true);
    }
  }

  lemma CommitForgetsOnly(s: Ledger, other: Id, actual: ActualUsage, now: int, id: Id)
    requires Books(s, now) && other in s.reservations && id != other
    ensures var s2 := Committed(s, other, actual, now);
      var s' := RecordSettlement(s2.(reservations := s2.reservations - {other}), other, false, now);
      id in s'.settlements ==> id in s.settlements && s'.settlements[id] == s.settlements[id]
  {
    hide ReleaseScopes, UseScopes, RecordSettlement, Books, Queue;
    var res := s.reservations[other];
    var s2 := Committed(s, other, actual, now);
    var ended := s2.(reservations := s2.reservations - {other});
    ReleaseScopesQueue(s, res.scopes, EstimatedTokens(res.held), res.held.spend, ActualTokens(actual), now);
    UseScopesQueue(ReleaseHold(s, res, ActualTokens(actual), now), res.scopes, actual, now);
    RemoveLiveQueue(s, ended, other, now);
    RecordForgetsOnly(ended, other, false, now, now, id);
  }

  lemma CommitSettles(s: Ledger, other: Id, actual: ActualUsage, now: int, id: Id, first: nat)
    requires Books(s, now) && other in s.reservations && first <= s.nextToken
    requires id !in s.reservations ==> EndedAt(s, id, now, first, true)
    ensures var s2 := Committed(s, other, actual, now);
      var s' := RecordSettlement(s2.(reservations := s2.reservations - {other}), other, false, now);
      id !in s'.reservations ==> EndedAt(s', id, now, first, id !in s.reservations)
  {
    hide Books, Committed, RecordSettlement;
    var s2 := Committed(s, other, actual, now);
    var s' := RecordSettlement(s2.(reservations := s2.reservations - {other}), other, false, now);
    CommitBooks(s, other, actual, now);
    CommitTokens(s, other, actual, now);
    if id == other {
      CommitLeaves(s, id, actual, now);
    } else if id !in s.reservations {
      CommitForgetsOnly(s, other, actual, now, id);
      if id in s.settlements {
        CommitKeepsTombstone(s, other, actual, now, id, s.settlements[id]);
      }
      EndedThenOther(s, s', id, now, first, true);
    }
  }

  /** From the commit, refund or expiry on, whatever calls come in between: a
      reserve of the ID is refused as a conflict for the whole replay window, as
      long as at most 65,536 settlements have been recorded since. */
  lemma SettledIdStaysRefused(s: Ledger, settle: Event, es: seq<Event>, e: Event, from: int, id: Id)
    requires Books(s, from) && InOrder([settle] + es + [e], from)
    requires id in s.reservations && id !in Step(s, settle).0.reservations
    requires Before(es + [e], settle.at.ns + 60_000_000_000)
    requires e.op.Reserve? && e.op.id == id && id != 0
    ensures var s1 := Step(s, settle).0;
      var (s', r) := Step(Run(s1, es), e);
      && (s1.nextToken - s.nextToken <= 65_536 ==> id in s1.settlements)
      && (id in s1.settlements && Room(s', s1.settlements[id]) ==> r == Conflict)
  {
    hide Books, Step, Run;
    var s1 := Step(s, settle).0;
    var all := [settle] + es + [e];
    assert all[0] == settle;
    assert forall i :: 0 <= i < |es + [e]| ==> all[i + 1] == (es + [e])[i];
    StepBooks(s, settle, from);
    SettlingLeavesTombstone(s, settle, from, id);
    if id in s1.settlements {
      TombstoneRefuses(s1, es, e, settle.at.ns, id, s1.settlements[id]);
    }
  }

  // A commit or refund of an ID that is remembered finds the tombstone.
  lemma TombstoneAnswers(s: Ledger, es: seq<Event>, e: Event, from: int, id: Id, t: Settlement)
    requires Books(s, from) && InOrder(es + [e], from) && Before(es + [e], t.expires) && Tombstone(s, id, t)
    requires (e.op.Commit? || e.op.Refund?) && e.op.id == id && id != 0
    ensures Room(Step(Run(s, es), e).0, t) ==> Step(Run(s, es), e).1 == if t.expired then NotFound else Ok
  {
    hide Books, Step, Run;
    var all := es + [e];
    assert forall i :: 0 <= i < |es| ==> all[i] == es[i];
    assert all[|es|] == e;
    RunBooks(s, es, from);
    RunKeepsTombstone(s, es, from, id, t);
    var s1 := Run(s, es);
    StepTokens(s1, e);
    if Room(Step(s1, e).0, t) {
      assert Clock(es, from) <= e.at.ns;
      StepKeepsTombstone(s1, e, Clock(es, from), id, t);
      RememberedIsNotLive(s1, Clock(es, from), id);
      NotLiveIsFinal(s1, e, id, Clock(es, from));
      AnswersFromMemory(s1, e, id, t);
    }
  }

  lemma RememberedIsNotLive(s: Ledger, now: int, id: Id)
    requires Books(s, now) && id in s.settlements
    ensures id !in s.reservations
  {
  }

  lemma AnswersFromMemory(s: Ledger, e: Event, id: Id, t: Settlement)
    requires (e.op.Commit? || e.op.Refund?) && e.op.id == id && id != 0
    requires id !in Cleanup(s, e.at.ns, e.visit).reservations && Tombstone(Step(s, e).0, id, t)
    ensures Step(s, e).1 == if t.expired then NotFound else Ok
  {
    hide Cleanup, UseScopes, ReleaseScopes, RecordSettlement, EndReservation;
  }

  /** From the commit, refund or expiry on, under the same conditions: a commit
      or refund of the ID changes nothing, and is confirmed if the ID had been
      settled and unknown if it had expired. */
  lemma SettledIdIsConfirmed(s: Ledger, settle: Event, es: seq<Event>, e: Event, from: int, id: Id)
    requires Books(s, from) && InOrder([settle] + es + [e], from)
    requires id in s.reservations && id !in Step(s, settle).0.reservations
    requires Before(es + [e], settle.at.ns + 60_000_000_000)
    requires (e.op.Commit? || e.op.Refund?) && e.op.id == id && id != 0
    ensures var s1 := Step(s, settle).0;
      var (s', r) := Step(Run(s1, es), e);
      id in s1.settlements && Room(s', s1.settlements[id]) ==>
        r == if id in Cleanup(s, settle.at.ns, settle.visit).reservations then Ok else NotFound
  {
    hide Books, Step, Run;
    var s1 := Step(s, settle).0;
    var all := [settle] + es + [e];
    assert all[0] == settle;
    assert forall i :: 0 <= i < |es + [e]| ==> all[i + 1] == (es + [e])[i];
    StepBooks(s, settle, from);
    SettlingLeavesTombstone(s, settle, from, id);
    if id in s1.settlements {
      TombstoneAnswers(s1, es, e, settle.at.ns, id, s1.settlements[id]);
    }
  }

  /** Once the window is over the ID is forgotten and may be reserved again. */
  lemma ForgottenAfterWindow(s: Ledger, visit: seq<Id>, before: int, now: int, id: Id)
    requires Books(s, before) && before <= now && id in s.settlements && s.settlements[id].expires <= now
    ensures id !in Cleanup(s, now, visit).settlements && id !in Cleanup(s, now, visit).reservations
  {
    hide Books, ExpireAll, CleanupSettlements, Queue;
    RememberedIsNotLive(s, before, id);
    var s1 := ExpireAll(s, visit, now);
    ExpiryForgetsOnly(s, visit, before, now, id);
    ExpireAllBooks(s, visit, before, now);
    BooksQueue(s1, now);
    CleanupSettlementsQueue(s1, now, now);
    NotLiveStays(s, visit, before, now, id);
    CleanupSettlementsKeeps(s1, now);
  }

  lemma {:induction false} NotLiveStays(s: Ledger, visit: seq<Id>, before: int, now: int, id: Id)
    requires Books(s, before) && before <= now && id !in s.reservations
    ensures id !in ExpireAll(s, visit, now).reservations
    decreases |visit|
  {
    hide Books, EndReservation;
    if visit != [] {
      LaterBooks(s, before, now);
      if visit[0] in s.reservations && Lapsed(s.reservations[visit[0]], now) {
        EndReservationBooks(s, visit[0], 0, true, before, now);
      }
      NotLiveStays(ExpireOne(s, visit[0], now), visit[1..], now, now, id);
    }
  }
}
