/** Budget safety of the Redis ledger over whole runs: with one fixed limit,
    committed plus held usage stays within the limit except for overage that was
    committed. The lease invariant is what makes it true at a commit: the ticket
    is live, so its counters still cover it and no release clamps. */
module RedisBudgets {
  import opened QuotaTypes
  import opened RedisLedger
  import opened RedisInvariant
  import opened RedisHolds
  import opened RedisRuns

  /** Committed plus held usage on a held key. */
  function Spent(sec: Section, k: Key): int { Val(sec.counters, UsedKey(k)) + Val(sec.counters, k) }

  // Scopes on the key have this limit, and keys that belong to their limits.
  predicate Fixed(scopes: seq<Scope>, ref: ScopeRef, k: Key, limit: int) {
    forall i :: 0 <= i < |scopes| && scopes[i].ref == ref ==>
      ScopeMatchesLimit(scopes[i]) && (HeldKey(scopes[i].keys, k) ==> KeyLimit(scopes[i].limit, k) == limit)
  }

  predicate TicketsFixed(db: Db, ref: ScopeRef, k: Key, limit: int) {
    forall id :: id in db.tickets ==> Fixed(db.tickets[id].scopes, ref, k, limit)
  }

  // --- One section ---------------------------------------------------------------------------------

  lemma SweepSpends(sec: Section, now: int, k: Key)
    requires GoodCounters(sec.counters)
    ensures Spent(SweepSection(sec, now), k) <= Spent(sec, k)
  {
  }

  lemma {:induction false} DropLeasesLower(sec: Section, ids: seq<Id>, now: int, k: Key)
    requires LedgerInv(sec.counters, Fields(sec), Scores(sec), now) && Compact(sec) && IsHeld(k)
    ensures Val(DropLeases(sec, ids).counters, k) <= Val(sec.counters, k)
    decreases |ids|
  {
    if ids != [] {
      hide DropLease;
      DropLeaseInv(sec, ids[0], now);
      DropLeaseLowers(sec, ids[0], now, k);
      DropLeasesLower(DropLease(sec, ids[0]), ids[1..], now, k);
    }
  }

  lemma DropLeaseLowers(sec: Section, id: Id, now: int, k: Key)
    requires LedgerInv(sec.counters, Fields(sec), Scores(sec), now) && IsHeld(k)
    ensures Val(DropLease(sec, id).counters, k) <= Val(sec.counters, k)
  {
    hide ReleaseLease;
    if id in Fields(sec) {
      ReleaseLeaseAt(sec.counters, Fields(sec)[id], k);
      HoldNonNegative(Fields(sec)[id], k);
    }
  }

  lemma PruneSpends(sec: Section, now: int, protected: Option<Id>, k: Key)
    requires SectionInv(sec, now) && IsHeld(k)
    ensures Spent(PruneSection(sec, now, protected), k) <= Spent(sec, k)
  {
    hide DropLeases, Ordered;
    var ids := Ordered(Expired(sec, now, protected));
    SyncedIsCompact(sec, now);
    DropLeasesLower(sec, ids, now, k);
    if UsedKey(k) != NoKey {
      PruneKeepsUsed(sec, now, protected, UsedKey(k));
    } else {
      PruneKeepsInv(sec, now, protected);
    }
  }

  lemma SyncedIsCompact(sec: Section, now: int)
    requires SectionInv(sec, now)
    ensures Compact(sec) && LedgerInv(sec.counters, Fields(sec), Scores(sec), now)
  {
  }

  // A checked hold keeps the budget within the limit itself.
  lemma CheckedHoldSpends(c: map<Key, Counter>, scope: Scope, tokens: int, spend: int, k: Key)
    requires GoodCounters(c) && GoodKeys(scope.keys) && ScopeMatchesLimit(scope) && IsHeld(k) && HeldKey(scope.keys, k)
    requires CheckReserve(c, scope, tokens, spend) == Pass && KeyLimit(scope.limit, k) > 0
    ensures Val(c, UsedKey(k)) + Val(c, k) + ReserveAmount(scope.keys, tokens, spend, k) <= KeyLimit(scope.limit, k)
  {
  }

  lemma HoldSpends(sec: Section, scope: Scope, id: Id, tokens: int, spend: int, now: int, ttl: int, minuteTtl: int,
                   k: Key, limit: int, over: int)
    requires GoodCounters(sec.counters) && GoodKeys(scope.keys) && ScopeMatchesLimit(scope) && IsHeld(k)
    requires CheckReserve(sec.counters, scope, tokens, spend) == Pass
    requires HeldKey(scope.keys, k) ==> KeyLimit(scope.limit, k) == limit
    requires Spent(sec, k) <= limit + over && over >= 0 && limit > 0
    ensures Spent(HoldScope(sec, scope, id, tokens, spend, now, ttl, minuteTtl), k) <= limit + over
  {
    hide HeldCounters, HoldScope, PutLease, CheckReserve;
    HoldScopeShape(sec, scope, id, tokens, spend, now, ttl, minuteTtl);
    HeldCountersAt(sec.counters, scope.keys, tokens, spend, now, ttl, minuteTtl, k);
    if UsedKey(k) != NoKey {
      HeldCountersAt(sec.counters, scope.keys, tokens, spend, now, ttl, minuteTtl, UsedKey(k));
    } else {
      HeldCountersNoKey(sec.counters, scope.keys, tokens, spend, now, ttl, minuteTtl);
    }
    if HeldKey(scope.keys, k) {
      CheckedHoldSpends(sec.counters, scope, tokens, spend, k);
    }
  }

  lemma CheckedTopUpSpends(sec: Section, scope: Scope, id: Id, tokens: int, spend: int, k: Key)
    requires GoodCounters(sec.counters) && GoodKeys(scope.keys) && ScopeMatchesLimit(scope) && IsHeld(k)
    requires CheckTopUp(sec, scope, id, tokens, spend) == Pass && HeldKey(scope.keys, k)
    requires KeyLimit(scope.limit, k) > 0 && TopUpAmount(scope.keys, tokens, spend, k) > 0
    ensures Spent(sec, k) + TopUpAmount(scope.keys, tokens, spend, k) <= KeyLimit(scope.limit, k)
  {
  }

  lemma TopUpSpends(sec: Section, scope: Scope, id: Id, tokens: int, spend: int, now: int, ttl: int,
                    k: Key, limit: int, over: int)
    requires GoodCounters(sec.counters) && GoodKeys(scope.keys) && ScopeMatchesLimit(scope) && IsHeld(k)
    requires CheckTopUp(sec, scope, id, tokens, spend) == Pass && id in Fields(sec)
    requires HeldKey(scope.keys, k) ==> KeyLimit(scope.limit, k) == limit
    requires Spent(sec, k) <= limit + over && over >= 0 && limit > 0
    ensures Spent(TopUpScope(sec, scope, id, tokens, spend, now, ttl), k) <= limit + over
  {
    hide ToppedCounters, TopUpScope, PutLease, CheckTopUp;
    TopUpScopeShape(sec, scope, id, tokens, spend, now, ttl);
    ToppedCountersAt(sec.counters, scope.keys, tokens, spend, now, ttl, k);
    if UsedKey(k) != NoKey {
      ToppedCountersAt(sec.counters, scope.keys, tokens, spend, now, ttl, UsedKey(k));
    } else {
      ToppedNoKey(sec.counters, scope.keys, tokens, spend, now, ttl);
    }
    if HeldKey(scope.keys, k) && TopUpAmount(scope.keys, tokens, spend, k) > 0 {
      CheckedTopUpSpends(sec, scope, id, tokens, spend, k);
    }
  }

  /** By how much a commit on a key exceeds what the ticket held on it. */
  function Excess(keys: QuotaKeys, heldTokens: int, heldSpend: int, tokens: int, spend: int, k: Key): (r: int)
    ensures r >= 0
  {
    Max(0, UsedAmount(keys, tokens, spend, UsedKey(k)) - LeaseHold(LeaseFor(keys, heldTokens, heldSpend), k))
  }

  // The counter of a live lease covers it.
  lemma LiveLeaseCovered(sec: Section, id: Id, now: int, k: Key)
    requires SectionInv(sec, now) && IsHeld(k) && id in Fields(sec) && id in Scores(sec) && now <= Scores(sec)[id]
    ensures 0 <= LeaseHold(Fields(sec)[id], k) <= Val(sec.counters, k)
  {
    HoldNonNegative(Fields(sec)[id], k);
    if LeaseHold(Fields(sec)[id], k) > 0 {
      assert Outlives(sec.counters, k, Scores(sec)[id]);
      HeldOnBounds(Fields(sec), k);
    }
  }

  lemma UsedAfterSettle(c: map<Key, Counter>, scope: Scope, heldTokens: int, heldSpend: int,
                        commit: bool, tokens: int, spend: int, now: int, grace: int, u: Key)
    requires GoodKeys(scope.keys) && GoodCounters(c) && (u.SpendUsed? || u.DayUsed? || u.MonthUsed?)
    requires CanSettle(c, scope.keys, heldTokens, commit, tokens, spend) && Amounts(tokens, spend) && 0 <= heldTokens
    ensures Val(SettleCounters(c, scope, heldTokens, heldSpend, commit, tokens, spend, now, grace), u)
         == Val(c, u) + if commit then UsedAmount(scope.keys, tokens, spend, u) else 0
  {
    hide SettleMinute, ReleaseHeld, CommitUsed;
    var retained := if commit then tokens else 0;
    var c1 := SettleMinute(c, scope.keys.tpm, heldTokens, retained);
    MinuteGood(c, scope, heldTokens, commit, tokens, spend);
    SettleMinuteAt(c, scope.keys.tpm, heldTokens, retained, u);
    var c2 := ReleaseHeld(c1, scope.keys, heldTokens, heldSpend);
    ReleaseHeldAt(c1, scope.keys, heldTokens, heldSpend, u);
    CommitUsedAt(c2, scope, tokens, spend, now, grace, u);
  }

  lemma MinuteGood(c: map<Key, Counter>, scope: Scope, heldTokens: int, commit: bool, tokens: int, spend: int)
    requires GoodKeys(scope.keys) && GoodCounters(c) && CanSettle(c, scope.keys, heldTokens, commit, tokens, spend)
    requires Amounts(tokens, spend) && 0 <= heldTokens
    ensures GoodCounters(SettleMinute(c, scope.keys.tpm, heldTokens, if commit then tokens else 0))
  {
    SettleMinuteGood(c, scope.keys.tpm, heldTokens, if commit then tokens else 0);
  }

  /** Settling moves a live hold to the used counter and adds only the excess. */
  lemma SettleSpends(sec: Section, scope: Scope, id: Id, heldTokens: int, heldSpend: int,
                     commit: bool, tokens: int, spend: int, now: int, grace: int, k: Key)
    requires SectionInv(sec, now) && id in Fields(sec) && id in Scores(sec) && now <= Scores(sec)[id]
    requires Fields(sec)[id] == LeaseFor(scope.keys, heldTokens, heldSpend)
    requires GoodKeys(scope.keys) && Amounts(tokens, spend) && grace >= 0 && 0 <= heldTokens && IsHeld(k)
    requires CanSettle(sec.counters, scope.keys, heldTokens, commit, tokens, spend)
    ensures var sec' := SettleScope(sec, scope, id, heldTokens, heldSpend, commit, tokens, spend, now, grace);
      Spent(sec', k) <= Spent(sec, k) + if commit then Excess(scope.keys, heldTokens, heldSpend, tokens, spend, k) else 0
  {
    hide SettleCounters, CanSettle;
    var c := sec.counters;
    LiveLeaseCovered(sec, id, now, k);
    SettleCountersAt(c, scope, heldTokens, heldSpend, commit, tokens, spend, now, grace, k);
    if UsedKey(k) != NoKey {
      UsedAfterSettle(c, scope, heldTokens, heldSpend, commit, tokens, spend, now, grace, UsedKey(k));
    } else {
      SettleCountersGood(c, scope, heldTokens, heldSpend, commit, tokens, spend, now, grace);
    }
  }

  // --- Scripts ------------------------------------------------------------------------------------------

  ghost predicate BudgetInv(db: Db, now: int, ref: ScopeRef, k: Key, limit: int, over: int) {
    DbInv(db, now) && TicketsFixed(db, ref, k, limit) && Spent(Sec(db, ref), k) <= limit + over
  }

  lemma SectionOf(db: Db, now: int, ref: ScopeRef)
    requires DbInv(db, now)
    ensures SectionInv(Sec(db, ref), now) && GoodCounters(Sec(db, ref).counters)
    ensures Fields(Sec(db, ref)).Keys == Scores(Sec(db, ref)).Keys
  {
    hide SectionInv;
    assert SectionInv(Sec(db, ref), now);
    InvSynced(Sec(db, ref), now);
  }

  lemma SweepBudget(db: Db, before: int, now: int, ref: ScopeRef, k: Key, limit: int, over: int)
    requires BudgetInv(db, before, ref, k, limit, over) && before <= now
    ensures BudgetInv(Sweep(db, now), now, ref, k, limit, over) && FreshTickets(Sweep(db, now), now)
  {
    hide SectionInv, SectionsInv, TicketsInv, Fixed, SweepSection;
    SweepDbInv(db, before, now);
    SweepAt(db, now, ref);
    SectionOf(db, before, ref);
    SweepSpends(Sec(db, ref), now, k);
  }

  lemma PruneBudget(db: Db, scopes: seq<Scope>, now: int, protected: Option<Id>, ref: ScopeRef, k: Key, limit: int, over: int)
    requires BudgetInv(db, now, ref, k, limit, over) && DistinctRefs(scopes) && IsHeld(k)
    ensures BudgetInv(ForScopes(db, scopes, Prune(now, protected)), now, ref, k, limit, over)
  {
    hide DbInv, Fixed, PruneSection, Spent, ForScopes;
    var a := Prune(now, protected);
    PruneDbInv(db, scopes, now, protected);
    ForScopesRest(db, scopes, a);
    if Touches(scopes, ref) {
      var i :| 0 <= i < |scopes| && scopes[i].ref == ref;
      ForScopesHit(db, scopes, a, i);
      SectionOf(db, now, ref);
      PruneSpends(Sec(db, ref), now, protected, k);
    } else {
      ForScopesMiss(db, scopes, a, ref);
    }
  }

  lemma SettledBudget(db: Db, now: int, ref: ScopeRef, k: Key, limit: int, over: int)
    requires BudgetInv(db, now, ref, k, limit, over)
    ensures BudgetInv(PruneSettled(db, now), now, ref, k, limit, over)
  {
    hide DbInv, Fixed, Spent;
    PruneSettledInv(db, now);
  }

  lemma HeldSectionSpends(db: Db, scopes: seq<Scope>, id: Id, tokens: int, spend: int, now: int, ttl: int, minuteTtl: int,
                          ref: ScopeRef, k: Key, limit: int, over: int)
    requires BudgetInv(db, now, ref, k, limit, over) && GoodScopes(scopes) && IsHeld(k) && limit > 0 && over >= 0
    requires Fixed(scopes, ref, k, limit) && CheckReserveAll(db, scopes, tokens, spend) == Pass
    ensures Spent(Sec(ForScopes(db, scopes, Hold(id, tokens, spend, now, ttl, minuteTtl)), ref), k) <= limit + over
  {
    hide DbInv, HoldScope, Spent, ForScopes, CheckReserveAll;
    var a := Hold(id, tokens, spend, now, ttl, minuteTtl);
    if Touches(scopes, ref) {
      var i :| 0 <= i < |scopes| && scopes[i].ref == ref;
      ForScopesHit(db, scopes, a, i);
      SectionOf(db, now, ref);
      CheckedReserve(db, scopes, tokens, spend, i);
      HoldSpends(Sec(db, ref), scopes[i], id, tokens, spend, now, ttl, minuteTtl, k, limit, over);
    } else {
      ForScopesMiss(db, scopes, a, ref);
    }
  }

  lemma ReserveBudget(db: Db, before: int, scopes: seq<Scope>, estimate: EstimatedUsage, id: Id, fingerprint: Fingerprint,
                      now: int, ttl: int, minuteTtl: int, ref: ScopeRef, k: Key, limit: int, over: int)
    requires BudgetInv(db, before, ref, k, limit, over) && before <= now && GoodScopes(scopes) && minuteTtl >= 0
    requires NormalEstimate(estimate) && Amounts(EstimatedTokens(estimate), estimate.spend)
    requires Fixed(scopes, ref, k, limit) && IsHeld(k) && limit > 0 && over >= 0
    ensures BudgetInv(ReserveScript(db, scopes, estimate, id, fingerprint, now, ttl, minuteTtl).0, now, ref, k, limit, over)
  {
    hide DbInv, Fixed, Spent, Sweep, ForScopes, CheckReserveAll, PruneSettled;
    ReserveKeepsInv(db, before, scopes, estimate, id, fingerprint, now, ttl, minuteTtl);
    SweepBudget(db, before, now, ref, k, limit, over);
    var db0 := Sweep(db, now);
    var pruned := ForScopes(db0, scopes, Prune(now, None));
    PruneBudget(db0, scopes, now, None, ref, k, limit, over);
    SettledBudget(pruned, now, ref, k, limit, over);
    var db1 := PruneSettled(pruned, now);
    var tokens, spend := EstimatedTokens(estimate), estimate.spend;
    if id !in db1.settled && id !in db1.tickets && CheckReserveAll(db1, scopes, tokens, spend) == Pass {
      var a := Hold(id, tokens, spend, now, ttl, minuteTtl);
      HeldSectionSpends(db1, scopes, id, tokens, spend, now, ttl, minuteTtl, ref, k, limit, over);
      var db2 := ForScopes(db1, scopes, a);
      ForScopesRest(db1, scopes, a);
      SameSections(db2, db2.tickets[id := Ticket(estimate, scopes, fingerprint, now + ttl)], ref);
    }
  }

  lemma ToppedSectionSpends(db: Db, id: Id, tokens: int, spend: int, now: int, ttl: int,
                            ref: ScopeRef, k: Key, limit: int, over: int)
    requires BudgetInv(db, now, ref, k, limit, over) && IsHeld(k) && limit > 0 && over >= 0 && id in db.tickets
    requires CheckTopUpAll(db, db.tickets[id].scopes, id, tokens, spend) == Pass
    ensures Spent(Sec(ForScopes(db, db.tickets[id].scopes, TopUp(id, tokens, spend, now, ttl)), ref), k) <= limit + over
  {
    hide SectionsInv, TopUpScope, Spent, ForScopes, CheckTopUpAll, Sec;
    var scopes := db.tickets[id].scopes;
    assert GoodTicket(db.tickets[id]);
    var a := TopUp(id, tokens, spend, now, ttl);
    if Touches(scopes, ref) {
      var i :| 0 <= i < |scopes| && scopes[i].ref == ref;
      ForScopesHit(db, scopes, a, i);
      SectionOf(db, now, ref);
      CheckedTopUp(db, scopes, id, tokens, spend, i);
      TopUpSpends(Sec(db, ref), scopes[i], id, tokens, spend, now, ttl, k, limit, over);
    } else {
      ForScopesMiss(db, scopes, a, ref);
    }
  }

  lemma TopUpBudget(db: Db, before: int, id: Id, tokens: int, spend: int, now: int, ttl: int,
                    ref: ScopeRef, k: Key, limit: int, over: int)
    requires BudgetInv(db, before, ref, k, limit, over) && before <= now && Amounts(tokens, spend)
    requires IsHeld(k) && limit > 0 && over >= 0
    ensures BudgetInv(TopUpScript(db, id, tokens, spend, now, ttl).0, now, ref, k, limit, over)
  {
    hide SectionsInv, Fixed, Spent, Sweep, ForScopes, CheckTopUpAll, Sec;
    TopUpKeepsInv(db, before, id, tokens, spend, now, ttl);
    SweepBudget(db, before, now, ref, k, limit, over);
    var db0 := Sweep(db, now);
    if id in db0.tickets {
      var t := db0.tickets[id];
      assert GoodTicket(t);
      var a := Prune(now, Some(id));
      PruneBudget(db0, t.scopes, now, Some(id), ref, k, limit, over);
      ForScopesRest(db0, t.scopes, a);
      var db1 := ForScopes(db0, t.scopes, a);
      if CheckTopUpAll(db1, t.scopes, id, tokens, spend) == Pass {
        ToppedSectionSpends(db1, id, tokens, spend, now, ttl, ref, k, limit, over);
        var b := TopUp(id, tokens, spend, now, ttl);
        var db2 := ForScopes(db1, t.scopes, b);
        ForScopesRest(db1, t.scopes, b);
        var t' := t.(held := EstimatedUsage(HeldTokens(t) + tokens, 0, t.held.spend + spend), expireAt := now + ttl);
        SameSections(db2, db2.tickets[id := t'], ref);
      }
    }
  }

  /** What a commit of a ticket adds to the key beyond what the ticket held on it. */
  function TicketOverage(t: Ticket, tokens: int, spend: int, ref: ScopeRef, k: Key): (r: int)
    ensures r >= 0
  {
    ScopesExcess(t.scopes, HeldTokens(t), t.held.spend, tokens, spend, ref, k)
  }

  function ScopesExcess(scopes: seq<Scope>, heldTokens: int, heldSpend: int, tokens: int, spend: int, ref: ScopeRef, k: Key): (r: int)
    ensures r >= 0
    decreases |scopes|
  {
    if scopes == [] then 0
    else (if scopes[0].ref == ref then Excess(scopes[0].keys, heldTokens, heldSpend, tokens, spend, k) else 0)
         + ScopesExcess(scopes[1..], heldTokens, heldSpend, tokens, spend, ref, k)
  }

  lemma {:induction false} ScopeExcessCounted(scopes: seq<Scope>, heldTokens: int, heldSpend: int, tokens: int, spend: int,
                                              ref: ScopeRef, k: Key, i: nat)
    requires i < |scopes| && scopes[i].ref == ref
    ensures Excess(scopes[i].keys, heldTokens, heldSpend, tokens, spend, k)
         <= ScopesExcess(scopes, heldTokens, heldSpend, tokens, spend, ref, k)
    decreases |scopes|
  {
    hide Excess;
    if i > 0 {
      ScopeExcessCounted(scopes[1..], heldTokens, heldSpend, tokens, spend, ref, k, i - 1);
    }
  }

  lemma SettledSectionSpends(db: Db, id: Id, commit: bool, tokens: int, spend: int, now: int, ref: ScopeRef, k: Key)
    requires DbInv(db, now) && FreshTickets(db, now) && id in db.tickets && Amounts(tokens, spend) && IsHeld(k)
    requires var t := db.tickets[id];
      LeasesPresent(db, t.scopes, id) && CanSettleAll(db, t.scopes, HeldTokens(t), commit, tokens, spend)
    ensures var t := db.tickets[id];
      var settled := ForScopes(db, t.scopes, Settle(id, HeldTokens(t), t.held.spend, commit, tokens, spend, now));
      Spent(Sec(settled, ref), k) <= Spent(Sec(db, ref), k) + if commit then TicketOverage(t, tokens, spend, ref, k) else 0
  {
    hide SectionsInv, SettleScope, Spent, ForScopes, Excess, CanSettle, Sec;
    var t := db.tickets[id];
    assert GoodTicket(t);
    var a := Settle(id, HeldTokens(t), t.held.spend, commit, tokens, spend, now);
    if Touches(t.scopes, ref) {
      var i :| 0 <= i < |t.scopes| && t.scopes[i].ref == ref;
      ForScopesHit(db, t.scopes, a, i);
      SectionOf(db, now, ref);
      assert TicketMatchesLease(db, id, i);
      SettleSpends(Sec(db, ref), t.scopes[i], id, HeldTokens(t), t.held.spend, commit, tokens, spend, now, BUCKET_GRACE, k);
      ScopeExcessCounted(t.scopes, HeldTokens(t), t.held.spend, tokens, spend, ref, k, i);
    } else {
      ForScopesMiss(db, t.scopes, a, ref);
    }
  }

  /** What the settlement of an ID adds beyond what it held: nothing unless it commits. */
  function SettleOverage(db: Db, id: Id, commit: bool, tokens: int, spend: int, now: int, ref: ScopeRef, k: Key): (r: int)
    ensures r >= 0
  {
    if commit && id in Sweep(db, now).tickets && SettleScript(db, id, commit, tokens, spend, now).1 == Settled
    then TicketOverage(Sweep(db, now).tickets[id], tokens, spend, ref, k) else 0
  }

  lemma SettleBudget(db: Db, before: int, id: Id, commit: bool, tokens: int, spend: int, now: int,
                     ref: ScopeRef, k: Key, limit: int, over: int)
    requires BudgetInv(db, before, ref, k, limit, over) && before <= now && Amounts(tokens, spend) && IsHeld(k)
    ensures BudgetInv(SettleScript(db, id, commit, tokens, spend, now).0, now, ref, k, limit,
                      over + SettleOverage(db, id, commit, tokens, spend, now, ref, k))
  {
    hide SectionsInv, Fixed, Spent, Sweep, ForScopes, CanSettleAll, LeasesPresent, Sec, TicketOverage;
    SettleKeepsInv(db, before, id, commit, tokens, spend, now);
    SweepBudget(db, before, now, ref, k, limit, over);
    SettledBudget(Sweep(db, now), now, ref, k, limit, over);
    var db0 := PruneSettled(Sweep(db, now), now);
    if id in db0.tickets && LeasesPresent(db0, db0.tickets[id].scopes, id) {
      var t := db0.tickets[id];
      assert GoodTicket(t);
      var a := Prune(now, Some(id));
      PruneBudget(db0, t.scopes, now, Some(id), ref, k, limit, over);
      ForScopesRest(db0, t.scopes, a);
      ProtectedStays(db0, t.scopes, id, now);
      var db1 := ForScopes(db0, t.scopes, a);
      if CanSettleAll(db1, t.scopes, HeldTokens(t), commit, tokens, spend) {
        SettledSectionSpends(db1, id, commit, tokens, spend, now, ref, k);
        var b := Settle(id, HeldTokens(t), t.held.spend, commit, tokens, spend, now);
        ForScopesRest(db1, t.scopes, b);
        OtherParts(ForScopes(db1, t.scopes, b), SettleScript(db, id, commit, tokens, spend, now).0, ref);
      }
    }
  }

  lemma OtherParts(db: Db, db': Db, ref: ScopeRef)
    ensures db'.sections == db.sections ==> Sec(db', ref) == Sec(db, ref)
  {
  }

  lemma PruneScriptBudget(db: Db, before: int, at: ScopeRef, now: int, ref: ScopeRef, k: Key, limit: int, over: int)
    requires BudgetInv(db, before, ref, k, limit, over) && before <= now && IsHeld(k)
    ensures BudgetInv(PruneScript(db, at, now).0, now, ref, k, limit, over)
  {
    hide DbInv, Fixed, Spent, Sweep, PruneSection;
    PruneScriptKeepsInv(db, before, at, now);
    SweepBudget(db, before, now, ref, k, limit, over);
    var db0 := Sweep(db, now);
    SectionOf(db0, now, at);
    PutSecAt(db0, at, PruneSection(Sec(db0, at), now, None), ref);
    PruneSpends(Sec(db0, at), now, None, k);
  }

  // --- Runs -------------------------------------------------------------------------------------------------

  // Every scope this call puts on the key has this limit for it.
  predicate FixedCall(e: Event, ref: ScopeRef, k: Key, limit: int) {
    e.call.ReserveCall? ==>
      forall i :: 0 <= i < |e.call.scopes| && e.call.scopes[i].ref == ref ==> FixedFor(e.call.scopes[i].limits, e.at, k, limit)
  }

  predicate FixedFor(limits: LimitSpec, at: Instant, k: Key, limit: int) {
    HeldKey(KeysForScope(limits, at), k) ==> KeyLimit(limits, k) == limit
  }

  lemma FixedResolved(e: Event, ref: ScopeRef, k: Key, limit: int)
    requires FixedCall(e, ref, k, limit) && e.call.ReserveCall?
    ensures Fixed(InMillis(ResolveScopes(e.call.scopes, e.at)), ref, k, limit)
  {
    hide KeysForScope, ExpiriesForLimit;
    var resolved := ResolveScopes(e.call.scopes, e.at);
    var scopes := InMillis(resolved);
    forall i | 0 <= i < |scopes| && scopes[i].ref == ref
      ensures ScopeMatchesLimit(scopes[i]) && (HeldKey(scopes[i].keys, k) ==> KeyLimit(scopes[i].limit, k) == limit)
    {
      assert ScopeMatchesLimit(resolved[i]);
    }
  }

  /** What a store call commits beyond what its ticket held. */
  function StepOverage(db: Db, e: Event, ref: ScopeRef, k: Key): (r: int)
    ensures r >= 0
  {
    if e.call.CommitCall? && e.call.id != 0 && ValidateActual(e.call.actual).Some?
    then
      var v := ValidateActual(e.call.actual).value;
      SettleOverage(db, e.call.id, true, ActualTokens(v), v.spend, Millis(e.at.ns), ref, k)
    else 0
  }

  function RunOverage(db: Db, es: seq<Event>, ref: ScopeRef, k: Key): (r: int)
    ensures r >= 0
    decreases |es|
  {
    if es == [] then 0 else StepOverage(db, es[0], ref, k) + RunOverage(Step(db, es[0]).0, es[1..], ref, k)
  }

  lemma LaterBudget(db: Db, before: int, now: int, ref: ScopeRef, k: Key, limit: int, over: int)
    requires BudgetInv(db, before, ref, k, limit, over) && before <= now
    ensures BudgetInv(db, now, ref, k, limit, over)
  {
    hide DbInv;
    SameDbLater(db, before, now);
  }

  lemma StepBudget(db: Db, before: int, e: Event, ref: ScopeRef, k: Key, limit: int, over: int)
    requires BudgetInv(db, before, ref, k, limit, over) && before <= Millis(e.at.ns) && GoodCall(e.call)
    requires FixedCall(e, ref, k, limit) && IsHeld(k) && limit > 0 && over >= 0
    ensures BudgetInv(Step(db, e).0, Millis(e.at.ns), ref, k, limit, over + StepOverage(db, e, ref, k))
  {
    hide BudgetInv, ReserveScript, TopUpScript, SettleScript, PruneScript, Fixed, SettleOverage;
    var now := Millis(e.at.ns);
    LaterBudget(db, before, now, ref, k, limit, over);
    match e.call
    case ReserveCall(id, scopes, estimate, ttl) =>
      var v := ValidateEstimate(estimate);
      if v.Some? && id != 0 {
        ResolvedScopesAreGood(scopes, e.at);
        FixedResolved(e, ref, k, limit);
        ReserveBudget(db, before, InMillis(ResolveScopes(scopes, e.at)), v.value, id, Fingerprint(scopes, v.value),
                      now, ScriptTtl(ttl), ReserveMinuteTtl(e.at.ns), ref, k, limit, over);
      }
    case TopUpCall(id, delta, ttl) =>
      var v := ValidateEstimate(delta);
      if v.Some? && id != 0 {
        TopUpBudget(db, before, id, EstimatedTokens(v.value), v.value.spend, now, ScriptTtl(ttl), ref, k, limit, over);
      }
    case CommitCall(id, actual) =>
      var v := ValidateActual(actual);
      if v.Some? && id != 0 {
        SettleBudget(db, before, id, true, ActualTokens(v.value), v.value.spend, now, ref, k, limit, over);
      }
    case RefundCall(id) =>
      if id != 0 {
        SettleBudget(db, before, id, false, 0, 0, now, ref, k, limit, over);
        RefundAddsNothing(db, id, now, ref, k);
      }
    case UsageCall(at) => PruneScriptBudget(db, before, at, now, ref, k, limit, over);
  }

  lemma RefundAddsNothing(db: Db, id: Id, now: int, ref: ScopeRef, k: Key)
    ensures SettleOverage(db, id, false, 0, 0, now, ref, k) == 0
  {
    hide SettleScript, Sweep;
  }

  lemma {:induction false} RunBudget(db: Db, from: int, es: seq<Event>, ref: ScopeRef, k: Key, limit: int, over: int)
    requires BudgetInv(db, from, ref, k, limit, over) && InOrder(es, from) && IsHeld(k) && limit > 0 && over >= 0
    requires forall i :: 0 <= i < |es| ==> FixedCall(es[i], ref, k, limit)
    ensures BudgetInv(Run(db, es), Clock(es, from), ref, k, limit, over + RunOverage(db, es, ref, k))
    decreases |es|
  {
    hide BudgetInv, Step, StepOverage, FixedCall;
    if es != [] {
      var e, rest := es[0], es[1..];
      StepBudget(db, from, e, ref, k, limit, over);
      assert InOrder(rest, Millis(e.at.ns)) by {
        forall i | 0 <= i < |rest|
          ensures Millis(e.at.ns) <= Millis(rest[i].at.ns) && GoodCall(rest[i].call)
        {
          assert rest[i] == es[i + 1];
        }
      }
      RunBudget(Step(db, e).0, Millis(e.at.ns), rest, ref, k, limit, over + StepOverage(db, e, ref, k));
    }
  }

  lemma EmptyBudget(ref: ScopeRef, k: Key, limit: int)
    requires limit >= 0
    ensures BudgetInv(EMPTY_DB, 0, ref, k, limit, 0)
  {
    hide DbInv;
    EmptyInv(0);
  }

  /** Over every run of the quota scripts in which a key keeps one limit,
      committed plus held usage on it never exceeds the limit plus the overage of
      commits that used more than their ticket held. */
  lemma RedisBudgetNeverExceeded(es: seq<Event>, ref: ScopeRef, k: Key, limit: int)
    requires InOrder(es, 0) && IsHeld(k) && limit > 0
    requires forall i :: 0 <= i < |es| ==> FixedCall(es[i], ref, k, limit)
    ensures Spent(Sec(Run(EMPTY_DB, es), ref), k) <= limit + RunOverage(EMPTY_DB, es, ref, k)
  {
    hide Run, RunOverage, FixedCall, Spent, DbInv, Sec;
    EmptyBudget(ref, k, limit);
    RunBudget(EMPTY_DB, 0, es, ref, k, limit, 0);
  }

  lemma {:induction false} NoParallelExcess(scopes: seq<Scope>, heldTokens: int, heldSpend: int, tokens: int, spend: int, ref: ScopeRef)
    ensures ScopesExcess(scopes, heldTokens, heldSpend, tokens, spend, ref, Active) == 0
    decreases |scopes|
  {
    if scopes != [] {
      NoParallelExcess(scopes[1..], heldTokens, heldSpend, tokens, spend, ref);
    }
  }

  lemma NoParallelOverage(db: Db, e: Event, ref: ScopeRef)
    ensures StepOverage(db, e, ref, Active) == 0
  {
    hide SettleScript, Sweep, ScopesExcess;
    if e.call.CommitCall? && ValidateActual(e.call.actual).Some? {
      var v, now := ValidateActual(e.call.actual).value, Millis(e.at.ns);
      if e.call.id in Sweep(db, now).tickets {
        var t := Sweep(db, now).tickets[e.call.id];
        NoParallelExcess(t.scopes, HeldTokens(t), t.held.spend, ActualTokens(v), v.spend, ref);
      }
    }
  }

  lemma {:induction false} NoParallelRunOverage(db: Db, es: seq<Event>, ref: ScopeRef)
    ensures RunOverage(db, es, ref, Active) == 0
    decreases |es|
  {
    hide StepOverage, Step;
    if es != [] {
      NoParallelOverage(db, es[0], ref);
      NoParallelRunOverage(Step(db, es[0]).0, es[1..], ref);
    }
  }

  /** A fixed parallel limit is never exceeded, neither by the counter nor by
      the leases that are live on it. */
  lemma RedisParallelLimitHolds(es: seq<Event>, ref: ScopeRef, limit: int)
    requires InOrder(es, 0) && limit > 0
    requires forall i :: 0 <= i < |es| ==> FixedCall(es[i], ref, Active, limit)
    ensures var sec := Sec(Run(EMPTY_DB, es), ref);
      LiveHeldOn(sec, Active, Clock(es, 0)) <= Val(sec.counters, Active) <= limit
  {
    hide Run, RunOverage, FixedCall, LiveHeldOn;
    NoParallelRunOverage(EMPTY_DB, es, ref);
    RedisBudgetNeverExceeded(es, ref, Active, limit);
    HeldCountersNeverFallShort(es, ref, Active);
    CountersStayInRange(es, ref, NoKey);
  }
}
