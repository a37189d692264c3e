/** Request rates of the Redis ledger over whole runs: the request counter of a
    minute is exactly the number of tickets made in it, and never past its limit. */
module RedisRateRuns {
  import opened QuotaTypes
  import opened RedisLedger
  import opened RedisInvariant
  import opened RedisHolds
  import opened RedisRuns
  import opened RedisRates
  import S = RedisSettlements

  /** The last millisecond of a minute. */
  function LastMillis(minute: int): int { (minute + 1) * 60_000 - 1 }

  /** The request counter stands at n and lasts to the end of the minute. */
  predicate Counted(sec: Section, minute: int, n: nat) {
    var k := Rpm(minute);
    if n == 0 then k !in sec.counters
    else k in sec.counters && sec.counters[k].value == n
         && (sec.counters[k].expireAt.None? || LastMillis(minute) <= sec.counters[k].expireAt.value)
  }

  // --- What leaves the counter alone ------------------------------------------------------------------

  lemma SameCounted(sec: Section, sec': Section, minute: int, n: nat)
    requires Counted(sec, minute, n) && SameAt(sec.counters, sec'.counters, Rpm(minute))
    ensures Counted(sec', minute, n)
  {
  }

  lemma SweepCounted(db: Db, now: int, ref: ScopeRef, minute: int, n: nat)
    requires Counted(Sec(db, ref), minute, n) && now <= LastMillis(minute)
    ensures Counted(Sec(Sweep(db, now), ref), minute, n)
  {
    hide Sweep, Sec;
    SweepAt(db, now, ref);
  }

  lemma PruneCounted(db: Db, scopes: seq<Scope>, now: int, protected: Option<Id>, ref: ScopeRef, minute: int, n: nat)
    requires SectionsInv(db, now) && DistinctRefs(scopes) && Counted(Sec(db, ref), minute, n)
    ensures Counted(Sec(ForScopes(db, scopes, Prune(now, protected)), ref), minute, n)
  {
    hide ForScopes, PruneSection, SectionInv, Counted, Sec;
    if Touches(scopes, ref) {
      var i :| 0 <= i < |scopes| && scopes[i].ref == ref;
      assert SectionInv(Sec(db, ref), now);
      ForScopesHit(db, scopes, Prune(now, protected), i);
      PruneKeepsUsed(Sec(db, ref), now, protected, Rpm(minute));
      SameCounted(Sec(db, ref), PruneSection(Sec(db, ref), now, protected), minute, n);
    } else {
      ForScopesMiss(db, scopes, Prune(now, protected), ref);
    }
  }

  lemma ToppedCounted(db: Db, scopes: seq<Scope>, id: Id, tokens: int, spend: int, now: int, ttl: int, ref: ScopeRef, minute: int, n: nat)
    requires GoodScopes(scopes) && Counted(Sec(db, ref), minute, n)
    ensures Counted(Sec(ForScopes(db, scopes, TopUp(id, tokens, spend, now, ttl)), ref), minute, n)
  {
    hide ForScopes, TopUpScope, Counted, Sec, PutLease, ToppedCounters;
    var a := TopUp(id, tokens, spend, now, ttl);
    if Touches(scopes, ref) {
      var i :| 0 <= i < |scopes| && scopes[i].ref == ref;
      var sec := Sec(db, ref);
      ForScopesHit(db, scopes, a, i);
      if id in Fields(sec) {
        TopUpScopeShape(sec, scopes[i], id, tokens, spend, now, ttl);
        ToppedCountersAt(sec.counters, scopes[i].keys, tokens, spend, now, ttl, Rpm(minute));
        SameCounted(sec, TopUpScope(sec, scopes[i], id, tokens, spend, now, ttl), minute, n);
      }
    } else {
      ForScopesMiss(db, scopes, a, ref);
    }
  }

  // --- Settling, counter by counter ------------------------------------------------------------------------

  /** A minute counter in which the tokens really used take the place of the
      tokens held: lowered by the difference, or raised if it still counts. */
  predicate ReplacedAt(c: map<Key, Counter>, c': map<Key, Counter>, k: Key, held: int, used: int) {
    if held > used then LosesAt(c, c', k, held - used)
    else if used > held && k in c then k in c' && c'[k] == c[k].(value := c[k].value + used - held)
    else SameAt(c, c', k)
  }

  lemma MinuteReplaced(c: map<Key, Counter>, k: Key, held: int, used: int)
    requires GoodCounters(c) && k != NoKey
    ensures ReplacedAt(c, SettleMinute(c, k, held, used), k, held, used)
  {
  }

  lemma SettleCountersElse(c: map<Key, Counter>, scope: Scope, heldTokens: int, heldSpend: int,
                           commit: bool, tokens: int, spend: int, now: int, grace: int, k: Key)
    requires GoodKeys(scope.keys) && GoodCounters(c) && (k.Rpm? || k.Tpm?)
    requires CanSettle(c, scope.keys, heldTokens, commit, tokens, spend) && Amounts(tokens, spend) && 0 <= heldTokens
    ensures var c' := SettleCounters(c, scope, heldTokens, heldSpend, commit, tokens, spend, now, grace);
      if k == scope.keys.tpm then ReplacedAt(c, c', k, heldTokens, if commit then tokens else 0) else SameAt(c, c', k)
  {
    hide SettleMinute, ReleaseHeld, CommitUsed, CanSettle;
    var used := if commit then tokens else 0;
    var c1 := SettleMinute(c, scope.keys.tpm, heldTokens, used);
    MinuteStaysGood(c, scope, heldTokens, commit, tokens, spend);
    if k == scope.keys.tpm {
      MinuteReplaced(c, k, heldTokens, used);
    } else {
      SettleMinuteAt(c, scope.keys.tpm, heldTokens, used, k);
    }
    var c2 := ReleaseHeld(c1, scope.keys, heldTokens, heldSpend);
    ReleaseHeldAt(c1, scope.keys, heldTokens, heldSpend, k);
    CommitUsedAt(c2, scope, tokens, spend, now, grace, k);
  }

  lemma MinuteStaysGood(c: map<Key, Counter>, scope: Scope, heldTokens: int, commit: bool, tokens: int, spend: int)
    requires GoodKeys(scope.keys) && GoodCounters(c) && CanSettle(c, scope.keys, heldTokens, commit, tokens, spend)
    requires Amounts(tokens, spend) && 0 <= heldTokens
    ensures GoodCounters(SettleMinute(c, scope.keys.tpm, heldTokens, if commit then tokens else 0))
  {
    SettleMinuteGood(c, scope.keys.tpm, heldTokens, if commit then tokens else 0);
  }

  lemma SettledCounted(db: Db, id: Id, commit: bool, tokens: int, spend: int, now: int, ref: ScopeRef, minute: int, n: nat)
    requires DbInv(db, now) && id in db.tickets && Amounts(tokens, spend) && Counted(Sec(db, ref), minute, n)
    requires var t := db.tickets[id]; CanSettleAll(db, t.scopes, HeldTokens(t), commit, tokens, spend)
    ensures var t := db.tickets[id];
      Counted(Sec(ForScopes(db, t.scopes, Settle(id, HeldTokens(t), t.held.spend, commit, tokens, spend, now)), ref), minute, n)
  {
    hide ForScopes, SettleScope, Counted, Sec, SectionInv, TicketMatchesLease, LeaseHasTicket, CanSettle;
    var t := db.tickets[id];
    var a := Settle(id, HeldTokens(t), t.held.spend, commit, tokens, spend, now);
    assert GoodTicket(t);
    if Touches(t.scopes, ref) {
      var i :| 0 <= i < |t.scopes| && t.scopes[i].ref == ref;
      var sec := Sec(db, ref);
      assert SectionInv(sec, now);
      InvSynced(sec, now);
      ForScopesHit(db, t.scopes, a, i);
      assert CanSettle(sec.counters, t.scopes[i].keys, HeldTokens(t), commit, tokens, spend);
      SettledSectionCounted(sec, t.scopes[i], id, HeldTokens(t), t.held.spend, commit, tokens, spend, now, minute, n);
    } else {
      ForScopesMiss(db, t.scopes, a, ref);
    }
  }

  lemma SettledSectionCounted(sec: Section, scope: Scope, id: Id, heldTokens: int, heldSpend: int,
                              commit: bool, tokens: int, spend: int, now: int, minute: int, n: nat)
    requires GoodKeys(scope.keys) && GoodCounters(sec.counters) && Counted(sec, minute, n)
    requires CanSettle(sec.counters, scope.keys, heldTokens, commit, tokens, spend) && Amounts(tokens, spend) && 0 <= heldTokens
    ensures Counted(SettleScope(sec, scope, id, heldTokens, heldSpend, commit, tokens, spend, now, BUCKET_GRACE), minute, n)
  {
    hide SettleCounters, CanSettle, Counted;
    SettleCountersElse(sec.counters, scope, heldTokens, heldSpend, commit, tokens, spend, now, BUCKET_GRACE, Rpm(minute));
    SameCounted(sec, SettleScope(sec, scope, id, heldTokens, heldSpend, commit, tokens, spend, now, BUCKET_GRACE), minute, n);
  }

  // --- A new request ------------------------------------------------------------------------------------

  lemma AddExpiringUntil(c: map<Key, Counter>, at: Key, d: int, until: int, k: Key)
    requires k != NoKey
    ensures var c' := AddExpiring(c, at, d, until);
      if at == k then k in c' && c'[k] == Counter(Val(c, k) + d, Some(until)) else SameAt(c, c', k)
  {
  }

  /** The request and token counters a reserve raises expire with the minute. */
  lemma MinuteCountersExpire(c: map<Key, Counter>, keys: QuotaKeys, tokens: int, spend: int,
                             now: int, ttl: int, minuteTtl: int, k: Key)
    requires GoodKeys(keys) && k != NoKey && (k == keys.rpm || k == keys.tpm)
    ensures var c' := HeldCounters(c, keys, tokens, spend, now, ttl, minuteTtl);
      k in c' && c'[k] == Counter(Val(c, k) + (if k == keys.rpm then 1 else tokens), Some(now + minuteTtl))
  {
    hide AddHold, AddExpiring, RenewHeld, BudgetCounters;
    var c1 := AddHold(c, keys.active, 1);
    var c2 := AddExpiring(c1, keys.rpm, 1, now + minuteTtl);
    var c3 := AddExpiring(c2, keys.tpm, tokens, now + minuteTtl);
    AddHoldAt(c, keys.active, 1, k);
    AddExpiringUntil(c1, keys.rpm, 1, now + minuteTtl, k);
    AddExpiringUntil(c2, keys.tpm, tokens, now + minuteTtl, k);
    BudgetCountersAt(c3, keys, tokens, spend, k);
    RenewHeldAt(BudgetCounters(c3, keys, tokens, spend), keys, now, now + ttl, k);
  }

  lemma MinuteLasts(ns: int)
    ensures LastMillis(ns / 60_000_000_000) <= Millis(ns) + ReserveMinuteTtl(ns)
    ensures Millis(ns) <= LastMillis(ns / 60_000_000_000)
  {
  }

  predicate Requested(scopes: seq<Scope>, ref: ScopeRef, minute: int) {
    exists i :: 0 <= i < |scopes| && scopes[i].ref == ref && scopes[i].keys.rpm == Rpm(minute)
  }

  // A hold counts one request more on its own minute and leaves other minutes alone.
  lemma HeldCounted(db: Db, scopes: seq<Scope>, id: Id, tokens: int, spend: int, now: int, ttl: int, minuteTtl: int,
                    ref: ScopeRef, minute: int, n: nat)
    requires GoodScopes(scopes) && Counted(Sec(db, ref), minute, n)
    requires Requested(scopes, ref, minute) ==> LastMillis(minute) <= now + minuteTtl
    ensures Counted(Sec(ForScopes(db, scopes, Hold(id, tokens, spend, now, ttl, minuteTtl)), ref), minute,
                    n + if Requested(scopes, ref, minute) then 1 else 0)
  {
    hide ForScopes, HoldScope, PutLease, HeldCounters, Sec;
    var a, k := Hold(id, tokens, spend, now, ttl, minuteTtl), Rpm(minute);
    if Touches(scopes, ref) {
      var i :| 0 <= i < |scopes| && scopes[i].ref == ref;
      var sec := Sec(db, ref);
      ForScopesHit(db, scopes, a, i);
      HoldScopeShape(sec, scopes[i], id, tokens, spend, now, ttl, minuteTtl);
      HeldCountersAt(sec.counters, scopes[i].keys, tokens, spend, now, ttl, minuteTtl, k);
      if scopes[i].keys.rpm == k {
        MinuteCountersExpire(sec.counters, scopes[i].keys, tokens, spend, now, ttl, minuteTtl, k);
      }
    } else {
      ForScopesMiss(db, scopes, a, ref);
    }
  }

  // --- Scripts ---------------------------------------------------------------------------------------------

  lemma LooksCounted(db: Db, before: int, scopes: seq<Scope>, now: int, ref: ScopeRef, minute: int, n: nat)
    requires DbInv(db, before) && before <= now && DistinctRefs(scopes) && Counted(Sec(db, ref), minute, n) && now <= LastMillis(minute)
    ensures Counted(Sec(ReservePruned(db, scopes, now), ref), minute, n)
  {
    hide DbInv, ForScopes, Sweep, Counted, Sec;
    SweepDbInv(db, before, now);
    OfSections(Sweep(db, now), now);
    SweepCounted(db, now, ref, minute, n);
    PruneCounted(Sweep(db, now), scopes, now, None, ref, minute, n);
    var pruned := ForScopes(Sweep(db, now), scopes, Prune(now, None));
    PruneDbInv(Sweep(db, now), scopes, now, None);
    PruneSettledInv(pruned, now);
  }

  lemma TopUpCounted(db: Db, before: int, id: Id, tokens: int, spend: int, now: int, ttl: int, ref: ScopeRef, minute: int, n: nat)
    requires DbInv(db, before) && before <= now && Amounts(tokens, spend) && Counted(Sec(db, ref), minute, n) && now <= LastMillis(minute)
    ensures Counted(Sec(TopUpScript(db, id, tokens, spend, now, ttl).0, ref), minute, n)
  {
    hide DbInv, ForScopes, Sweep, Counted, CheckTopUpAll, GoodScopes;
    var db0 := Sweep(db, now);
    SweepDbInv(db, before, now);
    SweepCounted(db, now, ref, minute, n);
    if id in db0.tickets {
      var t := db0.tickets[id];
      TicketIsGood(db0, id, now);
      OfSections(db0, now);
      GoodIsDistinct(t.scopes);
      PruneCounted(db0, t.scopes, now, Some(id), ref, minute, n);
      ToppedCounted(ForScopes(db0, t.scopes, Prune(now, Some(id))), t.scopes, id, tokens, spend, now, ttl, ref, minute, n);
    }
  }

  lemma GoodIsDistinct(scopes: seq<Scope>)
    requires GoodScopes(scopes)
    ensures DistinctRefs(scopes)
  {
  }

  lemma SettleCounted(db: Db, before: int, id: Id, commit: bool, tokens: int, spend: int, now: int, ref: ScopeRef, minute: int, n: nat)
    requires DbInv(db, before) && before <= now && Amounts(tokens, spend) && Counted(Sec(db, ref), minute, n) && now <= LastMillis(minute)
    ensures Counted(Sec(SettleScript(db, id, commit, tokens, spend, now).0, ref), minute, n)
  {
    hide DbInv, ForScopes, Sweep, Counted, LeasesPresent, CanSettleAll, GoodScopes;
    SweepDbInv(db, before, now);
    SweepCounted(db, now, ref, minute, n);
    PruneSettledInv(Sweep(db, now), now);
    var db0 := PruneSettled(Sweep(db, now), now);
    if id in db0.tickets {
      var t := db0.tickets[id];
      TicketIsGood(db0, id, now);
      OfSections(db0, now);
      GoodIsDistinct(t.scopes);
      PruneCounted(db0, t.scopes, now, Some(id), ref, minute, n);
      PruneDbInv(db0, t.scopes, now, Some(id));
      var db1 := ForScopes(db0, t.scopes, Prune(now, Some(id)));
      ForScopesRest(db0, t.scopes, Prune(now, Some(id)));
      if CanSettleAll(db1, t.scopes, HeldTokens(t), commit, tokens, spend) {
        SettledCounted(db1, id, commit, tokens, spend, now, ref, minute, n);
      }
    }
  }

  lemma UsageCounted(db: Db, before: int, at: ScopeRef, now: int, ref: ScopeRef, minute: int, n: nat)
    requires DbInv(db, before) && before <= now && Counted(Sec(db, ref), minute, n) && now <= LastMillis(minute)
    ensures Counted(Sec(PruneScript(db, at, now).0, ref), minute, n)
  {
    hide DbInv, Sweep, Counted, PruneSection, SectionInv;
    var db0 := Sweep(db, now);
    SweepDbInv(db, before, now);
    SweepCounted(db, now, ref, minute, n);
    OfSections(db0, now);
    SectionOf(db0, ref, now);
    PutSecAt(db0, at, PruneSection(Sec(db0, at), now, None), ref);
    PruneKeepsUsed(Sec(db0, ref), now, None, Rpm(minute));
    SameCounted(Sec(db0, ref), PruneSection(Sec(db0, ref), now, None), minute, n);
  }

  // --- Calls and runs ------------------------------------------------------------------------------------

  /** A reserve that makes a ticket on the scope within the minute. */
  predicate MakesRequest(db: Db, e: Event, ref: ScopeRef, minute: int) {
    && S.ValidReserve(e) && S.Admits(db, e, e.call.id) && e.at.ns / 60_000_000_000 == minute
    && exists i :: 0 <= i < |e.call.scopes| && e.call.scopes[i].ref == ref
  }

  function Requests(db: Db, es: seq<Event>, ref: ScopeRef, minute: int): nat
    decreases |es|
  {
    if es == [] then 0 else (if MakesRequest(db, es[0], ref, minute) then 1 else 0) + Requests(Step(db, es[0]).0, es[1..], ref, minute)
  }

  predicate FixedRpm(e: Event, ref: ScopeRef, limit: int) {
    e.call.ReserveCall? ==> forall i :: 0 <= i < |e.call.scopes| && e.call.scopes[i].ref == ref ==> e.call.scopes[i].limits.rpm == limit
  }

  lemma RequestedIff(e: Event, ref: ScopeRef, minute: int, limit: int)
    requires e.call.ReserveCall? && FixedRpm(e, ref, limit) && limit > 0
    ensures Requested(InMillis(ResolveScopes(e.call.scopes, e.at)), ref, minute)
      <==> e.at.ns / 60_000_000_000 == minute && exists i :: 0 <= i < |e.call.scopes| && e.call.scopes[i].ref == ref
  {
    var scopes := InMillis(ResolveScopes(e.call.scopes, e.at));
    if i :| 0 <= i < |e.call.scopes| && e.call.scopes[i].ref == ref {
      assert scopes[i].ref == ref && scopes[i].keys.rpm == Rpm(e.at.ns / 60_000_000_000);
    }
    if i :| 0 <= i < |scopes| && scopes[i].ref == ref {
      assert e.call.scopes[i].ref == ref;
    }
  }

  lemma ReserveStepCounted(db: Db, before: int, e: Event, ref: ScopeRef, minute: int, limit: int, n: nat)
    requires DbInv(db, before) && before <= Millis(e.at.ns) <= LastMillis(minute) && GoodCall(e.call) && S.ValidReserve(e)
    requires FixedRpm(e, ref, limit) && limit > 0 && Counted(Sec(db, ref), minute, n)
    ensures Counted(Sec(Step(db, e).0, ref), minute, n + if MakesRequest(db, e, ref, minute) then 1 else 0)
  {
    hide DbInv, ForScopes, ReservePruned, Counted, ValidateEstimate, GoodScopes, CheckReserveAll, Requested, FixedRpm, LastMillis, ResolveScopes, InMillis, Sec;
    var v, scopes := ValidateEstimate(e.call.estimate).value, InMillis(ResolveScopes(e.call.scopes, e.at));
    ResolvedScopesAreGood(e.call.scopes, e.at);
    GoodIsDistinct(scopes);
    LooksCounted(db, before, scopes, Millis(e.at.ns), ref, minute, n);
    RequestedIff(e, ref, minute, limit);
    MinuteLasts(e.at.ns);
    if S.Admits(db, e, e.call.id) {
      ReservedSection(db, e, ref);
      HeldCounted(Looks(db, e), scopes, e.call.id, EstimatedTokens(v), v.spend, Millis(e.at.ns), ScriptTtl(e.call.ttl),
                  ReserveMinuteTtl(e.at.ns), ref, minute, n);
    } else {
      NothingReserved(db, e);
    }
  }

  lemma NothingReserved(db: Db, e: Event)
    requires S.ValidReserve(e) && !S.Admits(db, e, e.call.id)
    ensures Step(db, e).0 == Looks(db, e)
  {
    hide ReservePruned, CheckReserveAll, ForScopes, ResolveScopes, InMillis, ValidateEstimate;
  }

  lemma StepCounted(db: Db, before: int, e: Event, ref: ScopeRef, minute: int, limit: int, n: nat)
    requires DbInv(db, before) && before <= Millis(e.at.ns) <= LastMillis(minute) && GoodCall(e.call)
    requires FixedRpm(e, ref, limit) && limit > 0 && Counted(Sec(db, ref), minute, n)
    ensures Counted(Sec(Step(db, e).0, ref), minute, n + if MakesRequest(db, e, ref, minute) then 1 else 0)
  {
    hide DbInv, Counted, ReserveScript, TopUpScript, SettleScript, PruneScript, ValidateEstimate, ValidateActual, FixedRpm, LastMillis, Sec, S.Admits, Millis;
    var now := Millis(e.at.ns);
    if S.ValidReserve(e) {
      ReserveStepCounted(db, before, e, ref, minute, limit, n);
    } else {
      match e.call
      case ReserveCall(id, scopes, estimate, ttl) =>
      case TopUpCall(id, delta, ttl) =>
        var v := ValidateEstimate(delta);
        if v.Some? {
          TopUpCounted(db, before, id, EstimatedTokens(v.value), v.value.spend, now, ScriptTtl(ttl), ref, minute, n);
        }
      case CommitCall(id, actual) =>
        var v := ValidateActual(actual);
        if v.Some? {
          SettleCounted(db, before, id, true, ActualTokens(v.value), v.value.spend, now, ref, minute, n);
        }
      case RefundCall(id) => SettleCounted(db, before, id, false, 0, 0, now, ref, minute, n);
      case UsageCall(at) => UsageCounted(db, before, at, now, ref, minute, n);
    }
  }

  lemma RequestWithin(db: Db, before: int, e: Event, ref: ScopeRef, minute: int, limit: int, n: nat)
    requires DbInv(db, before) && before <= Millis(e.at.ns) <= LastMillis(minute) && GoodCall(e.call)
    requires FixedRpm(e, ref, limit) && limit > 0 && Counted(Sec(db, ref), minute, n) && MakesRequest(db, e, ref, minute)
    ensures n + 1 <= limit
  {
    hide DbInv, ReservePruned, ValidateEstimate, GoodScopes, ResolveScopes, InMillis, Sec, S.Admits, LastMillis, Step;
    var i :| 0 <= i < |e.call.scopes| && e.call.scopes[i].ref == ref;
    var scopes := InMillis(ResolveScopes(e.call.scopes, e.at));
    ResolvedScopesAreGood(e.call.scopes, e.at);
    GoodIsDistinct(scopes);
    LooksCounted(db, before, scopes, Millis(e.at.ns), ref, minute, n);
    ReserveWithin(db, before, e, i);
  }

  predicate Steady(es: seq<Event>, ref: ScopeRef, limit: int) { forall i :: 0 <= i < |es| ==> FixedRpm(es[i], ref, limit) }

  lemma OrderedRest(es: seq<Event>, from: int)
    requires InOrder(es, from) && es != []
    ensures from <= Millis(es[0].at.ns) && GoodCall(es[0].call) && InOrder(es[1..], Millis(es[0].at.ns))
    ensures Clock(es[1..], Millis(es[0].at.ns)) == Clock(es, from)
  {
    var rest := es[1..];
    forall i | 0 <= i < |rest|
      ensures Millis(es[0].at.ns) <= Millis(rest[i].at.ns) && GoodCall(rest[i].call)
    {
      assert rest[i] == es[i + 1];
    }
    assert rest != [] ==> rest[|rest| - 1] == es[|es| - 1];
  }

  lemma {:induction false} RunCounts(db: Db, from: int, es: seq<Event>, ref: ScopeRef, minute: int, limit: int, n: nat)
    requires DbInv(db, from) && InOrder(es, from) && Steady(es, ref, limit) && limit > 0 && n <= limit
    requires from <= LastMillis(minute) ==> Counted(Sec(db, ref), minute, n)
    ensures n + Requests(db, es, ref, minute) <= limit
    ensures Clock(es, from) <= LastMillis(minute) ==> Counted(Sec(Run(db, es), ref), minute, n + Requests(db, es, ref, minute))
    decreases |es|
  {
    hide DbInv, Step, Counted, MakesRequest, FixedRpm, Sec, LastMillis, InOrder, Clock, Millis, GoodCall;
    if es == [] {
      ClockStarts(from);
    } else {
      var e, rest := es[0], es[1..];
      OrderedRest(es, from);
      StepKeepsInv(db, from, e);
      var now := Millis(e.at.ns);
      if now <= LastMillis(minute) {
        StepCounted(db, from, e, ref, minute, limit, n);
        if MakesRequest(db, e, ref, minute) {
          RequestWithin(db, from, e, ref, minute, limit, n);
        }
      } else {
        NoRequest(db, e, ref, minute);
      }
      RunCounts(Step(db, e).0, now, rest, ref, minute, limit, n + if MakesRequest(db, e, ref, minute) then 1 else 0);
    }
  }

  lemma ClockStarts(from: int)
    ensures Clock([], from) == from
  {
  }

  lemma NoRequest(db: Db, e: Event, ref: ScopeRef, minute: int)
    requires Millis(e.at.ns) > LastMillis(minute)
    ensures !MakesRequest(db, e, ref, minute)
  {
    hide S.Admits;
    MinuteLasts(e.at.ns);
  }

  /** Over every run on a forward clock, with one request limit on a scope: no
      more tickets are made on it in a minute than the limit allows, and within the
      minute its counter is exactly the number of tickets made. */
  lemma RedisRequestRateHolds(es: seq<Event>, ref: ScopeRef, minute: int, limit: int)
    requires InOrder(es, 0) && Steady(es, ref, limit) && limit > 0
    ensures Requests(EMPTY_DB, es, ref, minute) <= limit
    ensures Clock(es, 0) < (minute + 1) * 60_000 ==>
      Val(Sec(Run(EMPTY_DB, es), ref).counters, Rpm(minute)) == Requests(EMPTY_DB, es, ref, minute)
  {
    hide DbInv, Run, Requests, Steady;
    EmptyInv(0);
    RunCounts(EMPTY_DB, 0, es, ref, minute, limit, 0);
  }
}
