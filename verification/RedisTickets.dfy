/** Tickets of the Redis ledger: how long they live, what a replayed reserve is
    answered, when a settlement is refused and exactly what it books. */
module RedisTickets {
  import opened QuotaTypes
  import opened MapSums
  import opened RedisLedger
  import opened RedisInvariant
  import opened RedisHolds
  import opened RedisRuns
  import opened RedisRates
  import B = RedisBudgets
  import C = RedisRateRuns
  import S = RedisSettlements

  // --- What a settlement books -------------------------------------------------------------------------

  /** Settling a live lease books exactly: each held counter gives back what the
      lease held, each used counter takes what was committed, and in the minute
      counter the tokens used take the place of the tokens held. */
  lemma SettlementBooks(sec: Section, scope: Scope, id: Id, heldTokens: int, heldSpend: int,
                        commit: bool, tokens: int, spend: int, now: int, k: Key)
    requires SectionInv(sec, now) && id in Fields(sec) && id in Scores(sec) && now <= Scores(sec)[id]
    requires Fields(sec)[id] == LeaseFor(scope.keys, heldTokens, heldSpend)
    requires GoodKeys(scope.keys) && Amounts(tokens, spend) && 0 <= heldTokens
    requires CanSettle(sec.counters, scope.keys, heldTokens, commit, tokens, spend)
    ensures var c, c' := sec.counters, SettleScope(sec, scope, id, heldTokens, heldSpend, commit, tokens, spend, now, BUCKET_GRACE).counters;
      && (k.Active? ==> Val(c', k) == Val(c, k) - if k == scope.keys.active then 1 else 0)
      && (k.SpendHeld? ==> Val(c', k) == Val(c, k) - if k == scope.keys.spendHeld then heldSpend else 0)
      && (k.DayHeld? ==> Val(c', k) == Val(c, k) - if k == scope.keys.dayHeld then heldTokens else 0)
      && (k.MonthHeld? ==> Val(c', k) == Val(c, k) - if k == scope.keys.monthHeld then heldTokens else 0)
      && (k.SpendUsed? ==> Val(c', k) == Val(c, k) + if commit && k == scope.keys.spendUsed then spend else 0)
      && (k.DayUsed? ==> Val(c', k) == Val(c, k) + if commit && k == scope.keys.dayUsed then tokens else 0)
      && (k.MonthUsed? ==> Val(c', k) == Val(c, k) + if commit && k == scope.keys.monthUsed then tokens else 0)
      && (k.Rpm? ==> SameAt(c, c', k))
      && (k.Tpm? ==> if k == scope.keys.tpm then C.ReplacedAt(c, c', k, heldTokens, if commit then tokens else 0) else SameAt(c, c', k))
  {
    hide SettleCounters, CanSettle, SectionInv, C.ReplacedAt, SameAt;
    InvSynced(sec, now);
    if IsHeld(k) {
      B.LiveLeaseCovered(sec, id, now, k);
      SettleCountersAt(sec.counters, scope, heldTokens, heldSpend, commit, tokens, spend, now, BUCKET_GRACE, k);
      LostExactly(sec.counters, SettleCounters(sec.counters, scope, heldTokens, heldSpend, commit, tokens, spend, now, BUCKET_GRACE), k,
                  LeaseHold(LeaseFor(scope.keys, heldTokens, heldSpend), k));
    } else if k.Rpm? || k.Tpm? {
      C.SettleCountersElse(sec.counters, scope, heldTokens, heldSpend, commit, tokens, spend, now, BUCKET_GRACE, k);
      MinuteKeys(scope.keys);
    } else if k != NoKey {
      B.UsedAfterSettle(sec.counters, scope, heldTokens, heldSpend, commit, tokens, spend, now, BUCKET_GRACE, k);
    }
  }

  lemma LostExactly(c: map<Key, Counter>, c': map<Key, Counter>, k: Key, h: int)
    requires LosesAt(c, c', k, h) && 0 <= h <= Val(c, k)
    ensures Val(c', k) == Val(c, k) - h
  {
  }

  lemma MinuteKeys(keys: QuotaKeys)
    requires GoodKeys(keys)
    ensures !keys.tpm.Rpm?
  {
  }

  lemma AddUsedExpires(c: map<Key, Counter>, at: Key, amount: int, until: int, now: int, k: Key)
    requires k != NoKey
    ensures var c' := AddUsed(c, at, amount, until, now, BUCKET_GRACE);
      if at != k || amount <= 0 then SameAt(c, c', k)
      else
        && k in c'
        && c'[k].expireAt ==
           if until <= 0 && k.SpendUsed? then (if k in c then c[k].expireAt else None)
           else Some(if until > now then until else now + 3_600_000)
  {
  }

  /** A commit makes a used counter last to the end its scope names, or for an
      hour where that has passed; a lifetime spend counter never ends. */
  lemma UsedCountersExpire(c: map<Key, Counter>, scope: Scope, tokens: int, spend: int, now: int, k: Key)
    requires GoodKeys(scope.keys) && tokens > 0 && spend > 0
    requires k != NoKey && (k == scope.keys.spendUsed || k == scope.keys.dayUsed || k == scope.keys.monthUsed)
    ensures var c' := CommitUsed(c, scope, tokens, spend, now, BUCKET_GRACE);
      var until := if k.SpendUsed? then scope.expires.spendUsed else if k.DayUsed? then scope.expires.dayUsed else scope.expires.monthUsed;
      && k in c'
      && c'[k].expireAt ==
         if until <= 0 && k.SpendUsed? then (if k in c then c[k].expireAt else None)
         else Some(if until > now then until else now + 3_600_000)
  {
    hide AddUsed;
    var keys, expires := scope.keys, scope.expires;
    var c1 := AddUsed(c, keys.spendUsed, spend, expires.spendUsed, now, BUCKET_GRACE);
    var c2 := AddUsed(c1, keys.dayUsed, tokens, expires.dayUsed, now, BUCKET_GRACE);
    AddUsedExpires(c, keys.spendUsed, spend, expires.spendUsed, now, k);
    AddUsedExpires(c1, keys.dayUsed, tokens, expires.dayUsed, now, k);
    AddUsedExpires(c2, keys.monthUsed, tokens, expires.monthUsed, now, k);
  }

  // --- When a settlement is refused ------------------------------------------------------------------------

  /** A counter that the commit would take out of the range Redis counts exactly. */
  predicate Overbooks(c: map<Key, Counter>, keys: QuotaKeys, heldTokens: int, tokens: int, spend: int) {
    || (tokens > heldTokens && keys.tpm != NoKey && keys.tpm in c && Val(c, keys.tpm) + tokens - heldTokens > 99_999_999_999_999)
    || (keys.spendUsed != NoKey && Val(c, keys.spendUsed) + spend > 99_999_999_999_999)
    || (keys.dayUsed != NoKey && Val(c, keys.dayUsed) + tokens > 99_999_999_999_999)
    || (keys.monthUsed != NoKey && Val(c, keys.monthUsed) + tokens > 99_999_999_999_999)
  }

  lemma CanSettleIff(c: map<Key, Counter>, keys: QuotaKeys, heldTokens: int, commit: bool, tokens: int, spend: int)
    requires GoodCounters(c)
    ensures CanSettle(c, keys, heldTokens, commit, tokens, spend) <==> !(commit && Overbooks(c, keys, heldTokens, tokens, spend))
  {
    hide GoodCounters, CounterValue, Val;
    ReadsAmounts(c, keys);
  }

  // The database a settlement looks at.
  function SettleLooks(db: Db, id: Id, now: int): Db {
    var db0 := PruneSettled(Sweep(db, now), now);
    if id in db0.tickets then ForScopes(db0, db0.tickets[id].scopes, Prune(now, Some(id))) else db0
  }

  /** The exact answer of a settlement: a missing ticket is an old settlement or
      unknown, a ticket without its leases is unknown, and a live one is settled
      unless a commit would take a counter out of range. */
  lemma SettleDecision(db: Db, before: int, id: Id, commit: bool, tokens: int, spend: int, now: int)
    requires DbInv(db, before) && before <= now && Amounts(tokens, spend)
    ensures var db0, db1, r := PruneSettled(Sweep(db, now), now), SettleLooks(db, id, now), SettleScript(db, id, commit, tokens, spend, now).1;
      if id !in db0.tickets then r == (if id in db0.settled then AlreadySettled else NotFound)
      else
        var t := db0.tickets[id];
        if exists i :: 0 <= i < |t.scopes| && id !in Fields(Sec(db0, t.scopes[i].ref)) then r == NotFound
        else if commit && exists i :: 0 <= i < |t.scopes| && Overbooks(Sec(db1, t.scopes[i].ref).counters, t.scopes[i].keys, HeldTokens(t), tokens, spend)
        then r == OverCapacity
        else r == Settled
  {
    hide DbInv, ForScopes, Sweep, CanSettle, Overbooks, GoodScopes, Sec;
    SweepDbInv(db, before, now);
    PruneSettledInv(Sweep(db, now), now);
    var db0 := PruneSettled(Sweep(db, now), now);
    if id in db0.tickets {
      var t := db0.tickets[id];
      TicketIsGood(db0, id, now);
      C.GoodIsDistinct(t.scopes);
      PruneDbInv(db0, t.scopes, now, Some(id));
      var db1 := ForScopes(db0, t.scopes, Prune(now, Some(id)));
      forall i | 0 <= i < |t.scopes|
        ensures CanSettle(Sec(db1, t.scopes[i].ref).counters, t.scopes[i].keys, HeldTokens(t), commit, tokens, spend)
          <==> !(commit && Overbooks(Sec(db1, t.scopes[i].ref).counters, t.scopes[i].keys, HeldTokens(t), tokens, spend))
      {
        B.SectionOf(db1, now, t.scopes[i].ref);
        CanSettleIff(Sec(db1, t.scopes[i].ref).counters, t.scopes[i].keys, HeldTokens(t), commit, tokens, spend);
      }
    }
  }

  /** A settlement is remembered for a minute, to the millisecond. */
  lemma SettlementIsRemembered(db: Db, settle: Event, e: Event)
    requires (settle.call.CommitCall? || settle.call.RefundCall?) && settle.call.id != 0
    requires S.Settles(db, settle, settle.call.id)
    requires settle.at.ns <= e.at.ns && e.call.ReserveCall?
    ensures var db' := Step(db, settle).0;
      settle.call.id in Looks(db', e).settled <==> e.at.ns / 1_000_000 < settle.at.ns / 1_000_000 + 60_000
  {
    hide ForScopes, CanSettleAll, LeasesPresent, ResolveScopes, InMillis;
    var db', scopes, now := Step(db, settle).0, InMillis(ResolveScopes(e.call.scopes, e.at)), Millis(e.at.ns);
    S.SettledLeavesTombstone(db, settle, settle.call.id);
    ForScopesRest(Sweep(db', now), scopes, Prune(now, None));
  }

  // --- Lifetimes ---------------------------------------------------------------------------------------------

  /** Milliseconds a ticket lives for: ten minutes by default, at least one. */
  function Lifetime(ttl: int64): int {
    if ttl <= 0 then 600_000 else if ttl < 1_000_000 then 1 else ttl / 1_000_000
  }

  lemma ScriptTtlIsLifetime(ttl: int64)
    ensures ScriptTtl(ttl) == Lifetime(ttl)
  {
  }

  /** A reserve that makes a ticket gives it its lifetime and remembers the
      normalized estimate and the scopes it was made with. */
  lemma ReserveMakesTicket(db: Db, e: Event)
    requires S.ValidReserve(e) && S.Admits(db, e, e.call.id)
    ensures var db', v := Step(db, e).0, NormalizeEstimate(e.call.estimate);
      && e.call.id in db'.tickets
      && db'.tickets[e.call.id].expireAt == e.at.ns / 1_000_000 + Lifetime(e.call.ttl)
      && db'.tickets[e.call.id].held == v
      && db'.tickets[e.call.id].fingerprint == Fingerprint(e.call.scopes, v)
  {
    hide ReservePruned, CheckReserveAll, ForScopes, ResolveScopes, InMillis, NormalizeEstimate;
    ScriptTtlIsLifetime(e.call.ttl);
  }

  /** A granted top-up renews the lifetime, grows the hold and keeps the rest. */
  lemma TopUpRenewsTicket(db: Db, e: Event)
    requires ValidTopUp(db, e) && Step(db, e).1 == Done
    ensures var t, t' := Sweep(db, Millis(e.at.ns)).tickets[e.call.id], Step(db, e).0.tickets;
      && e.call.id in t'
      && t'[e.call.id].expireAt == e.at.ns / 1_000_000 + Lifetime(e.call.ttl)
      && HeldTokens(t'[e.call.id]) == HeldTokens(t) + EstimatedTokens(e.call.delta)
      && t'[e.call.id].held.spend == t.held.spend + Max(e.call.delta.spend, 0)
      && t'[e.call.id].scopes == t.scopes && t'[e.call.id].fingerprint == t.fingerprint
  {
    hide Sweep, CheckTopUpAll, ForScopes;
    ScriptTtlIsLifetime(e.call.ttl);
  }

  /** A replayed reserve of a live ticket is confirmed exactly if it carries the
      scopes and the normalized estimate the ticket was made with, and changes
      nothing but what expiry and pruning change. */
  lemma ReplayAnswered(db: Db, e: Event)
    requires S.ValidReserve(e) && e.call.id in Looks(db, e).tickets && e.call.id !in Looks(db, e).settled
    ensures Step(db, e).0 == Looks(db, e)
    ensures var f := Looks(db, e).tickets[e.call.id].fingerprint;
      Step(db, e).1 == if f.scopes == e.call.scopes && f.estimate == NormalizeEstimate(e.call.estimate) then Done else ConflictError
  {
    hide ReservePruned, CheckReserveAll, ForScopes, ResolveScopes, InMillis, NormalizeEstimate;
  }

  /** Calls of other IDs leave a ticket alone as long as it lives, and no call
      finds it afterwards. */
  lemma TicketLives(db: Db, e: Event, id: Id)
    requires id in db.tickets && (e.call.UsageCall? || e.call.id != id)
    ensures Millis(e.at.ns) <= db.tickets[id].expireAt ==> id in Step(db, e).0.tickets && Step(db, e).0.tickets[id] == db.tickets[id]
    ensures Millis(e.at.ns) > db.tickets[id].expireAt ==> id !in Sweep(db, Millis(e.at.ns)).tickets
  {
    hide ForScopes, CheckReserveAll, CheckTopUpAll, LeasesPresent, CanSettleAll, ResolveScopes, ValidateEstimate, ValidateActual, InMillis, PruneSection;
    var now := Millis(e.at.ns);
    var db0 := Sweep(db, now);
    match e.call
    case ReserveCall(other, limits, estimate, ttl) =>
      var v, scopes := ValidateEstimate(estimate), InMillis(ResolveScopes(limits, e.at));
      ForScopesRest(db0, scopes, Prune(now, None));
      if v.Some? {
        ForScopesRest(ReservePruned(db, scopes, now), scopes,
                      Hold(other, EstimatedTokens(v.value), v.value.spend, now, ScriptTtl(ttl), ReserveMinuteTtl(e.at.ns)));
      }
    case TopUpCall(other, delta, ttl) =>
      var v := ValidateEstimate(delta);
      if v.Some? && other in db0.tickets {
        TopUpLeaves(db0, other, EstimatedTokens(v.value), v.value.spend, now, ScriptTtl(ttl));
      }
    case CommitCall(other, actual) =>
      var v := ValidateActual(actual);
      if v.Some? {
        SettleLeaves(db, other, true, ActualTokens(v.value), v.value.spend, now);
      }
    case RefundCall(other) => SettleLeaves(db, other, false, 0, 0, now);
    case UsageCall(ref) =>
  }

  lemma TopUpLeaves(db: Db, id: Id, tokens: int, spend: int, now: int, ttl: int)
    requires id in db.tickets
    ensures var t := db.tickets[id];
      ForScopes(ForScopes(db, t.scopes, Prune(now, Some(id))), t.scopes, TopUp(id, tokens, spend, now, ttl)).tickets == db.tickets
      && ForScopes(db, t.scopes, Prune(now, Some(id))).tickets == db.tickets
  {
    hide ForScopes;
    var t := db.tickets[id];
    ForScopesRest(db, t.scopes, Prune(now, Some(id)));
    ForScopesRest(ForScopes(db, t.scopes, Prune(now, Some(id))), t.scopes, TopUp(id, tokens, spend, now, ttl));
  }

  lemma SettleLeaves(db: Db, id: Id, commit: bool, tokens: int, spend: int, now: int)
    ensures var (db', r) := SettleScript(db, id, commit, tokens, spend, now);
      db'.tickets == if r == Settled then Sweep(db, now).tickets - {id} else Sweep(db, now).tickets
  {
    hide ForScopes, CanSettleAll, LeasesPresent, Sweep;
    var db0 := PruneSettled(Sweep(db, now), now);
    if id in db0.tickets {
      var t := db0.tickets[id];
      ForScopesRest(db0, t.scopes, Prune(now, Some(id)));
      ForScopesRest(ForScopes(db0, t.scopes, Prune(now, Some(id))), t.scopes,
                    Settle(id, HeldTokens(t), t.held.spend, commit, tokens, spend, now));
    }
  }

  // --- What pruning takes back from the minute ----------------------------------------------------------------

  function TokenShares(fields: map<Id, Lease>, k: Key): map<Id, int> {
    map id | id in fields :: if fields[id].tpm == k then fields[id].tokens else 0
  }

  /** The tokens that recorded leases count on a minute. */
  ghost function TokensOn(fields: map<Id, Lease>, k: Key): int { Sum(TokenShares(fields, k)) }

  lemma TokensOnRemove(fields: map<Id, Lease>, id: Id, k: Key)
    requires id in fields
    ensures TokensOn(fields, k) == (if fields[id].tpm == k then fields[id].tokens else 0) + TokensOn(fields - {id}, k)
  {
    SumRemove(TokenShares(fields, k), id);
    assert TokenShares(fields, k) - {id} == TokenShares(fields - {id}, k);
  }

  lemma ReleaseLeaseTokens(c: map<Key, Counter>, l: Lease, k: Key)
    requires GoodLease(l) && k.Tpm? && GoodCounters(c)
    ensures Val(ReleaseLease(c, l), k) == if l.tpm == k then Max(0, Val(c, k) - l.tokens) else Val(c, k)
  {
    hide Decrement;
    var c1 := Decrement(c, l.active, 1);
    var c2 := Decrement(c1, l.tpm, l.tokens);
    var c3 := Decrement(c2, l.spendHeld, l.spend);
    var c4 := Decrement(c3, l.dayHeld, l.tokens);
    DecrementGood(c, l.active, 1);
    DecrementSame(c, l.active, 1, k);
    DecrementAt(c1, l.tpm, l.tokens, k);
    DecrementSame(c2, l.spendHeld, l.spend, k);
    DecrementSame(c3, l.dayHeld, l.tokens, k);
    DecrementSame(c4, l.monthHeld, l.tokens, k);
  }

  lemma {:induction false} DropLeasesTokens(sec: Section, ids: seq<Id>, now: int, k: Key)
    requires LedgerInv(sec.counters, Fields(sec), Scores(sec), now) && Compact(sec) && k.Tpm?
    ensures var sec' := DropLeases(sec, ids);
      && TokensOn(Fields(sec'), k) <= TokensOn(Fields(sec), k)
      && Val(sec'.counters, k) == Max(0, Val(sec.counters, k) - (TokensOn(Fields(sec), k) - TokensOn(Fields(sec'), k)))
    decreases |ids|
  {
    hide LedgerInv, DropLease, TokensOn;
    InLedger(sec, now, k);
    if ids != [] {
      DropLeaseInv(sec, ids[0], now);
      DropLeaseTokens(sec, ids[0], now, k);
      DropLeasesTokens(DropLease(sec, ids[0]), ids[1..], now, k);
    }
  }

  lemma InLedger(sec: Section, now: int, k: Key)
    requires LedgerInv(sec.counters, Fields(sec), Scores(sec), now)
    ensures Val(sec.counters, k) >= 0
  {
  }

  lemma DropLeaseTokens(sec: Section, id: Id, now: int, k: Key)
    requires LedgerInv(sec.counters, Fields(sec), Scores(sec), now) && Compact(sec) && k.Tpm?
    ensures var sec' := DropLease(sec, id);
      && TokensOn(Fields(sec'), k) <= TokensOn(Fields(sec), k)
      && Val(sec'.counters, k) == Max(0, Val(sec.counters, k) - (TokensOn(Fields(sec), k) - TokensOn(Fields(sec'), k)))
  {
    hide ReleaseLease, TokensOn;
    DropLeaseInv(sec, id, now);
    if id in Fields(sec) {
      TokensOnRemove(Fields(sec), id, k);
      ReleaseLeaseTokens(sec.counters, Fields(sec)[id], k);
    }
  }

  /** Pruning takes back from a minute counter exactly the tokens of the leases
      it drops, down to zero. */
  lemma PruneTakesBackTokens(sec: Section, now: int, protected: Option<Id>, k: Key)
    requires SectionInv(sec, now) && k.Tpm?
    ensures var sec' := PruneSection(sec, now, protected);
      Val(sec'.counters, k) == Max(0, Val(sec.counters, k) - (TokensOn(Fields(sec), k) - TokensOn(Fields(sec'), k)))
  {
    hide DropLeases, TokensOn, Ordered, LedgerInv;
    var expired := Expired(sec, now, protected);
    var ids := Ordered(expired);
    B.SyncedIsCompact(sec, now);
    OrderedMembers(expired);
    DropLeasesInv(sec, ids, now);
    DropLeasesTokens(sec, ids, now, k);
    PruneLeaves(sec, now, protected);
    assert (set id | id in ids) == expired.Keys;
  }
}
