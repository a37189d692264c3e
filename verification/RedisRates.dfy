/** What the limits decide in the Redis ledger, stated over counter values and
    amounts: every admission, every refusal with its reason, and the minute
    counters a granted call leaves. */
module RedisRates {
  import opened QuotaTypes
  import opened RedisLedger
  import opened RedisInvariant
  import opened RedisHolds
  import opened RedisRuns
  import S = RedisSettlements

  // A key the scope has not configured counts nothing.
  function Amount(c: map<Key, Counter>, k: Key): int { if k == NoKey then 0 else Val(c, k) }

  /** The limit that `reason` names leaves no room on the scope. */
  predicate NoRoom(c: map<Key, Counter>, scope: Scope, tokens: int, spend: int, reason: Reason) {
    var keys, limit := scope.keys, scope.limit;
    match reason
    case MaxParallel => limit.maxParallel > 0 && Amount(c, keys.active) + 1 > limit.maxParallel
    case RpmLimit => limit.rpm > 0 && Amount(c, keys.rpm) + 1 > limit.rpm
    case TpmLimit => limit.tpm > 0 && Amount(c, keys.tpm) + tokens > limit.tpm
    case SpendLimit => limit.maxSpend > 0 && Amount(c, keys.spendUsed) + Amount(c, keys.spendHeld) + spend > limit.maxSpend
    case DailyTokens => limit.daily > 0 && Amount(c, keys.dayUsed) + Amount(c, keys.dayHeld) + tokens > limit.daily
    case MonthlyTokens => limit.monthly > 0 && Amount(c, keys.monthUsed) + Amount(c, keys.monthHeld) + tokens > limit.monthly
  }

  /** A counter would leave the range that Redis counts exactly. */
  predicate Overflows(c: map<Key, Counter>, keys: QuotaKeys, tokens: int, spend: int, topUp: bool) {
    || (!topUp && keys.active != NoKey && Val(c, keys.active) + 1 > 99_999_999_999_999)
    || (!topUp && keys.rpm != NoKey && Val(c, keys.rpm) + 1 > 99_999_999_999_999)
    || (keys.tpm != NoKey && Val(c, keys.tpm) + tokens > 99_999_999_999_999)
    || (keys.spendHeld != NoKey && Val(c, keys.spendHeld) + spend > 99_999_999_999_999)
    || (keys.dayHeld != NoKey && Val(c, keys.dayHeld) + tokens > 99_999_999_999_999)
    || (keys.monthHeld != NoKey && Val(c, keys.monthHeld) + tokens > 99_999_999_999_999)
  }

  /** The limits a call is held to: a top-up is no new request. */
  predicate Applies(reason: Reason, topUp: bool) { topUp ==> !reason.MaxParallel? && !reason.RpmLimit? }

  // Limits are checked in this order, after the range of the counters.
  function Rank(reason: Reason): nat {
    match reason
    case MaxParallel => 0
    case RpmLimit => 1
    case TpmLimit => 2
    case SpendLimit => 3
    case DailyTokens => 4
    case MonthlyTokens => 5
  }

  /** The counters stay in range and no limit checked before the rank lacks room. */
  predicate Roomy(c: map<Key, Counter>, scope: Scope, tokens: int, spend: int, topUp: bool, rank: nat) {
    && !Overflows(c, scope.keys, tokens, spend, topUp)
    && forall reason: Reason :: Applies(reason, topUp) && Rank(reason) < rank ==> !NoRoom(c, scope, tokens, spend, reason)
  }

  /** The answer a scope gives. */
  predicate Answers(c: map<Key, Counter>, scope: Scope, tokens: int, spend: int, topUp: bool, v: Verdict) {
    match v
    case Pass => Roomy(c, scope, tokens, spend, topUp, 6)
    case Capacity => Overflows(c, scope.keys, tokens, spend, topUp)
    case Exceeds(reason) =>
      Applies(reason, topUp) && NoRoom(c, scope, tokens, spend, reason) && Roomy(c, scope, tokens, spend, topUp, Rank(reason))
    case Missing => false
  }

  lemma ReadsAmount(c: map<Key, Counter>, k: Key)
    requires GoodCounters(c)
    ensures CounterValue(c, k) == Some(Amount(c, k))
  {
  }

  lemma ReadsAmounts(c: map<Key, Counter>, keys: QuotaKeys)
    requires GoodCounters(c)
    ensures AllReadable(c, keys)
    ensures CounterValue(c, keys.active) == Some(Amount(c, keys.active)) && CounterValue(c, keys.rpm) == Some(Amount(c, keys.rpm))
    ensures CounterValue(c, keys.tpm) == Some(Amount(c, keys.tpm))
    ensures CounterValue(c, keys.spendUsed) == Some(Amount(c, keys.spendUsed)) && CounterValue(c, keys.spendHeld) == Some(Amount(c, keys.spendHeld))
    ensures CounterValue(c, keys.dayUsed) == Some(Amount(c, keys.dayUsed)) && CounterValue(c, keys.dayHeld) == Some(Amount(c, keys.dayHeld))
    ensures CounterValue(c, keys.monthUsed) == Some(Amount(c, keys.monthUsed)) && CounterValue(c, keys.monthHeld) == Some(Amount(c, keys.monthHeld))
  {
    hide CounterValue, Amount, GoodCounters;
    ReadsAmount(c, keys.active);
    ReadsAmount(c, keys.rpm);
    ReadsAmount(c, keys.tpm);
    ReadsAmount(c, keys.spendUsed);
    ReadsAmount(c, keys.spendHeld);
    ReadsAmount(c, keys.dayUsed);
    ReadsAmount(c, keys.dayHeld);
    ReadsAmount(c, keys.monthUsed);
    ReadsAmount(c, keys.monthHeld);
  }

  lemma BudgetsAnswer(c: map<Key, Counter>, scope: Scope, tokens: int, spend: int, topUp: bool)
    requires GoodCounters(c) && AllReadable(c, scope.keys) && !Overflows(c, scope.keys, tokens, spend, topUp)
    requires !topUp ==> !NoRoom(c, scope, tokens, spend, MaxParallel) && !NoRoom(c, scope, tokens, spend, RpmLimit)
    ensures Answers(c, scope, tokens, spend, topUp, CheckBudgets(c, scope, tokens, spend))
  {
    hide Overflows, GoodCounters, CounterValue, Amount, Val;
    ReadsAmounts(c, scope.keys);
  }

  lemma FitsIffInRange(c: map<Key, Counter>, keys: QuotaKeys, tokens: int, spend: int)
    requires GoodCounters(c) && AllReadable(c, keys)
    ensures HoldFits(c, keys, tokens, spend) <==> !Overflows(c, keys, tokens, spend, true)
  {
    hide GoodCounters, CounterValue, Val;
    ReadsAmounts(c, keys);
  }

  lemma ReserveAnswers(c: map<Key, Counter>, scope: Scope, tokens: int, spend: int)
    requires GoodCounters(c)
    ensures Answers(c, scope, tokens, spend, false, CheckReserve(c, scope, tokens, spend))
  {
    hide GoodCounters, CounterValue, Val, CheckBudgets, HoldFits, AllReadable;
    ReadsAmounts(c, scope.keys);
    FitsIffInRange(c, scope.keys, tokens, spend);
    if !Overflows(c, scope.keys, tokens, spend, false) && !NoRoom(c, scope, tokens, spend, MaxParallel)
       && !NoRoom(c, scope, tokens, spend, RpmLimit) {
      BudgetsAnswer(c, scope, tokens, spend, false);
    }
  }

  lemma TopUpAnswers(sec: Section, scope: Scope, id: Id, tokens: int, spend: int)
    requires GoodCounters(sec.counters) && id in Fields(sec)
    ensures Answers(sec.counters, scope, tokens, spend, true, CheckTopUp(sec, scope, id, tokens, spend))
  {
    hide GoodCounters, CounterValue, Val, CheckBudgets, HoldFits, AllReadable, Overflows, Roomy, NoRoom;
    ReadsAmounts(sec.counters, scope.keys);
    FitsIffInRange(sec.counters, scope.keys, tokens, spend);
    if !Overflows(sec.counters, scope.keys, tokens, spend, true) {
      BudgetsAnswer(sec.counters, scope, tokens, spend, true);
    }
  }

  // --- All scopes of a script ----------------------------------------------------------------------

  /** The answer of one scope, where a top-up also needs the lease. */
  predicate ScopeAnswers(db: Db, scope: Scope, id: Id, tokens: int, spend: int, topUp: bool, v: Verdict) {
    var sec := Sec(db, scope.ref);
    if topUp && id !in Fields(sec) then v == Missing else Answers(sec.counters, scope, tokens, spend, topUp, v)
  }

  predicate AllGrant(db: Db, scopes: seq<Scope>, id: Id, tokens: int, spend: int, topUp: bool) {
    forall i :: 0 <= i < |scopes| ==> ScopeAnswers(db, scopes[i], id, tokens, spend, topUp, Pass)
  }

  /** A refusal comes from the first scope that does not grant. */
  predicate FirstRefuses(db: Db, scopes: seq<Scope>, id: Id, tokens: int, spend: int, topUp: bool, v: Verdict) {
    exists i :: 0 <= i < |scopes| && ScopeAnswers(db, scopes[i], id, tokens, spend, topUp, v)
                && AllGrant(db, scopes[..i], id, tokens, spend, topUp)
  }

  /** The verdict of a script: granted exactly if every scope grants, and
      otherwise refused with the answer of the first scope that does not. */
  predicate Decides(db: Db, scopes: seq<Scope>, id: Id, tokens: int, spend: int, topUp: bool, v: Verdict) {
    && (v == Pass <==> AllGrant(db, scopes, id, tokens, spend, topUp))
    && (v != Pass ==> FirstRefuses(db, scopes, id, tokens, spend, topUp, v))
  }

  lemma OneAnswer(db: Db, scope: Scope, id: Id, tokens: int, spend: int, topUp: bool, v: Verdict)
    requires ScopeAnswers(db, scope, id, tokens, spend, topUp, v) && v != Pass
    ensures !ScopeAnswers(db, scope, id, tokens, spend, topUp, Pass)
  {
    hide NoRoom, Overflows, Sec;
    if v.Exceeds? {
      assert Rank(v.reason) < 6;
    }
  }

  lemma GrantFirst(db: Db, scopes: seq<Scope>, id: Id, tokens: int, spend: int, topUp: bool)
    requires scopes != []
    ensures AllGrant(db, scopes, id, tokens, spend, topUp)
      <==> ScopeAnswers(db, scopes[0], id, tokens, spend, topUp, Pass) && AllGrant(db, scopes[1..], id, tokens, spend, topUp)
  {
    hide ScopeAnswers;
    var rest := scopes[1..];
    assert forall i :: 0 < i < |scopes| ==> scopes[i] == rest[i - 1];
  }

  // One scope in front of others that have decided.
  lemma DecidesFirst(db: Db, scopes: seq<Scope>, id: Id, tokens: int, spend: int, topUp: bool, v: Verdict, w: Verdict)
    requires scopes != [] && ScopeAnswers(db, scopes[0], id, tokens, spend, topUp, v)
    requires Decides(db, scopes[1..], id, tokens, spend, topUp, w)
    ensures Decides(db, scopes, id, tokens, spend, topUp, if v != Pass then v else w)
  {
    hide ScopeAnswers, AllGrant;
    GrantFirst(db, scopes, id, tokens, spend, topUp);
    if v != Pass {
      OneAnswer(db, scopes[0], id, tokens, spend, topUp, v);
      assert scopes[..0] == [];
      NoneRefuses(db, id, tokens, spend, topUp);
    } else if w != Pass {
      var rest := scopes[1..];
      var i :| 0 <= i < |rest| && ScopeAnswers(db, rest[i], id, tokens, spend, topUp, w) && AllGrant(db, rest[..i], id, tokens, spend, topUp);
      var before := scopes[..i + 1];
      assert before[1..] == rest[..i];
      GrantFirst(db, before, id, tokens, spend, topUp);
      assert scopes[i + 1] == rest[i];
    }
  }

  lemma NoneRefuses(db: Db, id: Id, tokens: int, spend: int, topUp: bool)
    ensures AllGrant(db, [], id, tokens, spend, topUp)
  {
  }

  lemma {:induction false} ReserveDecides(db: Db, now: int, scopes: seq<Scope>, id: Id, tokens: int, spend: int)
    requires SectionsInv(db, now)
    ensures Decides(db, scopes, id, tokens, spend, false, CheckReserveAll(db, scopes, tokens, spend))
    decreases |scopes|
  {
    hide CheckReserve, Answers, SectionInv, Decides, Sec;
    if scopes == [] {
      NothingToDecide(db, id, tokens, spend, false);
    } else {
      var sec := Sec(db, scopes[0].ref);
      assert SectionInv(sec, now);
      InvSynced(sec, now);
      ReserveAnswers(sec.counters, scopes[0], tokens, spend);
      ReserveDecides(db, now, scopes[1..], id, tokens, spend);
      DecidesFirst(db, scopes, id, tokens, spend, false, CheckReserve(sec.counters, scopes[0], tokens, spend),
                   CheckReserveAll(db, scopes[1..], tokens, spend));
    }
  }

  lemma {:induction false} TopUpDecides(db: Db, now: int, scopes: seq<Scope>, id: Id, tokens: int, spend: int)
    requires SectionsInv(db, now)
    ensures Decides(db, scopes, id, tokens, spend, true, CheckTopUpAll(db, scopes, id, tokens, spend))
    decreases |scopes|
  {
    hide CheckTopUp, Answers, SectionInv, Decides, Sec;
    if scopes == [] {
      NothingToDecide(db, id, tokens, spend, true);
    } else {
      var sec := Sec(db, scopes[0].ref);
      assert SectionInv(sec, now);
      InvSynced(sec, now);
      if id in Fields(sec) {
        TopUpAnswers(sec, scopes[0], id, tokens, spend);
      } else {
        NoLease(sec, scopes[0], id, tokens, spend);
      }
      TopUpDecides(db, now, scopes[1..], id, tokens, spend);
      DecidesFirst(db, scopes, id, tokens, spend, true, CheckTopUp(sec, scopes[0], id, tokens, spend),
                   CheckTopUpAll(db, scopes[1..], id, tokens, spend));
    }
  }

  lemma NothingToDecide(db: Db, id: Id, tokens: int, spend: int, topUp: bool)
    ensures Decides(db, [], id, tokens, spend, topUp, Pass)
  {
  }

  lemma NoLease(sec: Section, scope: Scope, id: Id, tokens: int, spend: int)
    requires id !in Fields(sec)
    ensures CheckTopUp(sec, scope, id, tokens, spend) == Missing
  {
  }

  // --- Calls ------------------------------------------------------------------------------------------

  /** What the caller hears is what the scopes decide. */
  predicate Heard(db: Db, scopes: seq<Scope>, id: Id, tokens: int, spend: int, topUp: bool, out: Outcome) {
    match out
    case Done => AllGrant(db, scopes, id, tokens, spend, topUp)
    case RateLimited(reason) =>
      !AllGrant(db, scopes, id, tokens, spend, topUp) && FirstRefuses(db, scopes, id, tokens, spend, topUp, Exceeds(reason))
    case CapacityError =>
      !AllGrant(db, scopes, id, tokens, spend, topUp) && FirstRefuses(db, scopes, id, tokens, spend, topUp, Capacity)
    case NotFoundError =>
      !AllGrant(db, scopes, id, tokens, spend, topUp) && FirstRefuses(db, scopes, id, tokens, spend, topUp, Missing)
    case ConflictError => false
  }

  // The database a reserve looks at: what expiry and pruning have left.
  function Looks(db: Db, e: Event): Db
    requires e.call.ReserveCall?
  {
    ReservePruned(db, InMillis(ResolveScopes(e.call.scopes, e.at)), Millis(e.at.ns))
  }

  lemma LooksInv(db: Db, before: int, e: Event)
    requires DbInv(db, before) && before <= Millis(e.at.ns) && GoodCall(e.call) && e.call.ReserveCall?
    ensures DbInv(Looks(db, e), Millis(e.at.ns))
    ensures GoodScopes(InMillis(ResolveScopes(e.call.scopes, e.at)))
  {
    hide ReservePruned, DbInv, ResolveScopes, InMillis;
    ResolvedScopesAreGood(e.call.scopes, e.at);
    ReservePrunedInv(db, InMillis(ResolveScopes(e.call.scopes, e.at)), before, Millis(e.at.ns));
  }

  lemma ReserveHeard(db: Db, before: int, e: Event)
    requires DbInv(db, before) && before <= Millis(e.at.ns) && GoodCall(e.call) && S.ValidReserve(e)
    requires e.call.id !in Looks(db, e).settled && e.call.id !in Looks(db, e).tickets
    ensures var v := ValidateEstimate(e.call.estimate).value;
      Heard(Looks(db, e), InMillis(ResolveScopes(e.call.scopes, e.at)), e.call.id, EstimatedTokens(v), v.spend, false, Step(db, e).1)
  {
    hide ReservePruned, CheckReserveAll, AllGrant, FirstRefuses, DbInv, ForScopes, ResolveScopes, InMillis, ValidateEstimate;
    var v, now := ValidateEstimate(e.call.estimate).value, Millis(e.at.ns);
    var scopes, db1 := InMillis(ResolveScopes(e.call.scopes, e.at)), Looks(db, e);
    LooksInv(db, before, e);
    OfSections(db1, now);
    ReserveDecides(db1, now, scopes, e.call.id, EstimatedTokens(v), v.spend);
    NotMissing(db1, scopes, e.call.id, EstimatedTokens(v), v.spend);
  }

  /** After every run, a reserve of an ID without ticket or tombstone is granted
      exactly if all limits of all its scopes have room and no counter would leave
      its range; a refusal names the first limit that lacks room. */
  lemma ReserveDecision(es: seq<Event>, e: Event)
    requires InOrder(es, 0) && Clock(es, 0) <= Millis(e.at.ns) && GoodCall(e.call) && S.ValidReserve(e)
    requires var db1 := Looks(Run(EMPTY_DB, es), e); e.call.id !in db1.settled && e.call.id !in db1.tickets
    ensures var db, v := Run(EMPTY_DB, es), ValidateEstimate(e.call.estimate).value;
      Heard(Looks(db, e), InMillis(ResolveScopes(e.call.scopes, e.at)), e.call.id, EstimatedTokens(v), v.spend, false, Step(db, e).1)
  {
    hide Run, DbInv, Looks, Heard, Step, ResolveScopes, InMillis, ValidateEstimate;
    EmptyInv(0);
    RunKeepsInv(EMPTY_DB, 0, es);
    ReserveHeard(Run(EMPTY_DB, es), Clock(es, 0), e);
  }

  lemma OfSections(db: Db, now: int)
    requires DbInv(db, now)
    ensures SectionsInv(db, now)
  {
  }

  lemma NotMissing(db: Db, scopes: seq<Scope>, id: Id, tokens: int, spend: int)
    ensures !FirstRefuses(db, scopes, id, tokens, spend, false, Missing)
  {
    hide Roomy, Overflows, Sec, AllGrant;
  }

  // The database a top-up looks at: the leases of others pruned.
  function LooksFor(db: Db, e: Event): Db
    requires e.call.TopUpCall? && e.call.id in Sweep(db, Millis(e.at.ns)).tickets
  {
    var db0 := Sweep(db, Millis(e.at.ns));
    ForScopes(db0, db0.tickets[e.call.id].scopes, Prune(Millis(e.at.ns), Some(e.call.id)))
  }

  predicate ValidTopUp(db: Db, e: Event) {
    e.call.TopUpCall? && e.call.id != 0 && ValidateEstimate(e.call.delta).Some? && e.call.id in Sweep(db, Millis(e.at.ns)).tickets
  }

  lemma LooksForInv(es: seq<Event>, e: Event)
    requires InOrder(es, 0) && Clock(es, 0) <= Millis(e.at.ns) && ValidTopUp(Run(EMPTY_DB, es), e)
    ensures var db := Run(EMPTY_DB, es);
      && DbInv(LooksFor(db, e), Millis(e.at.ns))
      && GoodTicket(Sweep(db, Millis(e.at.ns)).tickets[e.call.id])
  {
    hide Run, DbInv, Sweep, ForScopes, ValidateEstimate;
    EmptyInv(0);
    RunKeepsInv(EMPTY_DB, 0, es);
    SweepDbInv(Run(EMPTY_DB, es), Clock(es, 0), Millis(e.at.ns));
    PrunedForTopUp(Sweep(Run(EMPTY_DB, es), Millis(e.at.ns)), e.call.id, Millis(e.at.ns));
    TicketIsGood(Sweep(Run(EMPTY_DB, es), Millis(e.at.ns)), e.call.id, Millis(e.at.ns));
  }

  lemma TicketIsGood(db: Db, id: Id, now: int)
    requires DbInv(db, now) && id in db.tickets
    ensures GoodTicket(db.tickets[id])
  {
    hide SectionsInv;
  }

  /** After every run, a top-up of a live ticket: refused for capacity if the
      ticket itself would leave its range, and otherwise decided by the token and
      spend limits of the scopes it was reserved on. */
  lemma TopUpDecision(es: seq<Event>, e: Event)
    requires InOrder(es, 0) && Clock(es, 0) <= Millis(e.at.ns) && ValidTopUp(Run(EMPTY_DB, es), e)
    ensures var db, v := Run(EMPTY_DB, es), ValidateEstimate(e.call.delta).value;
      var t, out := Sweep(db, Millis(e.at.ns)).tickets[e.call.id], Step(db, e).1;
      if HeldTokens(t) + EstimatedTokens(v) > 99_999_999_999_999 || t.held.spend + v.spend > 99_999_999_999_999
      then out == CapacityError
      else Heard(LooksFor(db, e), t.scopes, e.call.id, EstimatedTokens(v), v.spend, true, out)
  {
    hide Run, CheckTopUpAll, AllGrant, FirstRefuses, DbInv, ForScopes, Sweep, ValidateEstimate, GoodScopes;
    var db, v, now := Run(EMPTY_DB, es), ValidateEstimate(e.call.delta).value, Millis(e.at.ns);
    LooksForInv(es, e);
    OfSections(LooksFor(db, e), now);
    TopUpDecides(LooksFor(db, e), now, Sweep(db, now).tickets[e.call.id].scopes, e.call.id, EstimatedTokens(v), v.spend);
  }

  // --- The minute counters after a granted call -----------------------------------------------------------

  lemma HeldWithin(db: Db, now: int, scopes: seq<Scope>, id: Id, tokens: int, spend: int, ttl: int, minuteTtl: int, i: nat)
    requires GoodScopes(scopes) && i < |scopes| && ScopeMatchesLimit(scopes[i]) && SectionInv(Sec(db, scopes[i].ref), now)
    requires AllGrant(db, scopes, id, tokens, spend, false)
    ensures var c, c' := Sec(db, scopes[i].ref).counters,
                         Sec(ForScopes(db, scopes, Hold(id, tokens, spend, now, ttl, minuteTtl)), scopes[i].ref).counters;
      var keys, limit := scopes[i].keys, scopes[i].limit;
      && (limit.tpm > 0 ==> Val(c', keys.tpm) == Val(c, keys.tpm) + tokens <= limit.tpm)
      && (limit.rpm > 0 ==> Val(c', keys.rpm) == Val(c, keys.rpm) + 1 <= limit.rpm)
  {
    hide ForScopes, HoldScope, HeldCounters, PutLease, SectionInv, Overflows, Sec;
    var scope, sec := scopes[i], Sec(db, scopes[i].ref);
    ForScopesHit(db, scopes, Hold(id, tokens, spend, now, ttl, minuteTtl), i);
    HoldScopeShape(sec, scope, id, tokens, spend, now, ttl, minuteTtl);
    assert Roomy(sec.counters, scope, tokens, spend, false, 6);
    HasRoomFor(sec.counters, scope, tokens, spend, false, TpmLimit);
    HasRoomFor(sec.counters, scope, tokens, spend, false, RpmLimit);
    if scope.limit.tpm > 0 {
      HeldCountersAt(sec.counters, scope.keys, tokens, spend, now, ttl, minuteTtl, scope.keys.tpm);
    }
    if scope.limit.rpm > 0 {
      HeldCountersAt(sec.counters, scope.keys, tokens, spend, now, ttl, minuteTtl, scope.keys.rpm);
    }
  }

  lemma HasRoomFor(c: map<Key, Counter>, scope: Scope, tokens: int, spend: int, topUp: bool, reason: Reason)
    requires Roomy(c, scope, tokens, spend, topUp, 6) && Applies(reason, topUp)
    ensures !NoRoom(c, scope, tokens, spend, reason)
  {
    assert Rank(reason) < 6;
  }

  lemma ToppedWithin(db: Db, now: int, scopes: seq<Scope>, id: Id, tokens: int, spend: int, ttl: int, i: nat)
    requires GoodScopes(scopes) && i < |scopes| && ScopeMatchesLimit(scopes[i]) && SectionInv(Sec(db, scopes[i].ref), now)
    requires AllGrant(db, scopes, id, tokens, spend, true) && tokens >= 0
    ensures var c, c' := Sec(db, scopes[i].ref).counters,
                         Sec(ForScopes(db, scopes, TopUp(id, tokens, spend, now, ttl)), scopes[i].ref).counters;
      scopes[i].limit.tpm > 0 ==> Val(c', scopes[i].keys.tpm) == Val(c, scopes[i].keys.tpm) + tokens <= scopes[i].limit.tpm
  {
    hide ForScopes, TopUpScope, ToppedCounters, PutLease, SectionInv, Overflows, Sec;
    var scope, sec := scopes[i], Sec(db, scopes[i].ref);
    ForScopesHit(db, scopes, TopUp(id, tokens, spend, now, ttl), i);
    assert ScopeAnswers(db, scope, id, tokens, spend, true, Pass);
    TopUpScopeShape(sec, scope, id, tokens, spend, now, ttl);
    HasRoomFor(sec.counters, scope, tokens, spend, true, TpmLimit);
    if scope.limit.tpm > 0 {
      ToppedCountersAt(sec.counters, scope.keys, tokens, spend, now, ttl, scope.keys.tpm);
    }
  }

  /** Every ticket carries keys that belong to its limits. */
  predicate TicketsMatched(db: Db) {
    forall id, i :: id in db.tickets && 0 <= i < |db.tickets[id].scopes| ==> ScopeMatchesLimit(db.tickets[id].scopes[i])
  }

  predicate Matched(scopes: seq<Scope>) { forall i :: 0 <= i < |scopes| ==> ScopeMatchesLimit(scopes[i]) }

  lemma ReserveMatched(db: Db, scopes: seq<Scope>, estimate: EstimatedUsage, id: Id, fingerprint: Fingerprint,
                       now: int, ttl: int, minuteTtl: int)
    requires TicketsMatched(db) && Matched(scopes)
    ensures TicketsMatched(ReserveScript(db, scopes, estimate, id, fingerprint, now, ttl, minuteTtl).0)
  {
    hide ForScopes, CheckReserveAll, ScopeMatchesLimit;
    ForScopesRest(Sweep(db, now), scopes, Prune(now, None));
    ForScopesRest(ReservePruned(db, scopes, now), scopes, Hold(id, EstimatedTokens(estimate), estimate.spend, now, ttl, minuteTtl));
  }

  lemma TopUpMatched(db: Db, id: Id, tokens: int, spend: int, now: int, ttl: int)
    requires TicketsMatched(db) && 0 <= tokens <= MAX_QUOTA && 0 <= spend <= MAX_QUOTA
    ensures TicketsMatched(TopUpScript(db, id, tokens, spend, now, ttl).0)
  {
    hide ForScopes, CheckTopUpAll, ScopeMatchesLimit;
    var db0 := Sweep(db, now);
    if id in db0.tickets {
      var t := db0.tickets[id];
      ForScopesRest(db0, t.scopes, Prune(now, Some(id)));
      ForScopesRest(ForScopes(db0, t.scopes, Prune(now, Some(id))), t.scopes, TopUp(id, tokens, spend, now, ttl));
    }
  }

  lemma SettleMatched(db: Db, id: Id, commit: bool, tokens: int, spend: int, now: int)
    requires TicketsMatched(db)
    ensures TicketsMatched(SettleScript(db, id, commit, tokens, spend, now).0)
  {
    hide ForScopes, CanSettleAll, LeasesPresent, ScopeMatchesLimit;
    var db0 := PruneSettled(Sweep(db, now), now);
    if id in db0.tickets {
      var t := db0.tickets[id];
      ForScopesRest(db0, t.scopes, Prune(now, Some(id)));
      ForScopesRest(ForScopes(db0, t.scopes, Prune(now, Some(id))), t.scopes,
                    Settle(id, HeldTokens(t), t.held.spend, commit, tokens, spend, now));
    }
  }

  lemma ResolvedMatched(scopes: seq<ScopedLimit>, at: Instant)
    ensures Matched(InMillis(ResolveScopes(scopes, at)))
  {
    var resolved := ResolveScopes(scopes, at);
    assert forall i :: 0 <= i < |resolved| ==> ScopeMatchesLimit(resolved[i]);
  }

  lemma StepMatched(db: Db, e: Event)
    requires TicketsMatched(db)
    ensures TicketsMatched(Step(db, e).0)
  {
    hide TicketsMatched, ReserveScript, TopUpScript, SettleScript, ValidateEstimate, ValidateActual, Matched, InMillis, ResolveScopes;
    var now := Millis(e.at.ns);
    match e.call
    case ReserveCall(id, scopes, estimate, ttl) =>
      var v := ValidateEstimate(estimate);
      ResolvedMatched(scopes, e.at);
      if v.Some? {
        ReserveMatched(db, InMillis(ResolveScopes(scopes, e.at)), v.value, id, Fingerprint(scopes, v.value),
                       now, ScriptTtl(ttl), ReserveMinuteTtl(e.at.ns));
      }
    case TopUpCall(id, delta, ttl) =>
      var v := ValidateEstimate(delta);
      if v.Some? {
        TopUpMatched(db, id, EstimatedTokens(v.value), v.value.spend, now, ScriptTtl(ttl));
      }
    case CommitCall(id, actual) =>
      var v := ValidateActual(actual);
      if v.Some? {
        SettleMatched(db, id, true, ActualTokens(v.value), v.value.spend, now);
      }
    case RefundCall(id) => SettleMatched(db, id, false, 0, 0, now);
    case UsageCall(ref) => PrunedMatched(db, ref, now);
  }

  lemma PrunedMatched(db: Db, ref: ScopeRef, now: int)
    requires TicketsMatched(db)
    ensures TicketsMatched(PruneScript(db, ref, now).0)
  {
    hide PruneSection, ScopeMatchesLimit;
  }

  lemma {:induction false} RunMatched(db: Db, es: seq<Event>)
    requires TicketsMatched(db)
    ensures TicketsMatched(Run(db, es))
    decreases |es|
  {
    hide TicketsMatched, Step;
    if es != [] {
      StepMatched(db, es[0]);
      RunMatched(Step(db, es[0]).0, es[1..]);
    }
  }

  lemma ReserveWithin(db: Db, before: int, e: Event, i: nat)
    requires DbInv(db, before) && before <= Millis(e.at.ns) && GoodCall(e.call)
    requires S.ValidReserve(e) && S.Admits(db, e, e.call.id) && i < |e.call.scopes|
    ensures var ref, limit, minute := e.call.scopes[i].ref, e.call.scopes[i].limits, e.at.ns / 60_000_000_000;
      var c, c' := Sec(Looks(db, e), ref).counters, Sec(Step(db, e).0, ref).counters;
      && (limit.tpm > 0 ==> Val(c', Tpm(minute)) == Val(c, Tpm(minute)) + EstimatedTokens(e.call.estimate) <= limit.tpm)
      && (limit.rpm > 0 ==> Val(c', Rpm(minute)) == Val(c, Rpm(minute)) + 1 <= limit.rpm)
  {
    hide ReservePruned, CheckReserveAll, AllGrant, FirstRefuses, SectionsInv, TicketsInv, ForScopes, GoodScopes, Sec;
    var v, now := ValidateEstimate(e.call.estimate).value, Millis(e.at.ns);
    var scopes, db1 := InMillis(ResolveScopes(e.call.scopes, e.at)), Looks(db, e);
    LooksInv(db, before, e);
    ReserveHeard(db, before, e);
    SectionOf(db1, scopes[i].ref, now);
    ResolvedMatched(e.call.scopes, e.at);
    HeldWithin(db1, now, scopes, e.call.id, EstimatedTokens(v), v.spend, ScriptTtl(e.call.ttl), ReserveMinuteTtl(e.at.ns), i);
    ReservedSection(db, e, scopes[i].ref);
  }

  /** After every run, a reserve that makes a ticket leaves the minute counters
      of each scope within their limits, one request and its tokens further. */
  lemma ReserveWithinRates(es: seq<Event>, e: Event, i: nat)
    requires InOrder(es, 0) && Clock(es, 0) <= Millis(e.at.ns) && GoodCall(e.call)
    requires S.ValidReserve(e) && S.Admits(Run(EMPTY_DB, es), e, e.call.id) && i < |e.call.scopes|
    ensures var db := Run(EMPTY_DB, es);
      var ref, limit, minute := e.call.scopes[i].ref, e.call.scopes[i].limits, e.at.ns / 60_000_000_000;
      var c, c' := Sec(Looks(db, e), ref).counters, Sec(Step(db, e).0, ref).counters;
      && (limit.tpm > 0 ==> Val(c', Tpm(minute)) == Val(c, Tpm(minute)) + EstimatedTokens(e.call.estimate) <= limit.tpm)
      && (limit.rpm > 0 ==> Val(c', Rpm(minute)) == Val(c, Rpm(minute)) + 1 <= limit.rpm)
  {
    hide Run, DbInv, Looks, Step, Sec;
    EmptyInv(0);
    RunKeepsInv(EMPTY_DB, 0, es);
    ReserveWithin(Run(EMPTY_DB, es), Clock(es, 0), e, i);
  }

  lemma SectionOf(db: Db, ref: ScopeRef, now: int)
    requires SectionsInv(db, now)
    ensures SectionInv(Sec(db, ref), now)
  {
  }

  lemma ReservedSection(db: Db, e: Event, ref: ScopeRef)
    requires S.ValidReserve(e) && S.Admits(db, e, e.call.id)
    ensures var v, scopes := ValidateEstimate(e.call.estimate).value, InMillis(ResolveScopes(e.call.scopes, e.at));
      Sec(Step(db, e).0, ref)
        == Sec(ForScopes(Looks(db, e), scopes, Hold(e.call.id, EstimatedTokens(v), v.spend, Millis(e.at.ns), ScriptTtl(e.call.ttl),
                                                    ReserveMinuteTtl(e.at.ns))), ref)
  {
    hide ReservePruned, CheckReserveAll, ForScopes, ResolveScopes, InMillis, ValidateEstimate;
  }

  /** After every run, a granted top-up leaves the token counter of each scope of
      its ticket within the limit, its tokens further. */
  lemma TopUpWithinRates(es: seq<Event>, e: Event, i: nat)
    requires InOrder(es, 0) && Clock(es, 0) <= Millis(e.at.ns) && ValidTopUp(Run(EMPTY_DB, es), e)
    requires Step(Run(EMPTY_DB, es), e).1 == Done
    requires i < |Sweep(Run(EMPTY_DB, es), Millis(e.at.ns)).tickets[e.call.id].scopes|
    ensures var db := Run(EMPTY_DB, es);
      var scope := Sweep(db, Millis(e.at.ns)).tickets[e.call.id].scopes[i];
      var c, c' := Sec(LooksFor(db, e), scope.ref).counters, Sec(Step(db, e).0, scope.ref).counters;
      scope.limit.tpm > 0 ==>
        Val(c', scope.keys.tpm) == Val(c, scope.keys.tpm) + EstimatedTokens(ValidateEstimate(e.call.delta).value) <= scope.limit.tpm
  {
    hide Run, CheckTopUpAll, AllGrant, FirstRefuses, SectionsInv, TicketsInv, ForScopes, GoodScopes, Sec, ValidateEstimate, ScopeMatchesLimit;
    var db, v, now := Run(EMPTY_DB, es), ValidateEstimate(e.call.delta).value, Millis(e.at.ns);
    var t := Sweep(db, now).tickets[e.call.id];
    LooksForInv(es, e);
    TopUpDecision(es, e);
    SectionOf(LooksFor(db, e), t.scopes[i].ref, now);
    RunMatched(EMPTY_DB, es);
    assert e.call.id in db.tickets && db.tickets[e.call.id] == t;
    ToppedWithin(LooksFor(db, e), now, t.scopes, e.call.id, EstimatedTokens(v), v.spend, ScriptTtl(e.call.ttl), i);
    ToppedSection(db, e, t.scopes[i].ref);
  }

  lemma ToppedSection(db: Db, e: Event, ref: ScopeRef)
    requires ValidTopUp(db, e) && Step(db, e).1 == Done
    ensures var v, t := ValidateEstimate(e.call.delta).value, Sweep(db, Millis(e.at.ns)).tickets[e.call.id];
      Sec(Step(db, e).0, ref)
        == Sec(ForScopes(LooksFor(db, e), t.scopes, TopUp(e.call.id, EstimatedTokens(v), v.spend, Millis(e.at.ns), ScriptTtl(e.call.ttl))), ref)
  {
    hide CheckTopUpAll, ForScopes, ValidateEstimate, Sweep;
  }
}
