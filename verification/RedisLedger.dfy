/** The Redis quota database and the four Lua scripts that maintain it
    (store/redis.go). Every accounting key carries its scope ref, so the database
    is one section per ref beside the tickets and the settlement tombstones. Times
    are milliseconds; a Redis key is gone once the clock has passed its expiry. */
module RedisLedger {
  import opened QuotaTypes

  datatype Counter = Counter(value: int, expireAt: Option<int>)

  datatype Lease = Lease(active: Key, tpm: Key, spendHeld: Key, dayHeld: Key, monthHeld: Key,
                         tokens: int, spend: int)

  // The sorted set of lease expiries and the hash of lease records of one scope.
  datatype LeaseSet = LeaseSet(scores: map<Id, int>, expireAt: int)
  datatype LeaseHash = LeaseHash(fields: map<Id, Lease>, expireAt: int)

  datatype Section = Section(counters: map<Key, Counter>, leases: Option<LeaseSet>, data: Option<LeaseHash>)

  datatype Fingerprint = Fingerprint(scopes: seq<ScopedLimit>, estimate: EstimatedUsage)

  datatype Ticket = Ticket(held: EstimatedUsage, scopes: seq<Scope>, fingerprint: Fingerprint, expireAt: int)

  datatype Db = Db(sections: map<ScopeRef, Section>, tickets: map<Id, Ticket>,
                   settled: map<Id, int>, settledExpireAt: int)

  const EMPTY_SECTION: Section := Section(map[], None, None)
  const EMPTY_DB: Db := Db(map[], map[], map[], 0)

  datatype Reason = MaxParallel | RpmLimit | TpmLimit | SpendLimit | DailyTokens | MonthlyTokens
  datatype Verdict = Pass | Capacity | Exceeds(reason: Reason) | Missing
  datatype ReserveResult = Reserved | Exists | Conflict | Refused(verdict: Verdict)
  datatype SettleResult = NotFound | Settled | AlreadySettled | OverCapacity

  // --- Redis primitives -------------------------------------------------

  function Sec(db: Db, ref: ScopeRef): Section {
    if ref in db.sections then db.sections[ref] else EMPTY_SECTION
  }

  // Redis keeps no empty containers, so an empty section is no section.
  function PutSec(db: Db, ref: ScopeRef, sec: Section): Db {
    db.(sections := if sec == EMPTY_SECTION then db.sections - {ref} else db.sections[ref := sec])
  }

  function Scores(sec: Section): map<Id, int> {
    if sec.leases.Some? then sec.leases.value.scores else map[]
  }

  function Fields(sec: Section): map<Id, Lease> {
    if sec.data.Some? then sec.data.value.fields else map[]
  }

  function Val(c: map<Key, Counter>, k: Key): int {
    if k in c then c[k].value else 0
  }

  function IncrBy(c: map<Key, Counter>, k: Key, d: int): map<Key, Counter> {
    c[k := Counter(Val(c, k) + d, if k in c then c[k].expireAt else None)]
  }

  function Expire(c: map<Key, Counter>, k: Key, at: int): map<Key, Counter> {
    if k in c then c[k := c[k].(expireAt := Some(at))] else c
  }

  // Adds a positive or zero amount to a counter the scope has configured.
  function AddHold(c: map<Key, Counter>, k: Key, d: int): map<Key, Counter> {
    if k == NoKey then c else IncrBy(c, k, d)
  }

  function AddExpiring(c: map<Key, Counter>, k: Key, d: int, at: int): map<Key, Counter> {
    if k == NoKey then c else Expire(IncrBy(c, k, d), k, at)
  }

  function Decrement(c: map<Key, Counter>, k: Key, amount: int): map<Key, Counter> {
    if k == NoKey || amount <= 0 then c
    else if Val(c, k) - amount <= 0 then c - {k}
    else IncrBy(c, k, -amount)
  }

  function ExpireNoEarlier(c: map<Key, Counter>, k: Key, now: int, at: int): map<Key, Counter> {
    if k == NoKey || k !in c then c
    else
      var desired := if at - now < 1 then 1 else at - now;
      var current := if c[k].expireAt.Some? then c[k].expireAt.value - now else -1;
      if current < desired then Expire(c, k, now + desired) else c
  }

  function RemoveScores(s: Option<LeaseSet>, ids: set<Id>): Option<LeaseSet> {
    if s.None? || s.value.scores.Keys <= ids then None
    else Some(s.value.(scores := s.value.scores - ids))
  }

  function RemoveFields(h: Option<LeaseHash>, ids: set<Id>): Option<LeaseHash> {
    if h.None? || h.value.fields.Keys <= ids then None
    else Some(h.value.(fields := h.value.fields - ids))
  }

  // Keys whose expiry has passed are no longer visible to a script.
  function SweepSection(sec: Section, now: int): Section {
    Section(
      map k | k in sec.counters && (sec.counters[k].expireAt.None? || now <= sec.counters[k].expireAt.value)
        :: sec.counters[k],
      if sec.leases.Some? && sec.leases.value.expireAt < now then None else sec.leases,
      if sec.data.Some? && sec.data.value.expireAt < now then None else sec.data)
  }

  function Sweep(db: Db, now: int): Db {
    Db(map ref | ref in db.sections && SweepSection(db.sections[ref], now) != EMPTY_SECTION
         :: SweepSection(db.sections[ref], now),
       map id | id in db.tickets && now <= db.tickets[id].expireAt :: db.tickets[id],
       if db.settledExpireAt < now then map[] else db.settled,
       db.settledExpireAt)
  }

  // --- Sorted-set order -------------------------------------------------

  predicate IsFirst(m: map<Id, int>, a: Id) {
    a in m && forall b :: b in m ==> m[a] < m[b] || (m[a] == m[b] && a <= b)
  }

  lemma {:induction false} HasFirst(m: map<Id, int>)
    requires m != map[]
    ensures exists a :: IsFirst(m, a)
    decreases |m|
  {
    assert m.Keys != {};
    var x :| x in m;
    var rest := m - {x};
    if rest == map[] {
      assert forall b :: b in m ==> b in rest || b == x;
      assert IsFirst(m, x);
    } else {
      HasFirst(rest);
      var a :| IsFirst(rest, a);
      assert forall b :: b in m ==> b in rest || b == x;
      assert IsFirst(m, if m[a] < m[x] || (m[a] == m[x] && a <= x) then a else x);
    }
  }

  function First(m: map<Id, int>): (a: Id)
    requires m != map[]
    ensures IsFirst(m, a)
  {
    HasFirst(m);
    var a :| IsFirst(m, a);
    a
  }

  /** Members by ascending score, ties by member. */
  function Ordered(m: map<Id, int>): (ids: seq<Id>)
    decreases |m|
  {
    if m == map[] then [] else [First(m)] + Ordered(m - {First(m)})
  }

  lemma {:induction false} OrderedMembers(m: map<Id, int>)
    ensures forall id :: id in Ordered(m) <==> id in m
    decreases |m|
  {
    if m != map[] {
      var a := First(m);
      OrderedMembers(m - {a});
      assert Ordered(m) == [a] + Ordered(m - {a});
      assert forall id :: id in Ordered(m) <==> id == a || id in Ordered(m - {a});
    }
  }

  lemma {:induction false} OrderedByScore(m: map<Id, int>, i: nat, j: nat)
    requires i < j < |Ordered(m)|
    ensures Ordered(m)[i] in m && Ordered(m)[j] in m && m[Ordered(m)[i]] <= m[Ordered(m)[j]]
    ensures m[Ordered(m)[i]] == m[Ordered(m)[j]] ==> Ordered(m)[i] < Ordered(m)[j]
    decreases |m|
  {
    var a := First(m);
    var rest := m - {a};
    var tail := Ordered(rest);
    assert Ordered(m) == [a] + tail;
    if i == 0 {
      OrderedMembers(rest);
      assert tail[j - 1] in tail;
    } else {
      OrderedByScore(rest, i - 1, j - 1);
    }
  }

  // ZREVRANGE 0 0 WITHSCORES: the score of the last member.
  function Latest(m: map<Id, int>): (score: int)
    requires m != map[]
    ensures forall id :: id in m ==> m[id] <= score
    ensures exists id :: id in m && m[id] == score
  {
    OrderedMembers(m);
    var ids := Ordered(m);
    assert ids != [] && ids[|ids| - 1] in ids;
    LastIsLatest(m);
    m[ids[|ids| - 1]]
  }

  lemma LastIsLatest(m: map<Id, int>)
    requires m != map[]
    ensures var ids := Ordered(m); ids != [] && ids[|ids| - 1] in m
    ensures var ids := Ordered(m); forall id :: id in m ==> m[id] <= m[ids[|ids| - 1]]
  {
    OrderedMembers(m);
    var ids := Ordered(m);
    assert ids[|ids| - 1] in ids;
    forall id | id in m
      ensures m[id] <= m[ids[|ids| - 1]]
    {
      var i :| 0 <= i < |ids| && ids[i] == id;
      if i < |ids| - 1 {
        OrderedByScore(m, i, |ids| - 1);
      }
    }
  }

  // --- Pruning ----------------------------------------------------------

  // What dropping one lease takes back from the counters.
  function ReleaseLease(c: map<Key, Counter>, lease: Lease): map<Key, Counter> {
    var c1 := Decrement(c, lease.active, 1);
    var c2 := Decrement(c1, lease.tpm, lease.tokens);
    var c3 := Decrement(c2, lease.spendHeld, lease.spend);
    var c4 := Decrement(c3, lease.dayHeld, lease.tokens);
    Decrement(c4, lease.monthHeld, lease.tokens)
  }

  function DropLease(sec: Section, id: Id): Section {
    if id in Fields(sec)
    then sec.(counters := ReleaseLease(sec.counters, Fields(sec)[id]), data := RemoveFields(sec.data, {id}))
    else sec
  }

  function DropLeases(sec: Section, ids: seq<Id>): Section
    decreases |ids|
  {
    if ids == [] then sec else DropLeases(DropLease(sec, ids[0]), ids[1..])
  }

  function Expired(sec: Section, now: int, protected: Option<Id>): map<Id, int> {
    map id | id in Scores(sec) && Scores(sec)[id] <= now && Some(id) != protected :: Scores(sec)[id]
  }

  /** The prune function of the scripts. The reserve and prune scripts protect
      nobody and delete both containers once the set is empty. */
  function PruneSection(sec: Section, now: int, protected: Option<Id>): Section {
    var expired := Expired(sec, now, protected);
    var dropped := DropLeases(sec, Ordered(expired));
    var leases := RemoveScores(sec.leases, expired.Keys);
    dropped.(leases := leases,
             data := if protected.None? && leases.None? then None else dropped.data)
  }

  function PruneSettled(db: Db, now: int): Db {
    db.(settled := map id | id in db.settled && now < db.settled[id] :: db.settled[id])
  }

  // --- Reserve ----------------------------------------------------------

  function CounterValue(c: map<Key, Counter>, k: Key): Option<int> {
    if k == NoKey then Some(0)
    else
      var v := Val(c, k);
      if 0 <= v <= MAX_QUOTA then Some(v) else None
  }

  predicate AllReadable(c: map<Key, Counter>, keys: QuotaKeys) {
    && CounterValue(c, keys.tpm).Some?
    && CounterValue(c, keys.spendUsed).Some? && CounterValue(c, keys.spendHeld).Some?
    && CounterValue(c, keys.dayUsed).Some? && CounterValue(c, keys.dayHeld).Some?
    && CounterValue(c, keys.monthUsed).Some? && CounterValue(c, keys.monthHeld).Some?
  }

  // The token and spend checks shared by the reserve and top-up scripts.
  predicate HoldFits(c: map<Key, Counter>, keys: QuotaKeys, tokens: int, spend: int)
    requires AllReadable(c, keys)
  {
    && (keys.tpm != NoKey ==> tokens <= MAX_QUOTA - CounterValue(c, keys.tpm).value)
    && (keys.spendHeld != NoKey ==> spend <= MAX_QUOTA - CounterValue(c, keys.spendHeld).value)
    && (keys.dayHeld != NoKey ==> tokens <= MAX_QUOTA - CounterValue(c, keys.dayHeld).value)
    && (keys.monthHeld != NoKey ==> tokens <= MAX_QUOTA - CounterValue(c, keys.monthHeld).value)
  }

  function CheckBudgets(c: map<Key, Counter>, scope: Scope, tokens: int, spend: int): Verdict
    requires AllReadable(c, scope.keys)
  {
    var keys, limit := scope.keys, scope.limit;
    if limit.tpm > 0 && CounterValue(c, keys.tpm).value + tokens > limit.tpm then Exceeds(TpmLimit)
    else if limit.maxSpend > 0 &&
            CounterValue(c, keys.spendUsed).value + CounterValue(c, keys.spendHeld).value + spend > limit.maxSpend
    then Exceeds(SpendLimit)
    else if limit.daily > 0 &&
            CounterValue(c, keys.dayUsed).value + CounterValue(c, keys.dayHeld).value + tokens > limit.daily
    then Exceeds(DailyTokens)
    else if limit.monthly > 0 &&
            CounterValue(c, keys.monthUsed).value + CounterValue(c, keys.monthHeld).value + tokens > limit.monthly
    then Exceeds(MonthlyTokens)
    else Pass
  }

  function CheckReserve(c: map<Key, Counter>, scope: Scope, tokens: int, spend: int): Verdict {
    var keys, limit := scope.keys, scope.limit;
    var active := CounterValue(c, keys.active);
    var rpm := CounterValue(c, keys.rpm);
    if active.None? || rpm.None? || !AllReadable(c, keys) then Capacity
    else if (keys.active != NoKey && 1 > MAX_QUOTA - active.value)
         || (keys.rpm != NoKey && 1 > MAX_QUOTA - rpm.value)
         || !HoldFits(c, keys, tokens, spend)
    then Capacity
    else if limit.maxParallel > 0 && active.value + 1 > limit.maxParallel then Exceeds(MaxParallel)
    else if limit.rpm > 0 && rpm.value + 1 > limit.rpm then Exceeds(RpmLimit)
    else CheckBudgets(c, scope, tokens, spend)
  }

  function CheckReserveAll(db: Db, scopes: seq<Scope>, tokens: int, spend: int): Verdict
    decreases |scopes|
  {
    if scopes == [] then Pass
    else
      var v := CheckReserve(Sec(db, scopes[0].ref).counters, scopes[0], tokens, spend);
      if v != Pass then v else CheckReserveAll(db, scopes[1..], tokens, spend)
  }

  // Adds or refreshes the lease of one request and renews both containers.
  function PutLease(sec: Section, id: Id, lease: Lease, at: int, grace: int): Section {
    var scores := Scores(sec)[id := at];
    assert id in scores;
    var until := Latest(scores) + grace;
    sec.(leases := Some(LeaseSet(scores, until)),
         data := Some(LeaseHash(Fields(sec)[id := lease], until)))
  }

  function LeaseFor(keys: QuotaKeys, tokens: int, spend: int): Lease {
    Lease(keys.active, keys.tpm, keys.spendHeld, keys.dayHeld, keys.monthHeld, tokens, spend)
  }

  function RenewHeld(c: map<Key, Counter>, keys: QuotaKeys, now: int, at: int): map<Key, Counter> {
    var c1 := ExpireNoEarlier(c, keys.active, now, at);
    var c2 := ExpireNoEarlier(c1, keys.spendHeld, now, at);
    var c3 := ExpireNoEarlier(c2, keys.dayHeld, now, at);
    ExpireNoEarlier(c3, keys.monthHeld, now, at)
  }

  function RequestCounters(c: map<Key, Counter>, keys: QuotaKeys, tokens: int, until: int): map<Key, Counter> {
    var c1 := AddHold(c, keys.active, 1);
    var c2 := AddExpiring(c1, keys.rpm, 1, until);
    AddExpiring(c2, keys.tpm, tokens, until)
  }

  function BudgetCounters(c: map<Key, Counter>, keys: QuotaKeys, tokens: int, spend: int): map<Key, Counter> {
    var c1 := AddHold(c, keys.spendHeld, spend);
    var c2 := AddHold(c1, keys.dayHeld, tokens);
    AddHold(c2, keys.monthHeld, tokens)
  }

  function ReserveCounters(c: map<Key, Counter>, keys: QuotaKeys, tokens: int, spend: int,
                           now: int, minuteTtl: int): map<Key, Counter>
  {
    BudgetCounters(RequestCounters(c, keys, tokens, now + minuteTtl), keys, tokens, spend)
  }

  function HoldScope(sec: Section, scope: Scope, id: Id, tokens: int, spend: int,
                     now: int, ttl: int, minuteTtl: int): Section
  {
    var held := sec.(counters := ReserveCounters(sec.counters, scope.keys, tokens, spend, now, minuteTtl));
    var leased := PutLease(held, id, LeaseFor(scope.keys, tokens, spend), now + ttl, minuteTtl);
    leased.(counters := RenewHeld(leased.counters, scope.keys, now, now + ttl))
  }

  // --- Top up -----------------------------------------------------------

  function HeldTokens(t: Ticket): int { t.held.input + t.held.output }

  function MinuteTtl(now: int): (r: int)
    ensures 1 <= r <= 60000
  {
    var left := (now / 60000 + 1) * 60000 - now;
    if left < 1 then 1 else left
  }

  function CheckTopUp(sec: Section, scope: Scope, id: Id, tokens: int, spend: int): Verdict {
    if id !in Fields(sec) then Missing
    else if !AllReadable(sec.counters, scope.keys) then Capacity
    else if !HoldFits(sec.counters, scope.keys, tokens, spend) then Capacity
    else CheckBudgets(sec.counters, scope, tokens, spend)
  }

  function CheckTopUpAll(db: Db, scopes: seq<Scope>, id: Id, tokens: int, spend: int): Verdict
    decreases |scopes|
  {
    if scopes == [] then Pass
    else
      var v := CheckTopUp(Sec(db, scopes[0].ref), scopes[0], id, tokens, spend);
      if v != Pass then v else CheckTopUpAll(db, scopes[1..], id, tokens, spend)
  }

  function TopUpCounters(c: map<Key, Counter>, keys: QuotaKeys, tokens: int, spend: int,
                         now: int, minuteTtl: int): map<Key, Counter>
  {
    var c1 := if tokens > 0 then AddExpiring(c, keys.tpm, tokens, now + minuteTtl) else c;
    var c2 := if spend > 0 then AddHold(c1, keys.spendHeld, spend) else c1;
    var c3 := if tokens > 0 then AddHold(c2, keys.dayHeld, tokens) else c2;
    if tokens > 0 then AddHold(c3, keys.monthHeld, tokens) else c3
  }

  function TopUpScope(sec: Section, scope: Scope, id: Id, tokens: int, spend: int,
                      now: int, ttl: int): Section
    requires id in Fields(sec)
  {
    var minuteTtl := MinuteTtl(now);
    var held := sec.(counters := TopUpCounters(sec.counters, scope.keys, tokens, spend, now, minuteTtl));
    var lease := Fields(sec)[id];
    var leased := PutLease(held, id, lease.(tokens := lease.tokens + tokens, spend := lease.spend + spend),
                           now + ttl, minuteTtl);
    leased.(counters := RenewHeld(leased.counters, scope.keys, now, now + ttl))
  }

  // --- Settle -----------------------------------------------------------

  predicate LeasesPresent(db: Db, scopes: seq<Scope>, id: Id) {
    forall i :: 0 <= i < |scopes| ==> id in Fields(Sec(db, scopes[i].ref))
  }

  predicate CanSettle(c: map<Key, Counter>, keys: QuotaKeys, heldTokens: int,
                      commit: bool, tokens: int, spend: int)
  {
    && AllReadable(c, keys)
    && CounterValue(c, keys.active).Some?
    && (commit ==>
        && !(tokens > heldTokens && keys.tpm != NoKey && keys.tpm in c && tokens - heldTokens > MAX_QUOTA - Val(c, keys.tpm))
        && (keys.spendUsed != NoKey ==> spend <= MAX_QUOTA - Val(c, keys.spendUsed))
        && (keys.dayUsed != NoKey ==> tokens <= MAX_QUOTA - Val(c, keys.dayUsed))
        && (keys.monthUsed != NoKey ==> tokens <= MAX_QUOTA - Val(c, keys.monthUsed)))
  }

  predicate CanSettleAll(db: Db, scopes: seq<Scope>, heldTokens: int, commit: bool, tokens: int, spend: int) {
    forall i :: 0 <= i < |scopes| ==>
      CanSettle(Sec(db, scopes[i].ref).counters, scopes[i].keys, heldTokens, commit, tokens, spend)
  }

  // A used counter lives until its bucket expiry, or for the grace period when
  // that has already passed; a zero expiry means the counter never expires.
  function AddUsed(c: map<Key, Counter>, k: Key, amount: int, at: int, now: int, grace: int): map<Key, Counter> {
    if k == NoKey || amount <= 0 then c
    else if at <= 0 && k.SpendUsed? then IncrBy(c, k, amount)
    else Expire(IncrBy(c, k, amount), k, if at <= now then now + grace else at)
  }

  // The minute counter keeps what was really used: the rest of the hold goes
  // back, and an excess is added while the minute is still counted.
  function SettleMinute(c: map<Key, Counter>, k: Key, heldTokens: int, retained: int): map<Key, Counter> {
    if heldTokens > retained then Decrement(c, k, heldTokens - retained)
    else if retained > heldTokens && k != NoKey && k in c then IncrBy(c, k, retained - heldTokens)
    else c
  }

  function ReleaseHeld(c: map<Key, Counter>, keys: QuotaKeys, heldTokens: int, heldSpend: int): map<Key, Counter> {
    var c1 := Decrement(c, keys.active, 1);
    var c2 := Decrement(c1, keys.spendHeld, heldSpend);
    var c3 := Decrement(c2, keys.dayHeld, heldTokens);
    Decrement(c3, keys.monthHeld, heldTokens)
  }

  function CommitUsed(c: map<Key, Counter>, scope: Scope, tokens: int, spend: int,
                      now: int, grace: int): map<Key, Counter>
  {
    var keys, expires := scope.keys, scope.expires;
    var c1 := AddUsed(c, keys.spendUsed, spend, expires.spendUsed, now, grace);
    var c2 := AddUsed(c1, keys.dayUsed, tokens, expires.dayUsed, now, grace);
    AddUsed(c2, keys.monthUsed, tokens, expires.monthUsed, now, grace)
  }

  function SettleCounters(c: map<Key, Counter>, scope: Scope, heldTokens: int, heldSpend: int,
                          commit: bool, tokens: int, spend: int, now: int, grace: int): map<Key, Counter>
  {
    var c1 := SettleMinute(c, scope.keys.tpm, heldTokens, if commit then tokens else 0);
    var c2 := ReleaseHeld(c1, scope.keys, heldTokens, heldSpend);
    if commit then CommitUsed(c2, scope, tokens, spend, now, grace) else c2
  }

  // refreshLeaseExpiry: drop both containers with the last lease, else renew them.
  function RefreshLeases(sec: Section, grace: int): Section {
    if Scores(sec) == map[] then sec.(leases := None, data := None)
    else
      var until := Latest(Scores(sec)) + grace;
      sec.(leases := Some(LeaseSet(Scores(sec), until)),
           data := if sec.data.Some? then Some(LeaseHash(Fields(sec), until)) else None)
  }

  function SettleScope(sec: Section, scope: Scope, id: Id, heldTokens: int, heldSpend: int,
                       commit: bool, tokens: int, spend: int, now: int, grace: int): Section
  {
    var counters := SettleCounters(sec.counters, scope, heldTokens, heldSpend, commit, tokens, spend, now, grace);
    RefreshLeases(Section(counters, RemoveScores(sec.leases, {id}), RemoveFields(sec.data, {id})), grace)
  }

  // --- Whole scripts ------------------------------------------------------

  /** What a script does to the section of each of its scopes, in turn. */
  datatype Action =
    | Prune(now: int, protected: Option<Id>)
    | Hold(id: Id, tokens: int, spend: int, now: int, ttl: int, minuteTtl: int)
    | TopUp(id: Id, tokens: int, spend: int, now: int, ttl: int)
    | Settle(id: Id, heldTokens: int, heldSpend: int, commit: bool, tokens: int, spend: int, now: int)

  function Act(a: Action, scope: Scope, sec: Section): Section {
    match a
    case Prune(now, protected) => PruneSection(sec, now, protected)
    case Hold(id, tokens, spend, now, ttl, minuteTtl) =>
      HoldScope(sec, scope, id, tokens, spend, now, ttl, minuteTtl)
    case TopUp(id, tokens, spend, now, ttl) =>
      if id in Fields(sec) then TopUpScope(sec, scope, id, tokens, spend, now, ttl) else sec
    case Settle(id, heldTokens, heldSpend, commit, tokens, spend, now) =>
      SettleScope(sec, scope, id, heldTokens, heldSpend, commit, tokens, spend, now, BUCKET_GRACE)
  }

  function ForScopes(db: Db, scopes: seq<Scope>, a: Action): Db
    decreases |scopes|
  {
    if scopes == [] then db
    else ForScopes(PutSec(db, scopes[0].ref, Act(a, scopes[0], Sec(db, scopes[0].ref))), scopes[1..], a)
  }

  const TOMBSTONE_TTL: int := 60_000
  const BUCKET_GRACE: int := 3_600_000

  // The state a reserve leaves behind when it admits nothing new.
  function ReservePruned(db: Db, scopes: seq<Scope>, now: int): Db {
    PruneSettled(ForScopes(Sweep(db, now), scopes, Prune(now, None)), now)
  }

  function ReserveScript(db: Db, scopes: seq<Scope>, estimate: EstimatedUsage, id: Id, fingerprint: Fingerprint,
                         now: int, ttl: int, minuteTtl: int): (Db, ReserveResult)
  {
    var tokens, spend := EstimatedTokens(estimate), estimate.spend;
    var db1 := ReservePruned(db, scopes, now);
    if id in db1.settled then (db1, Conflict)
    else if id in db1.tickets then (db1, if db1.tickets[id].fingerprint == fingerprint then Exists else Conflict)
    else
      var v := CheckReserveAll(db1, scopes, tokens, spend);
      if v != Pass then (db1, Refused(v))
      else
        var db2 := ForScopes(db1, scopes, Hold(id, tokens, spend, now, ttl, minuteTtl));
        (db2.(tickets := db2.tickets[id := Ticket(estimate, scopes, fingerprint, now + ttl)]), Reserved)
  }

  function TopUpScript(db: Db, id: Id, tokens: int, spend: int, now: int, ttl: int): (Db, Verdict)
    requires 0 <= tokens <= MAX_QUOTA && 0 <= spend <= MAX_QUOTA
  {
    var db0 := Sweep(db, now);
    if id !in db0.tickets then (db0, Missing)
    else
      var t := db0.tickets[id];
      var heldTokens, heldSpend := HeldTokens(t), t.held.spend;
      if heldTokens < 0 || heldTokens > MAX_QUOTA || tokens > MAX_QUOTA - heldTokens
         || heldSpend < 0 || heldSpend > MAX_QUOTA || spend > MAX_QUOTA - heldSpend
      then (db0, Capacity)
      else
        var db1 := ForScopes(db0, t.scopes, Prune(now, Some(id)));
        var v := CheckTopUpAll(db1, t.scopes, id, tokens, spend);
        if v != Pass then (db1, v)
        else
          var db2 := ForScopes(db1, t.scopes, TopUp(id, tokens, spend, now, ttl));
          var held := EstimatedUsage(heldTokens + tokens, 0, heldSpend + spend);
          (db2.(tickets := db2.tickets[id := t.(held := held, expireAt := now + ttl)]), Pass)
  }

  function SettleScript(db: Db, id: Id, commit: bool, tokens: int, spend: int, now: int): (Db, SettleResult) {
    var db0 := PruneSettled(Sweep(db, now), now);
    if id !in db0.tickets then (db0, if id in db0.settled then AlreadySettled else NotFound)
    else
      var t := db0.tickets[id];
      if !LeasesPresent(db0, t.scopes, id) then (db0, NotFound)
      else
        var db1 := ForScopes(db0, t.scopes, Prune(now, Some(id)));
        var heldTokens, heldSpend := HeldTokens(t), t.held.spend;
        if heldTokens < 0 || heldTokens > MAX_QUOTA || heldSpend < 0 || heldSpend > MAX_QUOTA
           || !CanSettleAll(db1, t.scopes, heldTokens, commit, tokens, spend)
        then (db1, OverCapacity)
        else
          var db2 := ForScopes(db1, t.scopes, Settle(id, heldTokens, heldSpend, commit, tokens, spend, now));
          (db2.(settled := db2.settled[id := now + TOMBSTONE_TTL], settledExpireAt := now + TOMBSTONE_TTL,
                tickets := db2.tickets - {id}), Settled)
  }

  function PruneScript(db: Db, ref: ScopeRef, now: int): (Db, nat) {
    var db0 := Sweep(db, now);
    var sec := Sec(db0, ref);
    (PutSec(db0, ref, PruneSection(sec, now, None)), |Expired(sec, now, None)|)
  }

  // --- Store calls --------------------------------------------------------

  datatype Call =
    | ReserveCall(id: Id, scopes: seq<ScopedLimit>, estimate: EstimatedUsage, ttl: int64)
    | TopUpCall(id: Id, delta: EstimatedUsage, ttl: int64)
    | CommitCall(id: Id, actual: ActualUsage)
    | RefundCall(id: Id)
    | UsageCall(ref: ScopeRef)

  /** A store call and the instant of its script. */
  datatype Event = Event(at: Instant, call: Call)

  datatype Outcome = Done | NotFoundError | ConflictError | CapacityError | RateLimited(reason: Reason)

  const MILLISECOND: int := 1_000_000

  function Millis(ns: int): int { ns / MILLISECOND }

  function MillisOrZero(ns: int): int { if ns == 0 then 0 else Millis(ns) }

  function InMillis(scopes: seq<Scope>): (r: seq<Scope>) {
    seq(|scopes|, i requires 0 <= i < |scopes| =>
      scopes[i].(expires := QuotaExpiries(MillisOrZero(scopes[i].expires.spendUsed),
                                          MillisOrZero(scopes[i].expires.dayUsed),
                                          MillisOrZero(scopes[i].expires.monthUsed))))
  }

  // A missing or negative TTL means ten minutes; a script TTL is at least 1 ms.
  function ScriptTtl(ttl: int64): (ms: int)
    ensures ms >= 1
  {
    var ns := if ttl <= 0 then 10 * MINUTE else ttl;
    if Millis(ns) <= 0 then 1 else Millis(ns)
  }

  function ReserveMinuteTtl(ns: int): (ms: int)
    ensures ms >= 1
  {
    var left := Millis((ns / MINUTE + 1) * MINUTE - ns);
    if left <= 0 then 1 else left
  }

  /** Only amounts that Redis can account for exactly reach a script. */
  function ValidateEstimate(u: EstimatedUsage): (r: Option<EstimatedUsage>)
    ensures r.Some? ==> NormalEstimate(r.value) && EstimatedTokens(r.value) <= MAX_QUOTA && r.value.spend <= MAX_QUOTA
    ensures r.Some? <==> EstimatedTokens(u) <= MAX_QUOTA && u.spend <= MAX_QUOTA
  {
    var n := NormalizeEstimate(u);
    if n.input > MAX_QUOTA || n.output > MAX_QUOTA - n.input || n.spend > MAX_QUOTA then None else Some(n)
  }

  function ValidateActual(u: ActualUsage): (r: Option<ActualUsage>)
    ensures r.Some? ==> NormalActual(r.value) && ActualTokens(r.value) <= MAX_QUOTA && r.value.spend <= MAX_QUOTA
    ensures r.Some? <==> ActualTokens(u) <= MAX_QUOTA && u.spend <= MAX_QUOTA
  {
    var n := NormalizeActual(u);
    if n.input > MAX_QUOTA || n.output > MAX_QUOTA - n.input || n.spend > MAX_QUOTA then None else Some(n)
  }

  function ReserveOutcome(r: ReserveResult): Outcome {
    match r
    case Reserved => Done
    case Exists => Done
    case Conflict => ConflictError
    case Refused(v) => if v.Exceeds? then RateLimited(v.reason) else CapacityError
  }

  function TopUpOutcome(v: Verdict): Outcome {
    match v
    case Pass => Done
    case Missing => NotFoundError
    case Capacity => CapacityError
    case Exceeds(reason) => RateLimited(reason)
  }

  function SettleOutcome(r: SettleResult): Outcome {
    match r
    case NotFound => NotFoundError
    case OverCapacity => CapacityError
    case _ => Done
  }

  function Step(db: Db, e: Event): (Db, Outcome) {
    var now := Millis(e.at.ns);
    match e.call
    case ReserveCall(id, scopes, estimate, ttl) =>
      var v := ValidateEstimate(estimate);
      if id == 0 then (db, Done)
      else if v.None? then (db, CapacityError)
      else
        var (db', r) := ReserveScript(db, InMillis(ResolveScopes(scopes, e.at)), v.value, id,
                                      Fingerprint(scopes, v.value), now, ScriptTtl(ttl), ReserveMinuteTtl(e.at.ns));
        (db', ReserveOutcome(r))
    case TopUpCall(id, delta, ttl) =>
      var v := ValidateEstimate(delta);
      if id == 0 then (db, Done)
      else if v.None? then (db, CapacityError)
      else
        var (db', r) := TopUpScript(db, id, EstimatedTokens(v.value), v.value.spend, now, ScriptTtl(ttl));
        (db', TopUpOutcome(r))
    case CommitCall(id, actual) =>
      var v := ValidateActual(actual);
      if id == 0 then (db, Done)
      else if v.None? then (db, CapacityError)
      else
        var (db', r) := SettleScript(db, id, true, ActualTokens(v.value), v.value.spend, now);
        (db', SettleOutcome(r))
    case RefundCall(id) =>
      if id == 0 then (db, Done)
      else
        var (db', r) := SettleScript(db, id, false, 0, 0, now);
        (db', SettleOutcome(r))
    case UsageCall(ref) => (PruneScript(db, ref, now).0, Done)
  }

  function Run(db: Db, es: seq<Event>): Db
    decreases |es|
  {
    if es == [] then db else Run(Step(db, es[0]).0, es[1..])
  }
}
