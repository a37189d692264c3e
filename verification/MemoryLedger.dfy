/** The in-process quota ledger (store/store.go): every store method runs under
    one mutex and is one step from ledger to ledger. Times are nanoseconds with
    zero for "no expiry"; the order in which Go visits a map is an input. */
module MemoryLedger {
  import opened QuotaTypes

  datatype FullKey = FullKey(ref: ScopeRef, key: Key)

  datatype CounterEntry = CounterEntry(value: int, expires: int)

  datatype Reservation = Reservation(held: EstimatedUsage, scopes: seq<Scope>, expires: int)

  // A settlement remembers its element of the settlement list.
  datatype Settlement = Settlement(expires: int, expired: bool, element: nat)
  datatype Element = Element(token: nat, id: Id)

  datatype Ledger = Ledger(
    values: map<FullKey, int>, valueExpires: map<FullKey, int>, counters: map<FullKey, CounterEntry>,
    reservations: map<Id, Reservation>, settlements: map<Id, Settlement>,
    order: seq<Element>, nextToken: nat)

  const EMPTY_LEDGER: Ledger := Ledger(map[], map[], map[], map[], map[], [], 0)

  const REPLAY_WINDOW: int := MINUTE
  const MAX_SETTLEMENTS: nat := 65_536

  datatype Limited = MaxParallel | Rpm | Tpm | Spend | Daily | Monthly
  datatype Result = Ok | Conflict | NotFound | RateLimited(reason: Limited)

  // --- Counters -------------------------------------------------------------

  function SaturatingAdd(current: int, delta: int): (r: int)
    ensures r == Min(MAX_INT64, Max(0, Max(current, 0) + delta))
  {
    var cur := if current < 0 then 0 else current;
    if delta < 0 then (if -delta >= cur then 0 else Min(MAX_INT64, cur + delta))
    else if cur > MAX_INT64 - delta then MAX_INT64 else cur + delta
  }

  function Value(s: Ledger, ref: ScopeRef, k: Key): int {
    if FullKey(ref, k) in s.values then s.values[FullKey(ref, k)] else 0
  }

  function AddValue(s: Ledger, ref: ScopeRef, k: Key, delta: int, expires: int, now: int): Ledger {
    if k == NoKey || delta == 0 then s
    else
      var fk := FullKey(ref, k);
      s.(values := s.values[fk := SaturatingAdd(Value(s, ref, k), delta)],
         valueExpires := if expires == 0 then s.valueExpires
                         else s.valueExpires[fk := if expires <= now then now + HOUR else expires])
  }

  function DecrValue(s: Ledger, ref: ScopeRef, k: Key, delta: int): Ledger {
    if k == NoKey || delta == 0 then s
    else
      var fk, v := FullKey(ref, k), Value(s, ref, k) - delta;
      if v <= 0 then s.(values := s.values - {fk}, valueExpires := s.valueExpires - {fk})
      else s.(values := s.values[fk := v])
  }

  function CounterValue(s: Ledger, ref: ScopeRef, k: Key, now: int): int {
    var fk := FullKey(ref, k);
    if fk !in s.counters || s.counters[fk].expires < now then 0 else s.counters[fk].value
  }

  function AddCounter(s: Ledger, ref: ScopeRef, k: Key, delta: int, now: int): Ledger {
    if k == NoKey || delta == 0 then s
    else s.(counters := s.counters[FullKey(ref, k) :=
              CounterEntry(SaturatingAdd(CounterValue(s, ref, k, now), delta), NextMinute(now))])
  }

  function NextMinute(now: int): int { (now / MINUTE + 1) * MINUTE }

  function ReconcileCounter(s: Ledger, ref: ScopeRef, k: Key, held: int, actual: int, now: int): Ledger {
    var fk := FullKey(ref, k);
    if k == NoKey then s
    else if fk !in s.counters || (s.counters[fk].expires != 0 && s.counters[fk].expires <= now)
    then s.(counters := s.counters - {fk})
    else
      var v := SaturatingAdd(s.counters[fk].value, Max(actual, 0) - Max(held, 0));
      if v == 0 then s.(counters := s.counters - {fk})
      else s.(counters := s.counters[fk := s.counters[fk].(value := v)])
  }

  // --- Limits ---------------------------------------------------------------

  function TotalOf(values: seq<int>): int {
    if values == [] then 0 else Max(values[0], 0) + TotalOf(values[1..])
  }

  /** Whether non-negative parts of `values` add up to more than a configured limit. */
  predicate ExceedsLimit(limit: int, values: seq<int>) {
    limit > 0 && TotalOf(values) > limit
  }

  function CheckScope(s: Ledger, scope: Scope, e: EstimatedUsage, now: int, topUp: bool): Option<Limited> {
    var ref, limit, keys, tokens := scope.ref, scope.limit, scope.keys, EstimatedTokens(e);
    if !topUp && ExceedsLimit(limit.maxParallel, [Value(s, ref, keys.active), 1]) then Some(MaxParallel)
    else if !topUp && ExceedsLimit(limit.rpm, [CounterValue(s, ref, keys.rpm, now), 1]) then Some(Limited.Rpm)
    else if ExceedsLimit(limit.tpm, [CounterValue(s, ref, keys.tpm, now), tokens]) then Some(Limited.Tpm)
    else if ExceedsLimit(limit.maxSpend, [Value(s, ref, keys.spendUsed), Value(s, ref, keys.spendHeld), e.spend])
    then Some(Spend)
    else if ExceedsLimit(limit.daily, [Value(s, ref, keys.dayUsed), Value(s, ref, keys.dayHeld), tokens])
    then Some(Daily)
    else if ExceedsLimit(limit.monthly, [Value(s, ref, keys.monthUsed), Value(s, ref, keys.monthHeld), tokens])
    then Some(Monthly)
    else None
  }

  function CheckScopes(s: Ledger, scopes: seq<Scope>, e: EstimatedUsage, now: int, topUp: bool): Option<Limited>
    decreases |scopes|
  {
    if scopes == [] then None
    else
      var v := CheckScope(s, scopes[0], e, now, topUp);
      if v.Some? then v else CheckScopes(s, scopes[1..], e, now, topUp)
  }

  // --- Holds ----------------------------------------------------------------

  function ApplyRequest(s: Ledger, scope: Scope, now: int): Ledger {
    AddCounter(AddValue(s, scope.ref, scope.keys.active, 1, 0, now), scope.ref, scope.keys.rpm, 1, now)
  }

  function ApplyBudgets(s: Ledger, scope: Scope, tokens: int, spend: int, now: int): Ledger {
    var s1 := AddCounter(s, scope.ref, scope.keys.tpm, tokens, now);
    var s2 := AddValue(s1, scope.ref, scope.keys.spendHeld, spend, 0, now);
    var s3 := AddValue(s2, scope.ref, scope.keys.dayHeld, tokens, 0, now);
    AddValue(s3, scope.ref, scope.keys.monthHeld, tokens, 0, now)
  }

  function ApplyHold(s: Ledger, scope: Scope, e: EstimatedUsage, now: int, topUp: bool): Ledger {
    ApplyBudgets(if topUp then s else ApplyRequest(s, scope, now), scope, EstimatedTokens(e), e.spend, now)
  }

  function ApplyHolds(s: Ledger, scopes: seq<Scope>, e: EstimatedUsage, now: int, topUp: bool): Ledger
    decreases |scopes|
  {
    if scopes == [] then s else ApplyHolds(ApplyHold(s, scopes[0], e, now, topUp), scopes[1..], e, now, topUp)
  }

  function ReleaseScope(s: Ledger, scope: Scope, tokens: int, spend: int, actual: int, now: int): Ledger {
    var ref, keys := scope.ref, scope.keys;
    var s1 := ReconcileCounter(s, ref, keys.tpm, tokens, actual, now);
    var s2 := DecrValue(s1, ref, keys.active, 1);
    var s3 := DecrValue(s2, ref, keys.spendHeld, spend);
    var s4 := DecrValue(s3, ref, keys.dayHeld, tokens);
    DecrValue(s4, ref, keys.monthHeld, tokens)
  }

  function ReleaseScopes(s: Ledger, scopes: seq<Scope>, tokens: int, spend: int, actual: int, now: int): Ledger
    decreases |scopes|
  {
    if scopes == [] then s
    else ReleaseScopes(ReleaseScope(s, scopes[0], tokens, spend, actual, now), scopes[1..], tokens, spend, actual, now)
  }

  function ReleaseHold(s: Ledger, res: Reservation, actual: int, now: int): Ledger {
    ReleaseScopes(s, res.scopes, EstimatedTokens(res.held), res.held.spend, actual, now)
  }

  function UseScope(s: Ledger, scope: Scope, actual: ActualUsage, now: int): Ledger {
    var ref, keys, tokens := scope.ref, scope.keys, ActualTokens(actual);
    var s1 := AddValue(s, ref, keys.spendUsed, actual.spend, scope.expires.spendUsed, now);
    var s2 := AddValue(s1, ref, keys.dayUsed, tokens, scope.expires.dayUsed, now);
    AddValue(s2, ref, keys.monthUsed, tokens, scope.expires.monthUsed, now)
  }

  function UseScopes(s: Ledger, scopes: seq<Scope>, actual: ActualUsage, now: int): Ledger
    decreases |scopes|
  {
    if scopes == [] then s else UseScopes(UseScope(s, scopes[0], actual, now), scopes[1..], actual, now)
  }

  // --- Settlements ------------------------------------------------------------

  // Drops list elements from the front while their settlement is gone or expired.
  function CleanupSettlements(s: Ledger, now: int): Ledger
    decreases |s.order|
  {
    if s.order == [] then s
    else
      var front := s.order[0];
      var known := front.id in s.settlements;
      if known && now < s.settlements[front.id].expires then s
      else CleanupSettlements(RemoveOldest(s), now)
  }

  function RemoveOldest(s: Ledger): Ledger {
    if s.order == [] then s
    else
      var front := s.order[0];
      s.(order := s.order[1..],
         settlements := if front.id in s.settlements && s.settlements[front.id].element == front.token
                        then s.settlements - {front.id} else s.settlements)
  }

  function TrimSettlements(s: Ledger): Ledger
    decreases |s.order|
  {
    if |s.settlements| <= MAX_SETTLEMENTS || s.order == [] then s else TrimSettlements(RemoveOldest(s))
  }

  function Without(order: seq<Element>, token: nat): seq<Element>
    decreases |order|
  {
    if order == [] then []
    else if order[0].token == token then order[1..]
    else [order[0]] + Without(order[1..], token)
  }

  function RecordSettlement(s: Ledger, id: Id, expired: bool, now: int): Ledger {
    if id == 0 then s
    else
      var order := if id in s.settlements then Without(s.order, s.settlements[id].element) else s.order;
      var pushed := s.(order := order + [Element(s.nextToken, id)], nextToken := s.nextToken + 1,
                       settlements := s.settlements[id := Settlement(now + REPLAY_WINDOW, expired, s.nextToken)]);
      TrimSettlements(CleanupSettlements(pushed, now))
  }

  // --- Expiry -----------------------------------------------------------------

  predicate Lapsed(res: Reservation, now: int) { res.expires != 0 && res.expires <= now }

  function EndReservation(s: Ledger, id: Id, actual: int, expired: bool, now: int): Ledger
    requires id in s.reservations
  {
    var released := ReleaseHold(s, s.reservations[id], actual, now);
    RecordSettlement(released.(reservations := released.reservations - {id}), id, expired, now)
  }

  function ExpireOne(s: Ledger, id: Id, now: int): Ledger {
    if id in s.reservations && Lapsed(s.reservations[id], now) then EndReservation(s, id, 0, true, now) else s
  }

  function ExpireAll(s: Ledger, visit: seq<Id>, now: int): Ledger
    decreases |visit|
  {
    if visit == [] then s else ExpireAll(ExpireOne(s, visit[0], now), visit[1..], now)
  }

  function DropExpiredCounters(s: Ledger, now: int): Ledger {
    s.(counters := map k | k in s.counters && (s.counters[k].expires == 0 || now < s.counters[k].expires) :: s.counters[k])
  }

  predicate ValueExpired(s: Ledger, k: FullKey, now: int) {
    k in s.valueExpires && s.valueExpires[k] != 0 && s.valueExpires[k] <= now
  }

  function DropExpiredValues(s: Ledger, now: int): Ledger {
    s.(values := map k | k in s.values && !ValueExpired(s, k, now) :: s.values[k],
       valueExpires := map k | k in s.valueExpires && !ValueExpired(s, k, now) :: s.valueExpires[k])
  }

  function Cleanup(s: Ledger, now: int, visit: seq<Id>): Ledger {
    DropExpiredValues(DropExpiredCounters(CleanupSettlements(ExpireAll(s, visit, now), now), now), now)
  }

  // --- Store methods ------------------------------------------------------------

  function ReservationTtl(ttl: int): (r: int)
    ensures r > 0
  {
    if ttl <= 0 then 10 * MINUTE else ttl
  }

  // Replays are recognised by reference and limit, scope by scope.
  predicate SameScopes(left: seq<Scope>, right: seq<Scope>) {
    |left| == |right| && forall i :: 0 <= i < |left| ==> left[i].ref == right[i].ref && left[i].limit == right[i].limit
  }

  datatype Op =
    | Reserve(id: Id, scopes: seq<ScopedLimit>, estimate: EstimatedUsage, ttl: int)
    | TopUp(id: Id, delta: EstimatedUsage, ttl: int)
    | Commit(id: Id, actual: ActualUsage)
    | Refund(id: Id)
    | Usage

  // A store call, its clock reading and the order in which cleanup visits reservations.
  datatype Event = Event(at: Instant, visit: seq<Id>, op: Op)

  function ReserveStep(s: Ledger, id: Id, scopes: seq<ScopedLimit>, estimate: EstimatedUsage, ttl: int,
                       at: Instant, visit: seq<Id>): (Ledger, Result)
  {
    var now := at.ns;
    var s1 := Cleanup(s, now, visit);
    var e := NormalizeEstimate(estimate);
    var resolved := ResolveScopes(scopes, at);
    if id in s1.settlements then (s1, Conflict)
    else if id in s1.reservations then
      var existing := s1.reservations[id];
      (s1, if existing.held != e || !SameScopes(existing.scopes, resolved) then Conflict else Ok)
    else
      var v := CheckScopes(s1, resolved, e, now, false);
      if v.Some? then (s1, RateLimited(v.value))
      else
        var s2 := ApplyHolds(s1, resolved, e, now, false);
        (s2.(reservations := s2.reservations[id := Reservation(e, resolved, now + ReservationTtl(ttl))]), Ok)
  }

  function Grown(held: EstimatedUsage, delta: EstimatedUsage): EstimatedUsage {
    EstimatedUsage(SaturatingAdd(held.input, delta.input), SaturatingAdd(held.output, delta.output),
                   SaturatingAdd(held.spend, delta.spend))
  }

  function TopUpStep(s: Ledger, id: Id, delta: EstimatedUsage, ttl: int, at: Instant, visit: seq<Id>): (Ledger, Result) {
    var now := at.ns;
    var s1 := Cleanup(s, now, visit);
    var d := NormalizeEstimate(delta);
    var expires := now + ReservationTtl(ttl);
    if id !in s1.reservations then (s1, NotFound)
    else
      var res := s1.reservations[id];
      if EstimatedTokens(d) == 0 && d.spend == 0
      then (s1.(reservations := s1.reservations[id := res.(expires := expires)]), Ok)
      else
        var v := CheckScopes(s1, res.scopes, d, now, true);
        if v.Some? then (s1, RateLimited(v.value))
        else
          var s2 := ApplyHolds(s1, res.scopes, d, now, true);
          (s2.(reservations := s2.reservations[id := res.(held := Grown(res.held, d), expires := expires)]), Ok)
  }

  function SettledResult(s: Ledger, id: Id): Result {
    if id in s.settlements && !s.settlements[id].expired then Ok else NotFound
  }

  function CommitStep(s: Ledger, id: Id, usage: ActualUsage, at: Instant, visit: seq<Id>): (Ledger, Result) {
    var now := at.ns;
    var s1 := Cleanup(s, now, visit);
    if id !in s1.reservations then (s1, SettledResult(s1, id))
    else
      var res := s1.reservations[id];
      var actual := NormalizeActual(usage);
      var s2 := UseScopes(ReleaseHold(s1, res, ActualTokens(actual), now), res.scopes, actual, now);
      (RecordSettlement(s2.(reservations := s2.reservations - {id}), id, false, now), Ok)
  }

  function RefundStep(s: Ledger, id: Id, at: Instant, visit: seq<Id>): (Ledger, Result) {
    var s1 := Cleanup(s, at.ns, visit);
    if id !in s1.reservations then (s1, SettledResult(s1, id)) else (EndReservation(s1, id, 0, false, at.ns), Ok)
  }

  /** One store call; the empty request ID is never accounted. */
  function Step(s: Ledger, e: Event): (Ledger, Result) {
    match e.op
    case Reserve(id, scopes, estimate, ttl) =>
      if id == 0 then (s, Ok) else ReserveStep(s, id, scopes, estimate, ttl, e.at, e.visit)
    case TopUp(id, delta, ttl) => if id == 0 then (s, Ok) else TopUpStep(s, id, delta, ttl, e.at, e.visit)
    case Commit(id, actual) => if id == 0 then (s, Ok) else CommitStep(s, id, actual, e.at, e.visit)
    case Refund(id) => if id == 0 then (s, Ok) else RefundStep(s, id, e.at, e.visit)
    case Usage => (Cleanup(s, e.at.ns, e.visit), Ok)
  }

  function Run(s: Ledger, es: seq<Event>): Ledger
    decreases |es|
  {
    if es == [] then s else Run(Step(s, es[0]).0, es[1..])
  }
}
