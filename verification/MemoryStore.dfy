/** MemoryQuotaStore as it runs: methods that loop over scopes, lapsed
    reservations and old settlements and rewrite the maps in place, each proved
    equal to its step of the ledger. */
module MemoryStore {
  import opened QuotaTypes
  import opened Spec = MemoryLedger

  lemma {:induction false} TotalSplits(values: seq<int>, i: nat)
    requires i < |values|
    ensures TotalOf(values[..i + 1]) == TotalOf(values[..i]) + Max(values[i], 0)
    ensures TotalOf(values[..i + 1]) <= TotalOf(values)
  {
    if i == 0 {
      assert values[..1][1..] == [];
      TotalNonNegative(values[1..]);
    } else {
      TotalSplits(values[1..], i - 1);
      assert values[..i + 1][1..] == values[1..][..i];
      assert values[..i][1..] == values[1..][..i - 1];
    }
  }

  lemma {:induction false} TotalNonNegative(values: seq<int>)
    ensures TotalOf(values) >= 0
  {
    if values != [] {
      TotalNonNegative(values[1..]);
    }
  }

  /** The running total stays at or below the limit, so no addition or
      subtraction leaves int64, whatever the values. */
  method Exceeds(limit: int64, values: seq<int64>) returns (r: bool)
    ensures r == ExceedsLimit(limit, values)
  {
    if limit <= 0 {
      return false;
    }
    var total: int64 := 0;
    assert values[..0] == [];
    for i := 0 to |values|
      invariant 0 <= total <= limit
      invariant total == TotalOf(values[..i])
    {
      TotalSplits(values, i);
      var value: int64 := values[i];
      if value < 0 {
        value := 0;
      }
      var room: int64 := limit - total;
      if value > room {
        return true;
      }
      total := total + value;
    }
    assert values[..|values|] == values;
    return false;
  }

  class MemoryQuotaStore {
    var values: map<FullKey, int>
    var valueExpires: map<FullKey, int>
    var counters: map<FullKey, CounterEntry>
    var reservations: map<Id, Reservation>
    var settlements: map<Id, Settlement>
    var settledOrder: seq<Element>
    var nextToken: nat

    function View(): Ledger
      reads this
    {
      Ledger(values, valueExpires, counters, reservations, settlements, settledOrder, nextToken)
    }

    constructor ()
      ensures View() == EMPTY_LEDGER
    {
      values, valueExpires, counters := map[], map[], map[];
      reservations, settlements, settledOrder, nextToken := map[], map[], [], 0;
    }

    // --- Single keys ----------------------------------------------------------

    method Add(ref: ScopeRef, k: Key, delta: int, expires: int, now: int)
      modifies this`values, this`valueExpires
      ensures View() == AddValue(old(View()), ref, k, delta, expires, now)
    {
      if k == NoKey || delta == 0 {
        return;
      }
      var fk := FullKey(ref, k);
      values := values[fk := SaturatingAdd(Value(View(), ref, k), delta)];
      if expires != 0 {
        valueExpires := valueExpires[fk := if expires <= now then now + HOUR else expires];
      }
    }

    method Decr(ref: ScopeRef, k: Key, delta: int)
      modifies this`values, this`valueExpires
      ensures View() == DecrValue(old(View()), ref, k, delta)
    {
      if k == NoKey || delta == 0 {
        return;
      }
      var fk := FullKey(ref, k);
      ghost var before := values;
      values := values[fk := Value(View(), ref, k) - delta];
      if values[fk] <= 0 {
        values := values - {fk};
        assert values == before - {fk};
        valueExpires := valueExpires - {fk};
      }
    }

    method Count(ref: ScopeRef, k: Key, delta: int, now: int)
      modifies this`counters
      ensures View() == AddCounter(old(View()), ref, k, delta, now)
    {
      if k == NoKey || delta == 0 {
        return;
      }
      var value := CounterValue(View(), ref, k, now);
      counters := counters[FullKey(ref, k) := CounterEntry(SaturatingAdd(value, delta), NextMinute(now))];
    }

    method Reconcile(ref: ScopeRef, k: Key, held: int, actual: int, now: int)
      modifies this`counters
      ensures View() == ReconcileCounter(old(View()), ref, k, held, actual, now)
    {
      if k == NoKey {
        return;
      }
      var fk := FullKey(ref, k);
      if fk !in counters || (counters[fk].expires != 0 && counters[fk].expires <= now) {
        counters := counters - {fk};
        return;
      }
      var h, a := Max(held, 0), Max(actual, 0);
      var entry := counters[fk];
      if a >= h {
        entry := entry.(value := SaturatingAdd(entry.value, a - h));
      } else {
        entry := entry.(value := SaturatingAdd(entry.value, -(h - a)));
      }
      if entry.value == 0 {
        counters := counters - {fk};
      } else {
        counters := counters[fk := entry];
      }
    }

    // --- All scopes of a request ------------------------------------------------

    method FirstExceeded(scopes: seq<Scope>, e: EstimatedUsage, now: int, topUp: bool) returns (v: Option<Limited>)
      ensures v == CheckScopes(View(), scopes, e, now, topUp)
    {
      for i := 0 to |scopes|
        invariant CheckScopes(View(), scopes[i..], e, now, topUp) == CheckScopes(View(), scopes, e, now, topUp)
      {
        assert scopes[i..][0] == scopes[i] && scopes[i..][1..] == scopes[i + 1..];
        v := CheckScope(View(), scopes[i], e, now, topUp);
        if v.Some? {
          return;
        }
      }
      return None;
    }

    method Hold(scope: Scope, e: EstimatedUsage, now: int, topUp: bool)
      modifies this`values, this`valueExpires, this`counters
      ensures View() == ApplyHold(old(View()), scope, e, now, topUp)
    {
      hide AddValue, AddCounter;
      if !topUp {
        Add(scope.ref, scope.keys.active, 1, 0, now);
        Count(scope.ref, scope.keys.rpm, 1, now);
      }
      Count(scope.ref, scope.keys.tpm, EstimatedTokens(e), now);
      Add(scope.ref, scope.keys.spendHeld, e.spend, 0, now);
      Add(scope.ref, scope.keys.dayHeld, EstimatedTokens(e), 0, now);
      Add(scope.ref, scope.keys.monthHeld, EstimatedTokens(e), 0, now);
    }

    method HoldAll(scopes: seq<Scope>, e: EstimatedUsage, now: int, topUp: bool)
      modifies this`values, this`valueExpires, this`counters
      ensures View() == ApplyHolds(old(View()), scopes, e, now, topUp)
    {
      hide ApplyHold;
      for i := 0 to |scopes|
        invariant ApplyHolds(View(), scopes[i..], e, now, topUp) == ApplyHolds(old(View()), scopes, e, now, topUp)
      {
        assert scopes[i..][0] == scopes[i] && scopes[i..][1..] == scopes[i + 1..];
        Hold(scopes[i], e, now, topUp);
      }
    }

    method Release(scope: Scope, tokens: int, spend: int, actual: int, now: int)
      modifies this`values, this`valueExpires, this`counters
      ensures View() == ReleaseScope(old(View()), scope, tokens, spend, actual, now)
    {
      hide DecrValue, ReconcileCounter;
      Reconcile(scope.ref, scope.keys.tpm, tokens, actual, now);
      Decr(scope.ref, scope.keys.active, 1);
      Decr(scope.ref, scope.keys.spendHeld, spend);
      Decr(scope.ref, scope.keys.dayHeld, tokens);
      Decr(scope.ref, scope.keys.monthHeld, tokens);
    }

    method ReleaseAll(res: Reservation, actual: int, now: int)
      modifies this`values, this`valueExpires, this`counters
      ensures View() == ReleaseHold(old(View()), res, actual, now)
    {
      hide ReleaseScope;
      var tokens, spend, scopes := EstimatedTokens(res.held), res.held.spend, res.scopes;
      for i := 0 to |scopes|
        invariant ReleaseScopes(View(), scopes[i..], tokens, spend, actual, now) == ReleaseHold(old(View()), res, actual, now)
      {
        assert scopes[i..][0] == scopes[i] && scopes[i..][1..] == scopes[i + 1..];
        Release(scopes[i], tokens, spend, actual, now);
      }
    }

    method UseAll(scopes: seq<Scope>, actual: ActualUsage, now: int)
      modifies this`values, this`valueExpires
      ensures View() == UseScopes(old(View()), scopes, actual, now)
    {
      hide AddValue;
      for i := 0 to |scopes|
        invariant UseScopes(View(), scopes[i..], actual, now) == UseScopes(old(View()), scopes, actual, now)
      {
        assert scopes[i..][0] == scopes[i] && scopes[i..][1..] == scopes[i + 1..];
        var scope := scopes[i];
        Add(scope.ref, scope.keys.spendUsed, actual.spend, scope.expires.spendUsed, now);
        Add(scope.ref, scope.keys.dayUsed, ActualTokens(actual), scope.expires.dayUsed, now);
        Add(scope.ref, scope.keys.monthUsed, ActualTokens(actual), scope.expires.monthUsed, now);
      }
    }

    // --- Settlements ------------------------------------------------------------

    method PopOldest()
      requires settledOrder != []
      modifies this`settledOrder, this`settlements
      ensures View() == RemoveOldest(old(View()))
    {
      var front := settledOrder[0];
      settledOrder := settledOrder[1..];
      if front.id in settlements && settlements[front.id].element == front.token {
        settlements := settlements - {front.id};
      }
    }

    method DropOldSettlements(now: int)
      modifies this`settledOrder, this`settlements
      ensures View() == CleanupSettlements(old(View()), now)
    {
      while settledOrder != []
        invariant CleanupSettlements(View(), now) == CleanupSettlements(old(View()), now)
        decreases |settledOrder|
      {
        var front := settledOrder[0];
        if front.id in settlements && now < settlements[front.id].expires {
          return;
        }
        PopOldest();
      }
    }

    method Record(id: Id, expired: bool, now: int)
      modifies this`settledOrder, this`settlements, this`nextToken
      ensures View() == RecordSettlement(old(View()), id, expired, now)
    {
      hide CleanupSettlements;
      if id == 0 {
        return;
      }
      if id in settlements {
        settledOrder := Without(settledOrder, settlements[id].element);
      }
      var token := nextToken;
      settledOrder, nextToken := settledOrder + [Element(token, id)], token + 1;
      settlements := settlements[id := Settlement(now + REPLAY_WINDOW, expired, token)];
      DropOldSettlements(now);
      ghost var dropped := View();
      while |settlements| > MAX_SETTLEMENTS && settledOrder != []
        invariant TrimSettlements(View()) == TrimSettlements(dropped)
        decreases |settledOrder|
      {
        PopOldest();
      }
    }

    // --- Expiry -------------------------------------------------------------------

    method End(id: Id, actual: int, expired: bool, now: int)
      requires id in reservations
      modifies this
      ensures View() == EndReservation(old(View()), id, actual, expired, now)
    {
      hide ReleaseHold, RecordSettlement;
      ReleaseAll(reservations[id], actual, now);
      reservations := reservations - {id};
      Record(id, expired, now);
    }

    // Expires what has lapsed, in the order in which the map is visited.
    method ExpireLapsed(now: int, visit: seq<Id>)
      modifies this
      ensures View() == ExpireAll(old(View()), visit, now)
    {
      hide EndReservation;
      for i := 0 to |visit|
        invariant ExpireAll(View(), visit[i..], now) == ExpireAll(old(View()), visit, now)
      {
        assert visit[i..][0] == visit[i] && visit[i..][1..] == visit[i + 1..];
        if visit[i] in reservations && Lapsed(reservations[visit[i]], now) {
          End(visit[i], 0, true, now);
        }
      }
    }

    method DropExpired(now: int)
      modifies this`counters, this`values, this`valueExpires
      ensures View() == DropExpiredValues(DropExpiredCounters(old(View()), now), now)
    {
      counters := map k | k in counters && (counters[k].expires == 0 || now < counters[k].expires) :: counters[k];
      var gone := set k | k in valueExpires && valueExpires[k] != 0 && valueExpires[k] <= now;
      ghost var before := View();
      values, valueExpires := values - gone, valueExpires - gone;
      assert values == DropExpiredValues(before, now).values;
      assert valueExpires == DropExpiredValues(before, now).valueExpires;
    }

    method CleanupExpired(now: int, visit: seq<Id>)
      modifies this
      ensures View() == Cleanup(old(View()), now, visit)
    {
      hide ExpireAll, CleanupSettlements, DropExpiredValues, DropExpiredCounters;
      ExpireLapsed(now, visit);
      DropOldSettlements(now);
      DropExpired(now);
    }

    // --- Store methods --------------------------------------------------------------

    method Reserve(id: Id, scopes: seq<ScopedLimit>, estimate: EstimatedUsage, ttl: int, at: Instant, visit: seq<Id>)
      returns (r: Result)
      modifies this
      ensures (View(), r) == Step(old(View()), Event(at, visit, Op.Reserve(id, scopes, estimate, ttl)))
    {
      hide Cleanup, CheckScopes, ApplyHolds;
      if id == 0 {
        return Ok;
      }
      CleanupExpired(at.ns, visit);
      var e, resolved := NormalizeEstimate(estimate), ResolveScopes(scopes, at);
      if id in settlements {
        return Conflict;
      }
      if id in reservations {
        var existing := reservations[id];
        if existing.held != e || !SameScopes(existing.scopes, resolved) {
          return Conflict;
        }
        return Ok;
      }
      var exceeded := FirstExceeded(resolved, e, at.ns, false);
      if exceeded.Some? {
        return RateLimited(exceeded.value);
      }
      HoldAll(resolved, e, at.ns, false);
      reservations := reservations[id := Reservation(e, resolved, at.ns + ReservationTtl(ttl))];
      return Ok;
    }

    method TopUp(id: Id, delta: EstimatedUsage, ttl: int, at: Instant, visit: seq<Id>) returns (r: Result)
      modifies this
      ensures (View(), r) == Step(old(View()), Event(at, visit, Op.TopUp(id, delta, ttl)))
    {
      hide Cleanup, CheckScopes, ApplyHolds;
      var d := NormalizeEstimate(delta);
      if id == 0 {
        return Ok;
      }
      CleanupExpired(at.ns, visit);
      if id !in reservations {
        return NotFound;
      }
      var res := reservations[id];
      var expires := at.ns + ReservationTtl(ttl);
      if EstimatedTokens(d) == 0 && d.spend == 0 {
        reservations := reservations[id := res.(expires := expires)];
        return Ok;
      }
      var exceeded := FirstExceeded(res.scopes, d, at.ns, true);
      if exceeded.Some? {
        return RateLimited(exceeded.value);
      }
      HoldAll(res.scopes, d, at.ns, true);
      reservations := reservations[id := res.(held := Grown(res.held, d), expires := expires)];
      return Ok;
    }

    method Commit(id: Id, usage: ActualUsage, at: Instant, visit: seq<Id>) returns (r: Result)
      modifies this
      ensures (View(), r) == Step(old(View()), Event(at, visit, Op.Commit(id, usage)))
    {
      hide Cleanup, ReleaseHold, UseScopes, RecordSettlement;
      if id == 0 {
        return Ok;
      }
      CleanupExpired(at.ns, visit);
      if id !in reservations {
        return SettledResult(View(), id);
      }
      var res, actual := reservations[id], NormalizeActual(usage);
      ReleaseAll(res, ActualTokens(actual), at.ns);
      UseAll(res.scopes, actual, at.ns);
      reservations := reservations - {id};
      Record(id, false, at.ns);
      return Ok;
    }

    method Refund(id: Id, at: Instant, visit: seq<Id>) returns (r: Result)
      modifies this
      ensures (View(), r) == Step(old(View()), Event(at, visit, Op.Refund(id)))
    {
      hide Cleanup, ReleaseHold, RecordSettlement;
      if id == 0 {
        return Ok;
      }
      CleanupExpired(at.ns, visit);
      if id !in reservations {
        return SettledResult(View(), id);
      }
      End(id, 0, false, at.ns);
      return Ok;
    }
  }
}
