/** The closures of policy/quota.go as they run: one object per request over
    the shared store, proved to perform the acts of a request. */
module RequestQuota {
  import opened QuotaTypes
  import opened MemoryStore
  import L = MemoryLedger
  import C = RequestCredit
  import R = RequestRuns

  class Quota {
    const store: MemoryQuotaStore
    const ticket: R.Ticket
    var reserve: EstimatedUsage
    var credit: EstimatedUsage
    var attempts: map<Id, EstimatedUsage>

    function View(): C.Credit
      reads this
    {
      C.Credit(reserve, credit, attempts)
    }

    constructor (store: MemoryQuotaStore, ticket: R.Ticket)
      ensures View() == C.NO_CREDIT && this.store == store && this.ticket == ticket
    {
      this.store, this.ticket := store, ticket;
      reserve, credit, attempts := NO_ESTIMATE, NO_ESTIMATE, map[];
    }

    method TopUp(delta: EstimatedUsage, t: R.Timed) returns (ok: bool)
      modifies store
      ensures (store.View(), ok) == R.TopUp(old(store.View()), ticket, delta, t)
    {
      hide L.Step;
      if !C.AnyUsage(delta) {
        return true;
      }
      var r := store.TopUp(ticket.id, delta, ticket.ttl, t.at, t.visit);
      return r == L.Ok;
    }

    method ReserveAttempt(attempt: Id, want: EstimatedUsage, t: R.Timed) returns (ok: bool)
      modifies this, store
      ensures attempt in old(attempts) ==> ok && View() == old(View()) && store.View() == old(store.View())
      ensures attempt !in old(attempts) ==>
        && (store.View(), ok) == R.TopUp(old(store.View()), ticket, C.ReserveDelta(old(View()), want), t)
        && View() == if ok then C.Reserved(old(View()), attempt, want) else old(View())
    {
      hide R.TopUp, C.Consume;
      if attempt in attempts {
        return true;
      }
      var (applied, remaining) := C.Consume(want, credit);
      ok := TopUp(applied, t);
      if !ok {
        return;
      }
      credit := remaining;
      attempts := attempts[attempt := want];
      reserve := C.Plus(reserve, applied);
    }

    method ReleaseAttempt(attempt: Id)
      modifies this
      ensures View() == C.Released(old(View()), attempt)
    {
      if attempt !in attempts {
        return;
      }
      var delta := attempts[attempt];
      attempts := attempts - {attempt};
      credit := C.Plus(credit, delta);
    }

    method ReconcileAttempt(attempt: Id, actual: ActualUsage, t: R.Timed) returns (ok: bool)
      modifies this, store
      ensures attempt !in old(attempts) ==> ok && View() == old(View()) && store.View() == old(store.View())
      ensures attempt in old(attempts) ==>
        && (store.View(), ok) == R.TopUp(old(store.View()), ticket, C.Overage(old(attempts)[attempt], actual), t)
        && View() == if ok then C.Reconciled(old(View()), attempt, actual) else old(View())
    {
      hide R.TopUp, C.Plus;
      if attempt !in attempts {
        return true;
      }
      var estimate := attempts[attempt];
      var over, unused := C.Overage(estimate, actual), C.Unused(estimate, actual);
      ok := TopUp(over, t);
      if !ok {
        return;
      }
      if C.AnyUsage(over) {
        reserve := C.Plus(reserve, over);
      }
      attempts := attempts - {attempt};
      if unused.input > 0 {
        credit := credit.(input := SaturatingSum(credit.input, unused.input));
      }
      if unused.spend > 0 {
        credit := credit.(spend := SaturatingSum(credit.spend, unused.spend));
      }
    }

    /** Closes the ticket: a refund, or a commit after the top-up it asked for,
        granted or not. */
    method Settle(actual: ActualUsage, commit: bool, t: R.Timed, at: Instant, visit: seq<Id>) returns (r: L.Result, granted: bool)
      modifies store
      ensures !commit ==> granted && (store.View(), r) == L.Step(old(store.View()), L.Event(at, visit, L.Refund(ticket.id)))
      ensures commit ==>
        var (topped, ok) := R.TopUp(old(store.View()), ticket, C.SettlementDelta(reserve, actual), t);
        granted == ok && (store.View(), r) == L.Step(topped, L.Event(at, visit, L.Commit(ticket.id, actual)))
    {
      hide L.Step, R.TopUp;
      granted := true;
      if !commit {
        r := store.Refund(ticket.id, at, visit);
        return;
      }
      granted := TopUp(C.SettlementDelta(reserve, actual), t);
      r := store.Commit(ticket.id, actual, at, visit);
    }
  }
}
