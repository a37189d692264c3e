/** One request over the shared ledger: its credit machine, its usage
    accumulator and the in-process store, interleaved with every other request.
    Each act is what one critical section of policy/quota.go or gateway/gateway.go
    does; the store may refuse any top-up and may expire the reservation. */
module RequestRuns {
  import opened QuotaTypes
  import opened MapSums
  import L = MemoryLedger
  import M = MemoryRuns
  import Q = MemorySettlements
  import U = AttemptUsage
  import C = RequestCredit

  datatype Request = Request(ledger: L.Ledger, credit: C.Credit, entries: U.Entries)

  datatype Act =
    | Start(attempt: Id, want: EstimatedUsage, estimate: U.Usage, pricing: U.Pricing)
    | Drop(attempt: Id)
    | Finish(attempt: Id, reported: U.Usage, partial: bool)
    | Reconcile(attempt: Id)
    | Renew
    | Other(op: L.Op)

  datatype Timed = Timed(act: Act, at: Instant, visit: seq<Id>)

  datatype Ticket = Ticket(id: Id, ttl: int)

  function TopUp(l: L.Ledger, k: Ticket, delta: EstimatedUsage, t: Timed): (L.Ledger, bool) {
    if !C.AnyUsage(delta) then (l, true)
    else
      var (l', r) := L.Step(l, L.Event(t.at, t.visit, L.TopUp(k.id, delta, k.ttl)));
      (l', r == L.Ok)
  }

  function StartStep(s: Request, k: Ticket, t: Timed): Request
    requires t.act.Start?
  {
    var Start(attempt, want, estimate, pricing) := t.act;
    var begun := U.Begin(s.entries, attempt, estimate, pricing);
    if attempt in s.credit.attempts then s.(entries := begun)
    else
      var (l', ok) := TopUp(s.ledger, k, C.ReserveDelta(s.credit, want), t);
      if ok then Request(l', C.Reserved(s.credit, attempt, want), begun) else s.(ledger := l')
  }

  function ReconcileStep(s: Request, k: Ticket, t: Timed): Request
    requires t.act.Reconcile?
  {
    var a := t.act.attempt;
    if a !in s.entries || !s.entries[a].final || a !in s.credit.attempts then s
    else
      var charge := s.entries[a].charge;
      var (l', ok) := TopUp(s.ledger, k, C.Overage(s.credit.attempts[a], charge), t);
      if ok then s.(ledger := l', credit := C.Reconciled(s.credit, a, charge)) else s.(ledger := l')
  }

  function Step(s: Request, k: Ticket, t: Timed): Request {
    match t.act
    case Start(_, _, _, _) => StartStep(s, k, t)
    case Drop(a) => s.(entries := U.Cancel(s.entries, a), credit := C.Released(s.credit, a))
    case Finish(a, reported, partial) => s.(entries := U.Complete(s.entries, a, reported, partial))
    case Reconcile(_) => ReconcileStep(s, k, t)
    case Renew => s.(ledger := L.Step(s.ledger, L.Event(t.at, t.visit, L.TopUp(k.id, NO_ESTIMATE, k.ttl))).0)
    case Other(op) => s.(ledger := L.Step(s.ledger, L.Event(t.at, t.visit, op)).0)
  }

  function Run(s: Request, k: Ticket, ts: seq<Timed>): Request
    decreases |ts|
  {
    if ts == [] then s else Run(Step(s, k, ts[0]), k, ts[1..])
  }

  // --- The acts a request performs -----------------------------------------------------

  function WantedTokens(e: EstimatedUsage): int { Max(e.input, 0) + Max(e.output, 0) }
  function ChargedTokens(c: ActualUsage): int { c.input + c.output }
  function HeldTokens(e: EstimatedUsage): int { e.input + e.output }

  /** What is already reserved leaves room for this much more below saturation. */
  predicate Fits(reserve: EstimatedUsage, tokens: int, spend: int) {
    HeldTokens(reserve) + tokens <= MAX_INT64 && reserve.spend + spend <= MAX_INT64
  }

  predicate Foreign(op: L.Op, id: Id) { op.Usage? || op.id != id }

  /** Attempt IDs are never reused once their attempt is closed or dropped, an
      attempt is dropped only before it completes, estimates are not negative,
      and nothing saturates. */
  predicate Legal(s: Request, k: Ticket, t: Timed) {
    match t.act
    case Start(a, want, _, _) =>
      // a second reservation of an attempt in flight changes nothing
      || a in s.credit.attempts
      || (a != 0 && a !in s.entries && 0 <= want.input && 0 <= want.spend && Fits(s.credit.reserve, WantedTokens(want), want.spend))
    case Drop(a) => a in s.entries ==> !s.entries[a].final
    case Reconcile(a) =>
      a in s.entries ==> Fits(s.credit.reserve, ChargedTokens(s.entries[a].charge), s.entries[a].charge.spend)
    case Other(op) => Foreign(op, k.id)
    case _ => true
  }

  predicate LegalRun(s: Request, k: Ticket, ts: seq<Timed>)
    decreases |ts|
  {
    ts == [] || (Legal(s, k, ts[0]) && LegalRun(Step(s, k, ts[0]), k, ts[1..]))
  }

  // --- Conservation --------------------------------------------------------------------

  function TokenEstimates(a: map<Id, EstimatedUsage>): map<Id, int> { map i | i in a :: WantedTokens(a[i]) }
  function SpendEstimates(a: map<Id, EstimatedUsage>): map<Id, int> { map i | i in a :: a[i].spend as int }
  function TokenCharges(e: U.Entries): map<Id, int> { map i | i in e :: ChargedTokens(e[i].charge) }

  /** Attempts whose charge has been settled against the reservation. */
  function Closed(s: Request): U.Entries { s.entries - s.credit.attempts.Keys }

  /** Reserved = estimates of attempts in flight + credit + charges of closed attempts. */
  ghost predicate Conserved(s: Request) {
    && HeldTokens(s.credit.reserve)
       == Sum(TokenEstimates(s.credit.attempts)) + HeldTokens(s.credit.credit) + Sum(TokenCharges(Closed(s)))
    && s.credit.reserve.spend
       == Sum(SpendEstimates(s.credit.attempts)) + s.credit.credit.spend + Sum(U.SpendCharges(Closed(s)))
  }

  predicate NonNegative(e: EstimatedUsage) { 0 <= e.input && 0 <= e.output && 0 <= e.spend }

  predicate Shape(s: Request) {
    && NonNegative(s.credit.reserve) && NonNegative(s.credit.credit)
    && HeldTokens(s.credit.reserve) <= MAX_INT64
    && (forall a :: a in s.credit.attempts ==> 0 <= s.credit.attempts[a].input && 0 <= s.credit.attempts[a].spend)
    && s.credit.attempts.Keys <= s.entries.Keys
    && (forall a :: a in s.entries && a !in s.credit.attempts ==> s.entries[a].final)
    && U.Accumulated(s.entries)
  }

  /** While the ticket is live, the store holds exactly what the request thinks it reserved. */
  predicate Mirrors(s: Request, k: Ticket) {
    k.id in s.ledger.reservations ==> s.ledger.reservations[k.id].held == s.credit.reserve
  }

  ghost predicate Inv(s: Request, k: Ticket) { Shape(s) && Conserved(s) && Mirrors(s, k) }

  lemma EstimatesNonNegative(s: Request)
    requires Shape(s)
    ensures Sum(TokenEstimates(s.credit.attempts)) >= 0 && Sum(SpendEstimates(s.credit.attempts)) >= 0
    ensures Sum(TokenCharges(Closed(s))) >= 0 && Sum(U.SpendCharges(Closed(s))) >= 0
    ensures forall a :: a in s.credit.attempts ==>
      && WantedTokens(s.credit.attempts[a]) <= Sum(TokenEstimates(s.credit.attempts))
      && s.credit.attempts[a].spend <= Sum(SpendEstimates(s.credit.attempts))
  {
    hide Sum, U.Normal, U.Charge;
    var tokens, spends := TokenEstimates(s.credit.attempts), SpendEstimates(s.credit.attempts);
    SumNonNegative(tokens);
    SumNonNegative(spends);
    forall a | a in s.credit.attempts
      ensures WantedTokens(s.credit.attempts[a]) <= Sum(tokens) && s.credit.attempts[a].spend <= Sum(spends)
    {
      assert tokens[a] <= Sum(tokens) && spends[a] <= Sum(spends);
    }
    SumNonNegative(TokenCharges(Closed(s)));
    SumNonNegative(U.SpendCharges(Closed(s)));
  }

  // --- What store calls do to the ticket --------------------------------------------------

  /** Reservations only disappear, none changes. */
  predicate OnlyRemoves(l: L.Ledger, l': L.Ledger) {
    forall id :: id in l'.reservations ==> id in l.reservations && l'.reservations[id] == l.reservations[id]
  }

  lemma EndRemoves(l: L.Ledger, id: Id, actual: int, expired: bool, now: int)
    requires id in l.reservations
    ensures L.EndReservation(l, id, actual, expired, now).reservations == l.reservations - {id}
  {
    hide L.ReleaseScopes, L.RecordSettlement;
    var res := l.reservations[id];
    Q.ReleaseScopesQueue(l, res.scopes, EstimatedTokens(res.held), res.held.spend, actual, now);
    var released := L.ReleaseHold(l, res, actual, now);
    M.RecordSettlementKeeps(released.(reservations := released.reservations - {id}), id, expired, now);
  }

  lemma {:induction false} ExpireRemoves(l: L.Ledger, visit: seq<Id>, now: int)
    ensures OnlyRemoves(l, L.ExpireAll(l, visit, now))
    decreases |visit|
  {
    hide L.EndReservation;
    if visit != [] {
      var l' := L.ExpireOne(l, visit[0], now);
      if l' != l {
        EndRemoves(l, visit[0], 0, true, now);
      }
      ExpireRemoves(l', visit[1..], now);
    }
  }

  lemma CleanupRemoves(l: L.Ledger, now: int, visit: seq<Id>)
    ensures OnlyRemoves(l, L.Cleanup(l, now, visit))
  {
    hide L.ExpireAll, L.CleanupSettlements;
    ExpireRemoves(l, visit, now);
    M.CleanupSettlementsKeeps(L.ExpireAll(l, visit, now), now);
  }

  lemma CommitRemoves(l: L.Ledger, id: Id, actual: ActualUsage, now: int)
    requires id in l.reservations
    ensures var s2 := M.Committed(l, id, actual, now);
      L.RecordSettlement(s2.(reservations := s2.reservations - {id}), id, false, now).reservations == l.reservations - {id}
  {
    hide L.ReleaseScopes, L.RecordSettlement, L.UseScopes;
    var res := l.reservations[id];
    Q.ReleaseScopesQueue(l, res.scopes, EstimatedTokens(res.held), res.held.spend, ActualTokens(actual), now);
    var released := L.ReleaseHold(l, res, ActualTokens(actual), now);
    Q.UseScopesQueue(released, res.scopes, actual, now);
    var s2 := L.UseScopes(released, res.scopes, actual, now);
    M.RecordSettlementKeeps(s2.(reservations := s2.reservations - {id}), id, false, now);
  }

  /** Calls of other requests leave a ticket alone unless it expires. */
  lemma ForeignKeepsTicket(l: L.Ledger, e: L.Event, id: Id)
    requires Foreign(e.op, id)
    ensures var l' := L.Step(l, e).0;
      id in l'.reservations ==> id in l.reservations && l'.reservations[id] == l.reservations[id]
  {
    hide L.Cleanup, L.ApplyHolds, L.CheckScopes, L.UseScopes, L.ReleaseScopes, L.RecordSettlement, L.EndReservation, ResolveScopes;
    var now := e.at.ns;
    var s1 := L.Cleanup(l, now, e.visit);
    CleanupRemoves(l, now, e.visit);
    match e.op
    case Reserve(other, scopes, estimate, ttl) =>
      Q.ApplyHoldsQueue(s1, ResolveScopes(scopes, e.at), NormalizeEstimate(estimate), now, false);
    case TopUp(other, delta, ttl) =>
      if other in s1.reservations {
        Q.ApplyHoldsQueue(s1, s1.reservations[other].scopes, NormalizeEstimate(delta), now, true);
      }
    case Commit(other, actual) =>
      if other in s1.reservations {
        CommitRemoves(s1, other, NormalizeActual(actual), now);
      }
    case Refund(other) =>
      if other in s1.reservations {
        EndRemoves(s1, other, 0, false, now);
      }
    case Usage =>
  }

  /** A granted top-up adds its delta to the ticket, a refused one nothing. */
  lemma TopUpGrowsTicket(l: L.Ledger, k: Ticket, delta: EstimatedUsage, at: Instant, visit: seq<Id>)
    requires k.id != 0 && NormalEstimate(delta)
    ensures var (l', r) := L.Step(l, L.Event(at, visit, L.TopUp(k.id, delta, k.ttl)));
      && (k.id in l'.reservations ==>
            && k.id in l.reservations
            && l'.reservations[k.id].held ==
               if r == L.Ok && C.AnyUsage(delta) then L.Grown(l.reservations[k.id].held, delta) else l.reservations[k.id].held)
      && (r == L.Ok ==> k.id in l'.reservations)
  {
    hide L.Cleanup, L.ApplyHolds, L.CheckScopes;
    var s1 := L.Cleanup(l, at.ns, visit);
    CleanupRemoves(l, at.ns, visit);
    if k.id in s1.reservations {
      Q.ApplyHoldsQueue(s1, s1.reservations[k.id].scopes, delta, at.ns, true);
    }
  }

  /** The store's ticket keeps mirroring the reserve across a request's own top-up. */
  lemma TopUpMirrors(s: Request, k: Ticket, delta: EstimatedUsage, t: Timed)
    requires Mirrors(s, k) && k.id != 0 && NormalEstimate(delta) && NonNegative(s.credit.reserve)
    requires Fits(s.credit.reserve, HeldTokens(delta), delta.spend)
    ensures var (l', ok) := TopUp(s.ledger, k, delta, t);
      k.id in l'.reservations ==>
        l'.reservations[k.id].held == if ok then C.Plus(s.credit.reserve, delta) else s.credit.reserve
  {
    hide L.Step;
    TopUpGrowsTicket(s.ledger, k, delta, t.at, t.visit);
  }

  // --- Acts keep the invariant ------------------------------------------------------------

  lemma AddedEstimate(a: map<Id, EstimatedUsage>, id: Id, e: EstimatedUsage)
    requires id !in a
    ensures Sum(TokenEstimates(a[id := e])) == Sum(TokenEstimates(a)) + WantedTokens(e)
    ensures Sum(SpendEstimates(a[id := e])) == Sum(SpendEstimates(a)) + e.spend
  {
    hide Sum;
    assert TokenEstimates(a[id := e]) == TokenEstimates(a)[id := WantedTokens(e)];
    assert SpendEstimates(a[id := e]) == SpendEstimates(a)[id := e.spend as int];
    SumUpdate(TokenEstimates(a), id, WantedTokens(e));
    SumUpdate(SpendEstimates(a), id, e.spend as int);
  }

  lemma RemovedEstimate(a: map<Id, EstimatedUsage>, id: Id)
    requires id in a
    ensures Sum(TokenEstimates(a - {id})) == Sum(TokenEstimates(a)) - WantedTokens(a[id])
    ensures Sum(SpendEstimates(a - {id})) == Sum(SpendEstimates(a)) - a[id].spend
  {
    assert (a - {id})[id := a[id]] == a;
    AddedEstimate(a - {id}, id, a[id]);
  }

  lemma AddedCharge(e: U.Entries, id: Id, entry: U.Entry)
    requires id !in e
    ensures Sum(TokenCharges(e[id := entry])) == Sum(TokenCharges(e)) + ChargedTokens(entry.charge)
    ensures Sum(U.SpendCharges(e[id := entry])) == Sum(U.SpendCharges(e)) + entry.charge.spend
  {
    hide Sum;
    assert TokenCharges(e[id := entry]) == TokenCharges(e)[id := ChargedTokens(entry.charge)];
    assert U.SpendCharges(e[id := entry]) == U.SpendCharges(e)[id := entry.charge.spend as int];
    SumUpdate(TokenCharges(e), id, ChargedTokens(entry.charge));
    SumUpdate(U.SpendCharges(e), id, entry.charge.spend as int);
  }

  // Consuming credit, on numbers.
  lemma ConsumeNumbers(c: C.Credit, want: EstimatedUsage)
    requires NonNegative(c.credit) && 0 <= want.input && 0 <= want.spend && HeldTokens(c.credit) <= MAX_INT64
    requires WantedTokens(want) <= MAX_INT64
    ensures var (d, rest) := C.Consume(want, c.credit);
      && NonNegative(d) && NonNegative(rest)
      && HeldTokens(d) - HeldTokens(rest) == WantedTokens(want) - HeldTokens(c.credit)
      && d.spend - rest.spend == want.spend - c.credit.spend
      && HeldTokens(d) <= WantedTokens(want) && d.spend <= want.spend
  {
    hide SaturatingSum;
    assert EstimatedTokens(want) == WantedTokens(want);
    assert EstimatedTokens(c.credit) == HeldTokens(c.credit);
  }

  lemma PlusNumbers(a: EstimatedUsage, b: EstimatedUsage)
    requires NonNegative(a) && NonNegative(b) && Fits(a, HeldTokens(b), b.spend)
    ensures var p := C.Plus(a, b);
      NonNegative(p) && HeldTokens(p) == HeldTokens(a) + HeldTokens(b) && p.spend == a.spend + b.spend
  {
  }

  /** A started attempt moves credit into its estimate and reserves only the rest. */
  lemma ReservedConserves(c: C.Credit, a: Id, want: EstimatedUsage)
    requires NonNegative(c.reserve) && NonNegative(c.credit) && 0 <= want.input && 0 <= want.spend
    requires HeldTokens(c.credit) <= HeldTokens(c.reserve) && c.credit.spend <= c.reserve.spend
    requires Fits(c.reserve, WantedTokens(want), want.spend)
    ensures var (c', d) := (C.Reserved(c, a, want), C.ReserveDelta(c, want));
      && NonNegative(c'.reserve) && NonNegative(c'.credit) && NormalEstimate(d)
      && HeldTokens(d) <= WantedTokens(want) && d.spend <= want.spend
      && HeldTokens(c'.reserve) - HeldTokens(c'.credit) == HeldTokens(c.reserve) - HeldTokens(c.credit) + WantedTokens(want)
      && c'.reserve.spend - c'.credit.spend == c.reserve.spend - c.credit.spend + want.spend
      && HeldTokens(c'.reserve) <= MAX_INT64
      && c'.reserve == C.Plus(c.reserve, d)
  {
    hide C.Consume, C.Plus;
    ConsumeNumbers(c, want);
    PlusNumbers(c.reserve, C.ReserveDelta(c, want));
  }

  /** Books after an attempt was added: its estimate is all that changed. */
  lemma OpenedBooks(s: Request, s': Request, a: Id, want: EstimatedUsage)
    requires Shape(s) && Conserved(s) && a !in s.credit.attempts && Closed(s') == Closed(s)
    requires s'.credit.attempts == s.credit.attempts[a := want]
    requires HeldTokens(s'.credit.reserve) - HeldTokens(s'.credit.credit)
      == HeldTokens(s.credit.reserve) - HeldTokens(s.credit.credit) + WantedTokens(want)
    requires s'.credit.reserve.spend - s'.credit.credit.spend == s.credit.reserve.spend - s.credit.credit.spend + want.spend
    ensures Conserved(s')
  {
    hide Sum, Shape, Closed, TokenEstimates, SpendEstimates, TokenCharges, U.SpendCharges;
    AddedEstimate(s.credit.attempts, a, want);
  }

  lemma CreditWithinReserve(s: Request)
    requires Shape(s) && Conserved(s)
    ensures HeldTokens(s.credit.credit) <= HeldTokens(s.credit.reserve) && s.credit.credit.spend <= s.credit.reserve.spend
  {
    hide Sum, Shape, Closed, TokenEstimates, SpendEstimates, TokenCharges, U.SpendCharges;
    EstimatesNonNegative(s);
  }

  lemma StartKeeps(s: Request, k: Ticket, t: Timed)
    requires Inv(s, k) && k.id != 0 && t.act.Start? && Legal(s, k, t)
    ensures Inv(Step(s, k, t), k)
  {
    hide Sum, L.Step, C.Reserved, C.ReserveDelta, C.Plus, TopUp, U.Begin, U.Accumulated, Conserved, C.AnyUsage;
    var a, want := t.act.attempt, t.act.want;
    if a in s.credit.attempts {
      ReservedTwice(s, k, t);
      return;
    }
    CreditWithinReserve(s);
    ReservedConserves(s.credit, a, want);
    ReservedAttempts(s.credit, a, want);
    TopUpMirrors(s, k, C.ReserveDelta(s.credit, want), t);
    BegunEntries(s, t);
    var s' := Step(s, k, t);
    if TopUp(s.ledger, k, C.ReserveDelta(s.credit, want), t).1 {
      OpenedBooks(s, s', a, want);
    } else {
      SameBooks(s, s');
    }
  }

  /** Reserving an attempt that is in flight again is idempotent. */
  lemma ReservedTwice(s: Request, k: Ticket, t: Timed)
    requires Shape(s) && t.act.Start? && t.act.attempt in s.credit.attempts
    ensures Step(s, k, t) == s
  {
    hide U.Accumulated;
  }

  lemma SameBooks(s: Request, s': Request)
    requires s'.credit == s.credit && Closed(s') == Closed(s)
    ensures Conserved(s) <==> Conserved(s')
  {
  }

  lemma ReservedAttempts(c: C.Credit, a: Id, want: EstimatedUsage)
    ensures C.Reserved(c, a, want).attempts == c.attempts[a := want]
  {
  }

  lemma BegunEntries(s: Request, t: Timed)
    requires Shape(s) && t.act.Start? && t.act.attempt !in s.entries && t.act.attempt != 0
    ensures var a, e := t.act.attempt, U.Begin(s.entries, t.act.attempt, t.act.estimate, t.act.pricing);
      && U.Accumulated(e) && e.Keys == s.entries.Keys + {a}
      && e - (s.credit.attempts.Keys + {a}) == Closed(s)
      && (forall i :: i in s.entries ==> e[i] == s.entries[i])
  {
    hide U.Accumulated, U.Begin;
    U.StepAccumulates(s.entries, U.BeginCall(t.act.attempt, t.act.estimate, t.act.pricing));
    U.BeginAdds(s.entries, t.act.attempt, t.act.estimate, t.act.pricing);
  }

  lemma ReleasedConserves(c: C.Credit, a: Id)
    requires NonNegative(c.reserve) && NonNegative(c.credit) && a in c.attempts
    requires 0 <= c.attempts[a].input && 0 <= c.attempts[a].spend
    requires HeldTokens(c.credit) + WantedTokens(c.attempts[a]) <= HeldTokens(c.reserve) <= MAX_INT64
    requires c.credit.spend + c.attempts[a].spend <= c.reserve.spend
    ensures var c' := C.Released(c, a);
      && NonNegative(c'.credit) && c'.reserve == c.reserve && c'.attempts == c.attempts - {a}
      && HeldTokens(c'.credit) == HeldTokens(c.credit) + WantedTokens(c.attempts[a])
      && c'.credit.spend == c.credit.spend + c.attempts[a].spend
  {
  }

  /** An attempt in flight and the credit together fit in the reserve. */
  lemma AttemptWithinReserve(s: Request, a: Id)
    requires Shape(s) && Conserved(s) && a in s.credit.attempts
    ensures HeldTokens(s.credit.credit) + WantedTokens(s.credit.attempts[a]) <= HeldTokens(s.credit.reserve)
    ensures s.credit.credit.spend + s.credit.attempts[a].spend <= s.credit.reserve.spend
  {
    hide Sum, Shape, Closed, TokenEstimates, SpendEstimates, TokenCharges, U.SpendCharges;
    EstimatesNonNegative(s);
  }

  lemma DroppedBooks(s: Request, s': Request, a: Id)
    requires Shape(s) && Conserved(s) && a in s.credit.attempts
    requires s'.credit == C.Released(s.credit, a) && Closed(s') == Closed(s)
    ensures NonNegative(s'.credit.credit) && Conserved(s')
  {
    hide Sum, Closed, TokenEstimates, SpendEstimates, TokenCharges, U.SpendCharges, U.Accumulated, C.Released;
    AttemptWithinReserve(s, a);
    ReleasedConserves(s.credit, a);
    RemovedEstimate(s.credit.attempts, a);
  }

  lemma DropKeeps(s: Request, k: Ticket, t: Timed)
    requires Inv(s, k) && t.act.Drop? && Legal(s, k, t)
    ensures Inv(Step(s, k, t), k)
  {
    hide Sum, U.Accumulated, Conserved;
    var a, s' := t.act.attempt, Step(s, k, t);
    U.StepAccumulates(s.entries, U.CancelCall(a));
    assert Closed(s') == Closed(s);
    if a in s.credit.attempts {
      DroppedBooks(s, s', a);
    } else {
      SameBooks(s, s');
    }
  }

  lemma FinishKeeps(s: Request, k: Ticket, t: Timed)
    requires Inv(s, k) && t.act.Finish?
    ensures Inv(Step(s, k, t), k)
  {
    hide Sum, U.Accumulated, Conserved, U.Charge, U.Billable;
    var a := t.act.attempt;
    U.StepAccumulates(s.entries, U.CompleteCall(a, t.act.reported, t.act.partial));
    assert Closed(Step(s, k, t)) == Closed(s);
    SameBooks(s, Step(s, k, t));
  }

  /** A reconciled attempt trades its estimate for its charge. */
  lemma ReconciledConserves(c: C.Credit, a: Id, charge: ActualUsage)
    requires NonNegative(c.reserve) && NonNegative(c.credit) && a in c.attempts && U.NonNegativeCharge(charge)
    requires 0 <= c.attempts[a].input && 0 <= c.attempts[a].spend
    requires HeldTokens(c.credit) + WantedTokens(c.attempts[a]) <= HeldTokens(c.reserve) <= MAX_INT64
    requires c.credit.spend + c.attempts[a].spend <= c.reserve.spend
    requires Fits(c.reserve, ChargedTokens(charge), charge.spend)
    ensures var (c', d) := (C.Reconciled(c, a, charge), C.Overage(c.attempts[a], charge));
      && NonNegative(c'.reserve) && NonNegative(c'.credit) && NormalEstimate(d)
      && HeldTokens(d) <= ChargedTokens(charge) && d.spend <= charge.spend
      && HeldTokens(c'.reserve) - HeldTokens(c'.credit)
         == HeldTokens(c.reserve) - HeldTokens(c.credit) - WantedTokens(c.attempts[a]) + ChargedTokens(charge)
      && c'.reserve.spend - c'.credit.spend == c.reserve.spend - c.credit.spend - c.attempts[a].spend + charge.spend
      && HeldTokens(c'.reserve) <= MAX_INT64
      && c'.reserve == C.Plus(c.reserve, d) && c'.attempts == c.attempts - {a}
  {
  }

  lemma AccumulatedCharge(e: U.Entries, a: Id)
    requires U.Accumulated(e) && a in e
    ensures U.NonNegativeCharge(e[a].charge)
  {
  }

  lemma ClosedBooks(s: Request, s': Request, a: Id)
    requires Shape(s) && Conserved(s) && a in s.credit.attempts && a in s.entries
    requires s'.entries == s.entries && s'.credit.attempts == s.credit.attempts - {a}
    requires HeldTokens(s'.credit.reserve) - HeldTokens(s'.credit.credit) == HeldTokens(s.credit.reserve) - HeldTokens(s.credit.credit)
      - WantedTokens(s.credit.attempts[a]) + ChargedTokens(s.entries[a].charge)
    requires s'.credit.reserve.spend - s'.credit.credit.spend
      == s.credit.reserve.spend - s.credit.credit.spend - s.credit.attempts[a].spend + s.entries[a].charge.spend
    ensures Conserved(s')
  {
    hide Sum, Shape, TokenEstimates, SpendEstimates, TokenCharges, U.SpendCharges;
    RemovedEstimate(s.credit.attempts, a);
    AddedCharge(Closed(s), a, s.entries[a]);
    assert Closed(s') == Closed(s)[a := s.entries[a]];
  }

  lemma ReconcileKeeps(s: Request, k: Ticket, t: Timed)
    requires Inv(s, k) && k.id != 0 && t.act.Reconcile? && Legal(s, k, t)
    ensures Inv(Step(s, k, t), k)
  {
    hide Sum, L.Step, C.Reconciled, C.Overage, C.Plus, TopUp, U.Accumulated, Conserved, C.AnyUsage;
    var a, s' := t.act.attempt, Step(s, k, t);
    if a in s.entries && s.entries[a].final && a in s.credit.attempts {
      AttemptWithinReserve(s, a);
      AccumulatedCharge(s.entries, a);
      ReconciledConserves(s.credit, a, s.entries[a].charge);
      var delta := C.Overage(s.credit.attempts[a], s.entries[a].charge);
      TopUpMirrors(s, k, delta, t);
      if TopUp(s.ledger, k, delta, t).1 {
        ClosedBooks(s, s', a);
      } else {
        SameBooks(s, s');
      }
    }
  }

  lemma StoreKeeps(s: Request, k: Ticket, t: Timed)
    requires Inv(s, k) && k.id != 0 && (t.act.Renew? || t.act.Other?) && Legal(s, k, t)
    ensures Inv(Step(s, k, t), k)
  {
    hide Sum, L.Step, U.Accumulated;
    if t.act.Renew? {
      TopUpGrowsTicket(s.ledger, k, NO_ESTIMATE, t.at, t.visit);
    } else {
      ForeignKeepsTicket(s.ledger, L.Event(t.at, t.visit, t.act.op), k.id);
    }
    assert Closed(Step(s, k, t)) == Closed(s);
  }

  lemma {:induction false} RunKeeps(s: Request, k: Ticket, ts: seq<Timed>)
    requires Inv(s, k) && k.id != 0 && LegalRun(s, k, ts)
    ensures Inv(Run(s, k, ts), k)
    decreases |ts|
  {
    hide Inv, Step, Legal;
    if ts != [] {
      match ts[0].act {
        case Start(_, _, _, _) => StartKeeps(s, k, ts[0]);
        case Drop(_) => DropKeeps(s, k, ts[0]);
        case Finish(_, _, _) => FinishKeeps(s, k, ts[0]);
        case Reconcile(_) => ReconcileKeeps(s, k, ts[0]);
        case _ => StoreKeeps(s, k, ts[0]);
      }
      RunKeeps(Step(s, k, ts[0]), k, ts[1..]);
    }
  }

  predicate NoUsage(e: EstimatedUsage) { e.input == 0 && e.output == 0 && e.spend == 0 }

  /** A request that has just been admitted: an empty ticket, no attempts. */
  predicate Admitted(s: Request, k: Ticket) {
    && k.id != 0 && k.id in s.ledger.reservations && NoUsage(s.ledger.reservations[k.id].held)
    && NoUsage(s.credit.reserve) && NoUsage(s.credit.credit)
    && s.credit.attempts.Keys == {} && s.entries.Keys == {}
  }

  lemma NothingYet(s: Request)
    requires s.credit.attempts.Keys == {} && s.entries.Keys == {}
    ensures Sum(TokenEstimates(s.credit.attempts)) == Sum(SpendEstimates(s.credit.attempts)) == 0
    ensures Sum(TokenCharges(Closed(s))) == Sum(U.SpendCharges(Closed(s))) == 0
  {
    hide Sum;
    SumZero(TokenEstimates(s.credit.attempts));
    SumZero(SpendEstimates(s.credit.attempts));
    SumZero(TokenCharges(Closed(s)));
    SumZero(U.SpendCharges(Closed(s)));
  }

  lemma AdmittedConserved(s: Request)
    requires HeldTokens(s.credit.reserve) == HeldTokens(s.credit.credit) == s.credit.reserve.spend == s.credit.credit.spend == 0
    requires Sum(TokenEstimates(s.credit.attempts)) == Sum(SpendEstimates(s.credit.attempts)) == 0
    requires Sum(TokenCharges(Closed(s))) == Sum(U.SpendCharges(Closed(s))) == 0
    ensures Conserved(s)
  {
    hide Sum, Closed, TokenEstimates, SpendEstimates, TokenCharges, U.SpendCharges;
  }

  lemma NoEntries(e: U.Entries, a: map<Id, EstimatedUsage>)
    requires e.Keys == {} && a.Keys == {}
    ensures U.Accumulated(e) && a.Keys <= e.Keys
    ensures forall i :: i !in e && i !in a
  {
    hide U.Normal, U.Charge, U.NonNegativeCharge;
    assert forall i :: i in e <==> i in e.Keys;
    assert forall i :: i in a <==> i in a.Keys;
  }

  lemma AdmittedShape(s: Request, k: Ticket)
    requires Admitted(s, k)
    ensures Shape(s)
  {
    hide U.Accumulated;
    NoEntries(s.entries, s.credit.attempts);
  }

  lemma AdmittedInv(s: Request, k: Ticket)
    requires Admitted(s, k)
    ensures Inv(s, k) && k.id != 0
  {
    hide Conserved, Shape, Sum, Closed, TokenEstimates, SpendEstimates, TokenCharges, U.SpendCharges;
    NothingYet(s);
    AdmittedConserved(s);
    AdmittedShape(s, k);
  }

  /** Credit conservation, over every interleaving: what the request reserved
      is what its attempts in flight, its credit and its closed attempts account
      for, and a live ticket in the store holds exactly that. */
  lemma CreditConserved(s: Request, k: Ticket, ts: seq<Timed>)
    requires Admitted(s, k) && LegalRun(s, k, ts)
    ensures var r := Run(s, k, ts);
      && Conserved(r)
      && (k.id in r.ledger.reservations ==>
            && HeldTokens(r.ledger.reservations[k.id].held)
               == Sum(TokenEstimates(r.credit.attempts)) + HeldTokens(r.credit.credit) + Sum(TokenCharges(Closed(r)))
            && r.ledger.reservations[k.id].held.spend
               == Sum(SpendEstimates(r.credit.attempts)) + r.credit.credit.spend + Sum(U.SpendCharges(Closed(r))))
  {
    hide Run, LegalRun, Shape, Admitted, Sum, Closed, TokenEstimates, SpendEstimates, TokenCharges, U.SpendCharges;
    AdmittedInv(s, k);
    RunKeeps(s, k, ts);
  }
}
