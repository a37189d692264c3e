/** Settling a request (policy/quota.go): one commit or refund closes the
    ticket, and a commit exceeds what was held only after a refused top-up. */
module RequestSettlement {
  import opened QuotaTypes
  import opened MapSums
  import opened RequestRuns
  import L = MemoryLedger
  import M = MemoryRuns
  import H = MemoryHolds
  import B = MemoryBudgets
  import Q = MemorySettlements
  import U = AttemptUsage
  import C = RequestCredit

  // --- No top-up when charges stay within estimates ---------------------------------------

  lemma {:induction false} ChargesByDimension(e: U.Entries)
    ensures Sum(TokenCharges(e)) == Sum(U.InputCharges(e)) + Sum(U.OutputCharges(e))
    decreases |e|
  {
    hide Sum;
    if |e| == 0 {
      SumZero(TokenCharges(e));
      SumZero(U.InputCharges(e));
      SumZero(U.OutputCharges(e));
    } else {
      assert e.Keys != {};
      var id :| id in e;
      ChargesByDimension(e - {id});
      U.ChargesOfOneMore(e, id);
      assert (e - {id})[id := e[id]] == e;
      AddedCharge(e - {id}, id, e[id]);
    }
  }

  /** The settled total never exceeds the exact sum of all charges. */
  lemma TotalWithinCharges(e: U.Entries, total: ActualUsage)
    requires U.Accumulated(e) && U.IsTotal(e, total)
    ensures U.NonNegativeCharge(total)
    ensures ActualTokens(total) <= Sum(TokenCharges(e)) && total.spend <= Sum(U.SpendCharges(e))
  {
    hide Sum, U.Accumulated, TokenCharges, U.SpendCharges, U.InputCharges, U.OutputCharges;
    ChargesByDimension(e);
    U.ChargesNonNegative(e);
  }

  predicate WithinEstimates(e: U.Entries, live: map<Id, EstimatedUsage>) {
    forall i :: i in live && i in e ==>
      ChargedTokens(e[i].charge) <= WantedTokens(live[i]) && e[i].charge.spend <= live[i].spend
  }

  lemma WithinPart(e: U.Entries, live: map<Id, EstimatedUsage>, id: Id)
    requires live.Keys <= e.Keys && WithinEstimates(e, live) && id in live
    ensures (live - {id}).Keys <= e.Keys && WithinEstimates(e, live - {id})
  {
  }

  /** All charges are covered by the charges of closed attempts plus the
      estimates of attempts in flight. */
  lemma {:induction false} ChargesCovered(e: U.Entries, live: map<Id, EstimatedUsage>)
    requires live.Keys <= e.Keys && WithinEstimates(e, live)
    ensures Sum(TokenCharges(e)) <= Sum(TokenCharges(e - live.Keys)) + Sum(TokenEstimates(live))
    ensures Sum(U.SpendCharges(e)) <= Sum(U.SpendCharges(e - live.Keys)) + Sum(SpendEstimates(live))
    decreases |live|
  {
    hide Sum, TokenCharges, U.SpendCharges, TokenEstimates, SpendEstimates;
    if |live| == 0 {
      assert e - live.Keys == e;
      NoEstimates(live);
    } else {
      assert live.Keys != {};
      var id :| id in live;
      var rest := live - {id};
      WithinPart(e, live, id);
      ChargesCovered(e, rest);
      RemovedEstimate(live, id);
      assert id in e && e - rest.Keys == (e - live.Keys)[id := e[id]];
      AddedCharge(e - live.Keys, id, e[id]);
    }
  }

  lemma NoEstimates(live: map<Id, EstimatedUsage>)
    requires |live| == 0
    ensures Sum(TokenEstimates(live)) == 0 && Sum(SpendEstimates(live)) == 0
  {
    SumZero(TokenEstimates(live));
    SumZero(SpendEstimates(live));
  }

  lemma CoveredNeedsNothing(reserve: EstimatedUsage, actual: ActualUsage)
    requires NonNegative(reserve) && HeldTokens(reserve) <= MAX_INT64
    requires ActualTokens(actual) <= HeldTokens(reserve) && actual.spend <= reserve.spend
    ensures !C.AnyUsage(C.SettlementDelta(reserve, actual))
  {
  }

  /** If every attempt in flight was charged at most its estimate, the
      accumulated total fits in the reservation: settlement asks for nothing. */
  lemma NoTopUpNeeded(s: Request, k: Ticket, total: ActualUsage)
    requires Inv(s, k) && U.IsTotal(s.entries, total) && WithinEstimates(s.entries, s.credit.attempts)
    ensures !C.AnyUsage(C.SettlementDelta(s.credit.reserve, total))
  {
    hide Sum, U.Accumulated, U.IsTotal, TokenCharges, U.SpendCharges, TokenEstimates, SpendEstimates, C.AnyUsage, C.SettlementDelta;
    TotalWithinCharges(s.entries, total);
    ChargesCovered(s.entries, s.credit.attempts);
    CoveredNeedsNothing(s.credit.reserve, total);
  }

  /** A granted reservation, fresh or replayed, leaves an empty live ticket. */
  lemma ReserveAdmits(l: L.Ledger, k: Ticket, scopes: seq<ScopedLimit>, at: Instant, visit: seq<Id>)
    requires k.id != 0
    ensures var (l', r) := L.Step(l, L.Event(at, visit, L.Reserve(k.id, scopes, NO_ESTIMATE, k.ttl)));
      r == L.Ok ==> Admitted(Request(l', C.NO_CREDIT, map[]), k)
  {
    hide L.Cleanup, L.ApplyHolds, L.CheckScopes, ResolveScopes;
  }

  /** From admission to settlement: whatever happened to the attempts and in
      the store in between, a request whose attempts in flight were charged
      within their estimates settles without asking for more. */
  lemma RequestSettlesWithinReservation(l: L.Ledger, k: Ticket, scopes: seq<ScopedLimit>, at: Instant, visit: seq<Id>,
                                        ts: seq<Timed>, total: ActualUsage)
    requires k.id != 0
    ensures var (l', r) := L.Step(l, L.Event(at, visit, L.Reserve(k.id, scopes, NO_ESTIMATE, k.ttl)));
      var start := Request(l', C.NO_CREDIT, map[]);
      var s := Run(start, k, ts);
      r == L.Ok && LegalRun(start, k, ts) && U.IsTotal(s.entries, total) && WithinEstimates(s.entries, s.credit.attempts)
      ==> !C.AnyUsage(C.SettlementDelta(s.credit.reserve, total))
  {
    hide Run, LegalRun, L.Step, U.IsTotal, WithinEstimates, C.AnyUsage, C.SettlementDelta, Inv, Admitted;
    var (l', r) := L.Step(l, L.Event(at, visit, L.Reserve(k.id, scopes, NO_ESTIMATE, k.ttl)));
    var start := Request(l', C.NO_CREDIT, map[]);
    ReserveAdmits(l, k, scopes, at, visit);
    if r == L.Ok && LegalRun(start, k, ts) {
      AdmittedInv(start, k);
      RunKeeps(start, k, ts);
      var s := Run(start, k, ts);
      if U.IsTotal(s.entries, total) && WithinEstimates(s.entries, s.credit.attempts) {
        NoTopUpNeeded(s, k, total);
      }
    }
  }

  // --- Commits within what is held ----------------------------------------------------------

  lemma ScopeUseWithinHold(scope: Scope, ref: ScopeRef, k: Key, tokens: int, spend: int, used: int, usedSpend: int)
    requires ScopeMatchesLimit(scope) && 0 <= used <= tokens && 0 <= usedSpend <= spend
    ensures H.UsedHold(scope, ref, UsedKey(k), used, usedSpend) <= H.ScopeHold(scope, ref, k, tokens, spend)
  {
  }

  lemma {:induction false} UseWithinHold(scopes: seq<Scope>, ref: ScopeRef, k: Key, tokens: int, spend: int, used: int, usedSpend: int)
    requires H.Matched(scopes) && 0 <= used <= tokens && 0 <= usedSpend <= spend
    ensures H.ScopesUsed(scopes, ref, UsedKey(k), used, usedSpend) <= H.ScopesHold(scopes, ref, k, tokens, spend)
    decreases |scopes|
  {
    hide H.UsedHold, H.ScopeHold;
    if scopes != [] {
      H.MatchedParts(scopes);
      ScopeUseWithinHold(scopes[0], ref, k, tokens, spend, used, usedSpend);
      UseWithinHold(scopes[1..], ref, k, tokens, spend, used, usedSpend);
    }
  }

  predicate Covers(held: EstimatedUsage, actual: ActualUsage) {
    ActualTokens(actual) <= EstimatedTokens(held) && Max(actual.spend, 0) <= held.spend
  }

  lemma CoveredCommit(l: L.Ledger, id: Id, actual: ActualUsage, at: Instant, visit: seq<Id>, ref: ScopeRef, k: Key)
    requires id in l.reservations ==> H.GoodReservation(l.reservations[id]) && Covers(l.reservations[id].held, actual)
    ensures B.StepOverage(l, L.Event(at, visit, L.Commit(id, actual)), ref, k) == 0
  {
    hide L.Cleanup, H.ScopesUsed, H.ScopesHold;
    CleanupRemoves(l, at.ns, visit);
    var l1 := L.Cleanup(l, at.ns, visit);
    if id in l1.reservations {
      var res, n := l1.reservations[id], NormalizeActual(actual);
      UseWithinHold(res.scopes, ref, k, EstimatedTokens(res.held), res.held.spend, ActualTokens(n), n.spend);
    }
  }

  // --- The settlement protocol ----------------------------------------------------------------

  predicate ForeignAll(es: seq<L.Event>, id: Id) { forall i :: 0 <= i < |es| ==> Foreign(es[i].op, id) }

  lemma {:induction false} ForeignRunKeepsTicket(l: L.Ledger, es: seq<L.Event>, id: Id)
    requires ForeignAll(es, id)
    ensures var l' := L.Run(l, es);
      id in l'.reservations ==> id in l.reservations && l'.reservations[id] == l.reservations[id]
    decreases |es|
  {
    hide L.Step, Foreign;
    if es != [] {
      ForeignKeepsTicket(l, es[0], id);
      ForeignRunKeepsTicket(L.Step(l, es[0]).0, es[1..], id);
    }
  }

  lemma DeltaFits(reserve: EstimatedUsage, actual: ActualUsage)
    requires NonNegative(reserve) && HeldTokens(reserve) <= MAX_INT64
    ensures var d := C.SettlementDelta(reserve, actual);
      && 0 <= d.input && d.output == 0 && 0 <= d.spend
      && HeldTokens(reserve) + d.input == Max(HeldTokens(reserve), ActualTokens(actual))
      && reserve.spend + d.spend == Max(reserve.spend, actual.spend)
  {
    hide SaturatingSum;
    assert EstimatedTokens(reserve) == HeldTokens(reserve);
  }

  lemma PlusCovers(reserve: EstimatedUsage, d: EstimatedUsage, actual: ActualUsage)
    requires NonNegative(reserve) && 0 <= d.input && d.output == 0 && 0 <= d.spend
    requires HeldTokens(reserve) + d.input == Max(HeldTokens(reserve), ActualTokens(actual)) <= MAX_INT64
    requires reserve.spend + d.spend == Max(reserve.spend, actual.spend)
    ensures NormalEstimate(d) && Fits(reserve, HeldTokens(d), d.spend) && Covers(C.Plus(reserve, d), actual)
  {
    hide SaturatingSum;
    var p := C.Plus(reserve, d);
    assert HeldTokens(p) == HeldTokens(reserve) + d.input;
    assert EstimatedTokens(p) == HeldTokens(p);
  }

  /** A settlement, whatever happens between its top-up and its commit: only
      after the top-up was needed and refused can the commit exceed what the
      ticket holds, on any key of any scope. */
  lemma OverageOnlyAfterRefusal(s: Request, k: Ticket, actual: ActualUsage, t: Timed, between: seq<L.Event>,
                                at: Instant, visit: seq<Id>, ref: ScopeRef, key: Key)
    requires Shape(s) && Mirrors(s, k) && k.id != 0 && ForeignAll(between, k.id)
    requires k.id in s.ledger.reservations ==> H.GoodScopes(s.ledger.reservations[k.id].scopes)
    ensures var delta := C.SettlementDelta(s.credit.reserve, actual);
      var (topped, granted) := TopUp(s.ledger, k, delta, t);
      B.StepOverage(L.Run(topped, between), L.Event(at, visit, L.Commit(k.id, actual)), ref, key) > 0 ==> !granted
  {
    hide L.Run, L.Step, L.Cleanup, C.SettlementDelta, C.AnyUsage, C.Plus, B.StepOverage, H.GoodScopes, Covers, TopUp;
    var delta := C.SettlementDelta(s.credit.reserve, actual);
    var (topped, granted) := TopUp(s.ledger, k, delta, t);
    DeltaFits(s.credit.reserve, actual);
    PlusCovers(s.credit.reserve, delta, actual);
    TopUpMirrors(s, k, delta, t);
    TopUpScopes(s.ledger, k, delta, t);
    ForeignRunKeepsTicket(topped, between, k.id);
    if granted {
      PlusNonNegative(s.credit.reserve, delta);
      CoveredCommit(L.Run(topped, between), k.id, actual, at, visit, ref, key);
    }
  }

  /** The same from admission on, over every run of the request: whatever
      happened before and whatever happens between top-up and commit. */
  lemma SettlementOverageOnlyAfterRefusal(
      l: L.Ledger, k: Ticket, scopes: seq<ScopedLimit>, admitted: Instant, first: seq<Id>, ts: seq<Timed>,
      actual: ActualUsage, t: Timed, between: seq<L.Event>, at: Instant, visit: seq<Id>, ref: ScopeRef, key: Key)
    requires k.id != 0 && M.DistinctScopeRefs(scopes) && ForeignAll(between, k.id) && H.GoodReservations(l.reservations)
    ensures var (l', r) := L.Step(l, L.Event(admitted, first, L.Reserve(k.id, scopes, NO_ESTIMATE, k.ttl)));
      var start := Request(l', C.NO_CREDIT, map[]);
      r == L.Ok && LegalRun(start, k, ts) ==>
        var s := Run(start, k, ts);
        var (topped, granted) := TopUp(s.ledger, k, C.SettlementDelta(s.credit.reserve, actual), t);
        B.StepOverage(L.Run(topped, between), L.Event(at, visit, L.Commit(k.id, actual)), ref, key) > 0 ==> !granted
  {
    hide Run, LegalRun, L.Step, L.Run, Inv, Admitted, TopUp, B.StepOverage, C.SettlementDelta, H.GoodReservations;
    var (l', r) := L.Step(l, L.Event(admitted, first, L.Reserve(k.id, scopes, NO_ESTIMATE, k.ttl)));
    var start := Request(l', C.NO_CREDIT, map[]);
    ReserveAdmits(l, k, scopes, admitted, first);
    if r == L.Ok && LegalRun(start, k, ts) {
      AdmittedInv(start, k);
      RunKeeps(start, k, ts);
      var s := Run(start, k, ts);
      ReserveScopesGood(l, k, scopes, admitted, first);
      RunScopesGood(start, k, ts);
      InvParts(s, k);
      OverageOnlyAfterRefusal(s, k, actual, t, between, at, visit, ref, key);
    }
  }

  lemma InvParts(s: Request, k: Ticket)
    requires Inv(s, k)
    ensures Shape(s) && Mirrors(s, k)
  {
  }

  // The scopes of the ticket are well formed, while it is live.
  predicate TicketScopesGood(l: L.Ledger, id: Id) { id in l.reservations ==> H.GoodScopes(l.reservations[id].scopes) }

  lemma ReserveScopesGood(l: L.Ledger, k: Ticket, scopes: seq<ScopedLimit>, at: Instant, visit: seq<Id>)
    requires k.id != 0 && M.DistinctScopeRefs(scopes) && H.GoodReservations(l.reservations)
    ensures var (l', r) := L.Step(l, L.Event(at, visit, L.Reserve(k.id, scopes, NO_ESTIMATE, k.ttl)));
      r == L.Ok ==> TicketScopesGood(l', k.id)
  {
    hide L.Cleanup, L.ApplyHolds, L.CheckScopes;
    M.ResolvedGood(scopes, at);
    CleanupRemoves(l, at.ns, visit);
    Q.ApplyHoldsQueue(L.Cleanup(l, at.ns, visit), ResolveScopes(scopes, at), NO_ESTIMATE, at.ns, false);
  }

  lemma TopUpStepScopes(l: L.Ledger, id: Id, delta: EstimatedUsage, ttl: int, at: Instant, visit: seq<Id>)
    requires id != 0
    ensures var l' := L.Step(l, L.Event(at, visit, L.TopUp(id, delta, ttl))).0;
      id in l'.reservations ==> id in l.reservations && l'.reservations[id].scopes == l.reservations[id].scopes
  {
    hide L.Cleanup, L.ApplyHolds, L.CheckScopes;
    CleanupRemoves(l, at.ns, visit);
    var s1 := L.Cleanup(l, at.ns, visit);
    if id in s1.reservations {
      Q.ApplyHoldsQueue(s1, s1.reservations[id].scopes, NormalizeEstimate(delta), at.ns, true);
    }
  }

  lemma StepScopesGood(s: Request, k: Ticket, t: Timed)
    requires k.id != 0 && Legal(s, k, t) && TicketScopesGood(s.ledger, k.id)
    ensures TicketScopesGood(Step(s, k, t).ledger, k.id)
  {
    hide L.Step, TopUp, H.GoodScopes, C.ReserveDelta, C.Overage, C.Reserved, C.Reconciled, C.Released, U.Begin, U.Cancel, U.Complete;
    match t.act
    case Start(a, want, _, _) => TopUpScopes(s.ledger, k, C.ReserveDelta(s.credit, want), t);
    case Reconcile(a) =>
      if a in s.entries && a in s.credit.attempts {
        TopUpScopes(s.ledger, k, C.Overage(s.credit.attempts[a], s.entries[a].charge), t);
      }
    case Renew => TopUpStepScopes(s.ledger, k.id, NO_ESTIMATE, k.ttl, t.at, t.visit);
    case Other(op) => ForeignKeepsTicket(s.ledger, L.Event(t.at, t.visit, op), k.id);
    case _ =>
  }

  lemma {:induction false} RunScopesGood(s: Request, k: Ticket, ts: seq<Timed>)
    requires k.id != 0 && LegalRun(s, k, ts) && TicketScopesGood(s.ledger, k.id)
    ensures TicketScopesGood(Run(s, k, ts).ledger, k.id)
    decreases |ts|
  {
    hide Step, Legal, TicketScopesGood;
    if ts != [] {
      StepScopesGood(s, k, ts[0]);
      RunScopesGood(Step(s, k, ts[0]), k, ts[1..]);
    }
  }

  lemma PlusNonNegative(a: EstimatedUsage, b: EstimatedUsage)
    ensures NonNegative(C.Plus(a, b))
  {
  }

  lemma TopUpScopes(l: L.Ledger, k: Ticket, delta: EstimatedUsage, t: Timed)
    ensures var l' := TopUp(l, k, delta, t).0;
      k.id in l'.reservations ==> k.id in l.reservations && l'.reservations[k.id].scopes == l.reservations[k.id].scopes
  {
    hide L.Cleanup, L.ApplyHolds, L.CheckScopes;
    CleanupRemoves(l, t.at.ns, t.visit);
    var s1 := L.Cleanup(l, t.at.ns, t.visit);
    if k.id in s1.reservations {
      Q.ApplyHoldsQueue(s1, s1.reservations[k.id].scopes, NormalizeEstimate(delta), t.at.ns, true);
    }
  }
}
