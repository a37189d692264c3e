/** A Redis ticket is settled at most once, and a settled ID is refused while
    its tombstone lasts. */
module RedisSettlements {
  import opened QuotaTypes
  import opened RedisLedger
  import opened RedisRuns

  predicate ValidReserve(e: Event) { e.call.ReserveCall? && e.call.id != 0 && ValidateEstimate(e.call.estimate).Some? }

  // What the reserve script answers to the call.
  function ReserveAnswer(db: Db, e: Event): ReserveResult
    requires ValidReserve(e)
  {
    var v := ValidateEstimate(e.call.estimate).value;
    ReserveScript(db, InMillis(ResolveScopes(e.call.scopes, e.at)), v, e.call.id, Fingerprint(e.call.scopes, v),
                  Millis(e.at.ns), ScriptTtl(e.call.ttl), ReserveMinuteTtl(e.at.ns)).1
  }

  /** The call makes the ID live: the script creates its ticket. */
  predicate Admits(db: Db, e: Event, id: Id) { ValidReserve(e) && e.call.id == id && ReserveAnswer(db, e) == Reserved }

  // What the settle script answers to a commit or refund.
  function SettleAnswer(db: Db, e: Event): SettleResult {
    match e.call
    case CommitCall(id, actual) =>
      var v := ValidateActual(actual);
      if id == 0 || v.None? then NotFound
      else SettleScript(db, id, true, ActualTokens(v.value), v.value.spend, Millis(e.at.ns)).1
    case RefundCall(id) => if id == 0 then NotFound else SettleScript(db, id, false, 0, 0, Millis(e.at.ns)).1
    case _ => NotFound
  }

  /** The call settles the ID: counters change on its behalf. */
  predicate Settles(db: Db, e: Event, id: Id) {
    (e.call.CommitCall? || e.call.RefundCall?) && e.call.id == id && SettleAnswer(db, e) == Settled
  }

  function Settlements(db: Db, es: seq<Event>, id: Id): nat
    decreases |es|
  {
    if es == [] then 0 else (if Settles(db, es[0], id) then 1 else 0) + Settlements(Step(db, es[0]).0, es[1..], id)
  }

  function Admissions(db: Db, es: seq<Event>, id: Id): nat
    decreases |es|
  {
    if es == [] then 0 else (if Admits(db, es[0], id) then 1 else 0) + Admissions(Step(db, es[0]).0, es[1..], id)
  }

  // --- One call -------------------------------------------------------------------------------------

  lemma ReserveTickets(db: Db, scopes: seq<Scope>, estimate: EstimatedUsage, other: Id, fingerprint: Fingerprint,
                       now: int, ttl: int, minuteTtl: int, id: Id)
    ensures var (db', r) := ReserveScript(db, scopes, estimate, other, fingerprint, now, ttl, minuteTtl);
      id in db'.tickets ==> id in db.tickets || (id == other && r == Reserved)
  {
    hide ForScopes, CheckReserveAll;
    var db0 := Sweep(db, now);
    ForScopesRest(db0, scopes, Prune(now, None));
    var db1 := ReservePruned(db, scopes, now);
    ForScopesRest(db1, scopes, Hold(other, EstimatedTokens(estimate), estimate.spend, now, ttl, minuteTtl));
  }

  lemma TopUpTickets(db: Db, other: Id, tokens: int, spend: int, now: int, ttl: int, id: Id)
    requires 0 <= tokens <= MAX_QUOTA && 0 <= spend <= MAX_QUOTA
    ensures id in TopUpScript(db, other, tokens, spend, now, ttl).0.tickets ==> id in db.tickets
  {
    hide ForScopes, CheckTopUpAll;
    var db0 := Sweep(db, now);
    if other in db0.tickets {
      var t := db0.tickets[other];
      ForScopesRest(db0, t.scopes, Prune(now, Some(other)));
      ForScopesRest(ForScopes(db0, t.scopes, Prune(now, Some(other))), t.scopes, TopUp(other, tokens, spend, now, ttl));
    }
  }

  /** A settlement needs the ticket and removes it. */
  lemma SettleTickets(db: Db, other: Id, commit: bool, tokens: int, spend: int, now: int, id: Id)
    ensures var (db', r) := SettleScript(db, other, commit, tokens, spend, now);
      && (id in db'.tickets ==> id in db.tickets)
      && (r == Settled ==> other in db.tickets && other !in db'.tickets)
  {
    hide ForScopes, CanSettleAll, LeasesPresent;
    var db0 := PruneSettled(Sweep(db, now), now);
    if other in db0.tickets {
      var t := db0.tickets[other];
      var db1 := ForScopes(db0, t.scopes, Prune(now, Some(other)));
      ForScopesRest(db0, t.scopes, Prune(now, Some(other)));
      ForScopesRest(db1, t.scopes, Settle(other, HeldTokens(t), t.held.spend, commit, tokens, spend, now));
    }
  }

  lemma StepTickets(db: Db, e: Event, id: Id)
    ensures var db' := Step(db, e).0;
      && (id in db'.tickets && !Admits(db, e, id) ==> id in db.tickets)
      && (Settles(db, e, id) ==> id in db.tickets && id !in db'.tickets)
  {
    hide ReserveScript, TopUpScript, SettleScript, ResolveScopes;
    var now := Millis(e.at.ns);
    match e.call
    case ReserveCall(other, scopes, estimate, ttl) =>
      var v := ValidateEstimate(estimate);
      if v.Some? {
        ReserveTickets(db, InMillis(ResolveScopes(scopes, e.at)), v.value, other, Fingerprint(scopes, v.value),
                       now, ScriptTtl(ttl), ReserveMinuteTtl(e.at.ns), id);
      }
    case TopUpCall(other, delta, ttl) =>
      var v := ValidateEstimate(delta);
      if v.Some? {
        TopUpTickets(db, other, EstimatedTokens(v.value), v.value.spend, now, ScriptTtl(ttl), id);
      }
    case CommitCall(other, actual) =>
      var v := ValidateActual(actual);
      if v.Some? {
        SettleTickets(db, other, true, ActualTokens(v.value), v.value.spend, now, id);
      }
    case RefundCall(other) => SettleTickets(db, other, false, 0, 0, now, id);
    case UsageCall(ref) =>
  }

  /** At most one commit or refund settles an ID per reserve that creates its
      ticket, over every run; without such a reserve nothing settles it. */
  lemma {:induction false} RedisSettledAtMostOnce(db: Db, es: seq<Event>, id: Id)
    ensures Settlements(db, es, id) <= Admissions(db, es, id) + if id in db.tickets then 1 else 0
    decreases |es|
  {
    hide Step, Admits, Settles;
    if es != [] {
      StepTickets(db, es[0], id);
      RedisSettledAtMostOnce(Step(db, es[0]).0, es[1..], id);
    }
  }

  // --- Tombstones ------------------------------------------------------------------------------------------

  /** The ID is remembered as settled until the given time, and the set of
      tombstones outlives it. */
  predicate Tombstone(db: Db, id: Id, until: int) { id in db.settled && db.settled[id] == until && until <= db.settledExpireAt }

  lemma SweepKeepsTombstone(db: Db, now: int, id: Id, until: int)
    requires Tombstone(db, id, until) && now < until
    ensures Tombstone(Sweep(db, now), id, until) && Tombstone(PruneSettled(Sweep(db, now), now), id, until)
  {
  }

  lemma ReserveKeepsTombstone(db: Db, scopes: seq<Scope>, estimate: EstimatedUsage, other: Id, fingerprint: Fingerprint,
                              now: int, ttl: int, minuteTtl: int, id: Id, until: int)
    requires Tombstone(db, id, until) && now < until
    ensures var (db', r) := ReserveScript(db, scopes, estimate, other, fingerprint, now, ttl, minuteTtl);
      Tombstone(db', id, until) && (other == id ==> r == Conflict)
  {
    hide ForScopes, CheckReserveAll;
    SweepKeepsTombstone(db, now, id, until);
    ForScopesRest(Sweep(db, now), scopes, Prune(now, None));
    var db1 := ReservePruned(db, scopes, now);
    ForScopesRest(db1, scopes, Hold(other, EstimatedTokens(estimate), estimate.spend, now, ttl, minuteTtl));
  }

  lemma TopUpKeepsTombstone(db: Db, other: Id, tokens: int, spend: int, now: int, ttl: int, id: Id, until: int)
    requires 0 <= tokens <= MAX_QUOTA && 0 <= spend <= MAX_QUOTA && Tombstone(db, id, until) && now < until
    ensures Tombstone(TopUpScript(db, other, tokens, spend, now, ttl).0, id, until)
  {
    hide ForScopes, CheckTopUpAll;
    SweepKeepsTombstone(db, now, id, until);
    var db0 := Sweep(db, now);
    if other in db0.tickets {
      var t := db0.tickets[other];
      ForScopesRest(db0, t.scopes, Prune(now, Some(other)));
      ForScopesRest(ForScopes(db0, t.scopes, Prune(now, Some(other))), t.scopes, TopUp(other, tokens, spend, now, ttl));
    }
  }

  lemma SettleKeepsTombstone(db: Db, other: Id, commit: bool, tokens: int, spend: int, now: int, id: Id, until: int)
    requires Tombstone(db, id, until) && now < until <= now + TOMBSTONE_TTL && id !in db.tickets
    ensures Tombstone(SettleScript(db, other, commit, tokens, spend, now).0, id, until)
  {
    hide ForScopes, CanSettleAll, LeasesPresent;
    SweepKeepsTombstone(db, now, id, until);
    var db0 := PruneSettled(Sweep(db, now), now);
    if other in db0.tickets {
      var t := db0.tickets[other];
      var db1 := ForScopes(db0, t.scopes, Prune(now, Some(other)));
      ForScopesRest(db0, t.scopes, Prune(now, Some(other)));
      ForScopesRest(db1, t.scopes, Settle(other, HeldTokens(t), t.held.spend, commit, tokens, spend, now));
    }
  }

  /** Inside its window a tombstone survives every call, its ID stays without a
      ticket, and a reserve of it is refused as a conflict. */
  lemma StepKeepsTombstone(db: Db, e: Event, id: Id, until: int)
    requires Tombstone(db, id, until) && id !in db.tickets && id != 0
    requires Millis(e.at.ns) < until <= Millis(e.at.ns) + TOMBSTONE_TTL
    ensures var (db', r) := Step(db, e);
      && Tombstone(db', id, until) && id !in db'.tickets
      && (ValidReserve(e) && e.call.id == id ==> r == ConflictError)
  {
    hide ReserveScript, TopUpScript, SettleScript, ResolveScopes;
    StepTickets(db, e, id);
    var now := Millis(e.at.ns);
    match e.call
    case ReserveCall(other, scopes, estimate, ttl) =>
      var v := ValidateEstimate(estimate);
      if v.Some? {
        ReserveKeepsTombstone(db, InMillis(ResolveScopes(scopes, e.at)), v.value, other, Fingerprint(scopes, v.value),
                              now, ScriptTtl(ttl), ReserveMinuteTtl(e.at.ns), id, until);
      }
    case TopUpCall(other, delta, ttl) =>
      var v := ValidateEstimate(delta);
      if v.Some? {
        TopUpKeepsTombstone(db, other, EstimatedTokens(v.value), v.value.spend, now, ScriptTtl(ttl), id, until);
      }
    case CommitCall(other, actual) =>
      var v := ValidateActual(actual);
      if v.Some? {
        SettleKeepsTombstone(db, other, true, ActualTokens(v.value), v.value.spend, now, id, until);
      }
    case RefundCall(other) => SettleKeepsTombstone(db, other, false, 0, 0, now, id, until);
    case UsageCall(ref) => SweepKeepsTombstone(db, now, id, until);
  }

  // All calls fall into the window that ends at the given time.
  predicate InWindow(es: seq<Event>, until: int) {
    forall i :: 0 <= i < |es| ==> Millis(es[i].at.ns) < until <= Millis(es[i].at.ns) + 60_000
  }

  lemma {:induction false} RunKeepsTombstone(db: Db, es: seq<Event>, id: Id, until: int)
    requires Tombstone(db, id, until) && id !in db.tickets && id != 0 && InWindow(es, until)
    ensures Tombstone(Run(db, es), id, until) && id !in Run(db, es).tickets
    decreases |es|
  {
    hide Step, Tombstone;
    if es != [] {
      StepKeepsTombstone(db, es[0], id, until);
      RunKeepsTombstone(Step(db, es[0]).0, es[1..], id, until);
    }
  }

  /** After an ID is settled, every reserve of it for the next minute is refused
      as a conflict, whatever other calls come in between. */
  lemma RedisSettledIdStaysRefused(db: Db, settle: Event, es: seq<Event>, e: Event, id: Id)
    requires Settles(db, settle, id) && id != 0
    requires InWindow(es + [e], Millis(settle.at.ns) + 60_000)
    requires ValidReserve(e) && e.call.id == id
    ensures Step(Run(Step(db, settle).0, es), e).1 == ConflictError
  {
    hide Step, Run;
    var until := Millis(settle.at.ns) + 60_000;
    var db1 := Step(db, settle).0;
    StepTickets(db, settle, id);
    SettledLeavesTombstone(db, settle, id);
    var all := es + [e];
    assert all[|es|] == e;
    assert forall i :: 0 <= i < |es| ==> all[i] == es[i];
    RunKeepsTombstone(db1, es, id, until);
    StepKeepsTombstone(Run(db1, es), e, id, until);
  }

  lemma SettledLeavesTombstone(db: Db, settle: Event, id: Id)
    requires Settles(db, settle, id) && id != 0
    ensures Tombstone(Step(db, settle).0, id, Millis(settle.at.ns) + TOMBSTONE_TTL)
  {
    hide ForScopes, CanSettleAll, LeasesPresent, Sweep;
  }
}
