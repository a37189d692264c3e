/** Reservations of the in-process ledger: how long they live, what a top-up
    adds and what a replayed reserve is answered. */
module MemoryReservations {
  import opened QuotaTypes
  import opened MemoryLedger
  import R = MemoryRuns
  import M = MemorySettlements

  /** Ten minutes unless the caller asks for a positive time. */
  function Lifetime(ttl: int): int { if ttl > 0 then ttl else 600_000_000_000 }

  /** A reserve that makes a reservation holds the normalized estimate on the
      scopes it names, for its lifetime. */
  lemma ReserveMakesReservation(s: Ledger, e: Event)
    requires e.op.Reserve? && M.Admits(s, e, e.op.id)
    ensures var s1, s' := Cleanup(s, e.at.ns, e.visit).reservations, Step(s, e).0.reservations;
      s' == s1[e.op.id := Reservation(NormalizeEstimate(e.op.estimate), ResolveScopes(e.op.scopes, e.at), e.at.ns + Lifetime(e.op.ttl))]
  {
    hide Cleanup, ApplyHolds, CheckScopes, ResolveScopes, NormalizeEstimate;
    M.ApplyHoldsQueue(Cleanup(s, e.at.ns, e.visit), ResolveScopes(e.op.scopes, e.at), NormalizeEstimate(e.op.estimate), e.at.ns, false);
  }

  lemma GrownBy(held: EstimatedUsage, d: EstimatedUsage)
    requires NormalEstimate(held) && NormalEstimate(d)
    ensures var g := Grown(held, d);
      && g.input == Min(MAX_INT64, held.input + d.input)
      && g.output == Min(MAX_INT64, held.output + d.output)
      && g.spend == Min(MAX_INT64, held.spend + d.spend)
  {
  }

  // What a granted top-up writes.
  lemma TopUpWrites(s: Ledger, e: Event)
    requires e.op.TopUp? && e.op.id != 0 && Step(s, e).1 == Ok
    ensures var s1, d := Cleanup(s, e.at.ns, e.visit).reservations, NormalizeEstimate(e.op.delta);
      && e.op.id in s1
      && var res := s1[e.op.id];
         Step(s, e).0.reservations == s1[e.op.id :=
           Reservation(if EstimatedTokens(d) == 0 && d.spend == 0 then res.held else Grown(res.held, d), res.scopes, e.at.ns + Lifetime(e.op.ttl))]
  {
    hide Cleanup, ApplyHolds, CheckScopes, Grown, EstimatedTokens, NormalizeEstimate;
    var s1 := Cleanup(s, e.at.ns, e.visit);
    if e.op.id in s1.reservations {
      M.ApplyHoldsQueue(s1, s1.reservations[e.op.id].scopes, NormalizeEstimate(e.op.delta), e.at.ns, true);
    }
  }

  lemma NothingAsked(d: EstimatedUsage)
    requires NormalEstimate(d) && EstimatedTokens(d) == 0
    ensures d.input == 0 && d.output == 0
  {
  }

  /** A granted top-up of a live reservation adds its normalized delta, field by
      field up to 64 bits, and starts the lifetime anew. */
  lemma TopUpRenewsReservation(s: Ledger, e: Event)
    requires e.op.TopUp? && e.op.id != 0 && Step(s, e).1 == Ok
    ensures var s1, s', d := Cleanup(s, e.at.ns, e.visit).reservations, Step(s, e).0.reservations, NormalizeEstimate(e.op.delta);
      && e.op.id in s1 && s'.Keys == s1.Keys
      && (forall id :: id in s1 && id != e.op.id ==> s'[id] == s1[id])
      && s'[e.op.id].scopes == s1[e.op.id].scopes
      && s'[e.op.id].expires == e.at.ns + Lifetime(e.op.ttl)
      && (NormalEstimate(s1[e.op.id].held) ==>
            && s'[e.op.id].held.input == Min(MAX_INT64, s1[e.op.id].held.input + d.input)
            && s'[e.op.id].held.output == Min(MAX_INT64, s1[e.op.id].held.output + d.output)
            && s'[e.op.id].held.spend == Min(MAX_INT64, s1[e.op.id].held.spend + d.spend))
  {
    hide Cleanup, Step, Grown, EstimatedTokens, Lifetime;
    TopUpWrites(s, e);
    var held, d := Cleanup(s, e.at.ns, e.visit).reservations[e.op.id].held, NormalizeEstimate(e.op.delta);
    if NormalEstimate(held) {
      GrownBy(held, d);
      if EstimatedTokens(d) == 0 {
        NothingAsked(d);
      }
    }
  }

  /** A replayed reserve of a live ID is confirmed exactly if it asks for what is
      held, on scopes with the same references and limits in the same order, and
      changes nothing beyond the cleanup. */
  lemma ReplayAnswered(s: Ledger, e: Event)
    requires e.op.Reserve? && e.op.id != 0
    requires var s1 := Cleanup(s, e.at.ns, e.visit); e.op.id in s1.reservations && e.op.id !in s1.settlements
    ensures Step(s, e).0 == Cleanup(s, e.at.ns, e.visit)
    ensures var res := Cleanup(s, e.at.ns, e.visit).reservations[e.op.id];
      var same := && res.held == NormalizeEstimate(e.op.estimate) && |res.scopes| == |e.op.scopes|
                  && forall i :: 0 <= i < |res.scopes| && i < |e.op.scopes| ==>
                       res.scopes[i].ref == e.op.scopes[i].ref && res.scopes[i].limit == e.op.scopes[i].limits;
      Step(s, e).1 == if same then Ok else Conflict
  {
    hide Cleanup, ApplyHolds, CheckScopes, NormalizeEstimate;
    var res, scopes := Cleanup(s, e.at.ns, e.visit).reservations[e.op.id], ResolveScopes(e.op.scopes, e.at);
    assert |scopes| == |e.op.scopes|;
    assert forall i :: 0 <= i < |scopes| ==> scopes[i].ref == e.op.scopes[i].ref && scopes[i].limit == e.op.scopes[i].limits;
  }

  lemma {:induction false} ExpiryKeepsLive(s: Ledger, visit: seq<Id>, now: int, id: Id)
    requires id in s.reservations && (s.reservations[id].expires == 0 || now < s.reservations[id].expires)
    ensures var s' := ExpireAll(s, visit, now); id in s'.reservations && s'.reservations[id] == s.reservations[id]
    decreases |visit|
  {
    hide EndReservation;
    if visit != [] {
      if visit[0] in s.reservations && Lapsed(s.reservations[visit[0]], now) {
        EndsOne(s, visit[0], now);
      }
      ExpiryKeepsLive(ExpireOne(s, visit[0], now), visit[1..], now, id);
    }
  }

  lemma EndsOne(s: Ledger, id: Id, now: int)
    requires id in s.reservations
    ensures EndReservation(s, id, 0, true, now).reservations == s.reservations - {id}
  {
    hide ReleaseScopes, RecordSettlement;
    var res := s.reservations[id];
    M.ReleaseScopesQueue(s, res.scopes, EstimatedTokens(res.held), res.held.spend, 0, now);
    var released := ReleaseHold(s, res, 0, now);
    KeepsReservations(released.(reservations := released.reservations - {id}), id, now);
  }

  lemma KeepsReservations(s: Ledger, id: Id, now: int)
    ensures RecordSettlement(s, id, true, now).reservations == s.reservations
  {
    hide CleanupSettlements, TrimSettlements;
    R.RecordSettlementKeeps(s, id, true, now);
  }

  lemma {:induction false} ExpiryEndsLapsed(s: Ledger, visit: seq<Id>, now: int, id: Id)
    requires id in visit && (id in s.reservations ==> Lapsed(s.reservations[id], now))
    ensures id !in ExpireAll(s, visit, now).reservations
    decreases |visit|
  {
    hide EndReservation;
    var s1 := ExpireOne(s, visit[0], now);
    if visit[0] in s.reservations && Lapsed(s.reservations[visit[0]], now) {
      EndsOne(s, visit[0], now);
    }
    if visit[0] == id {
      StaysEnded(s1, visit[1..], now, id);
    } else {
      ExpiryEndsLapsed(s1, visit[1..], now, id);
    }
  }

  lemma {:induction false} StaysEnded(s: Ledger, visit: seq<Id>, now: int, id: Id)
    requires id !in s.reservations
    ensures id !in ExpireAll(s, visit, now).reservations
    decreases |visit|
  {
    hide EndReservation;
    if visit != [] {
      if visit[0] in s.reservations && Lapsed(s.reservations[visit[0]], now) {
        EndsOne(s, visit[0], now);
      }
      StaysEnded(ExpireOne(s, visit[0], now), visit[1..], now, id);
    }
  }

  /** A reservation lives exactly until its expiry: cleanup leaves it alone
      before, and a cleanup that visits it ends it from then on. */
  lemma LivesUntilExpiry(s: Ledger, now: int, visit: seq<Id>, id: Id)
    requires id in s.reservations && id in visit && s.reservations[id].expires != 0
    ensures var s' := Cleanup(s, now, visit).reservations;
      && (id in s' <==> now < s.reservations[id].expires)
      && (id in s' ==> s'[id] == s.reservations[id])
  {
    hide ExpireAll, CleanupSettlements;
    if now < s.reservations[id].expires {
      ExpiryKeepsLive(s, visit, now, id);
    } else {
      ExpiryEndsLapsed(s, visit, now, id);
    }
    R.CleanupSettlementsKeeps(ExpireAll(s, visit, now), now);
  }
}
