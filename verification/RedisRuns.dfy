/** The Redis quota ledger over whole runs: tickets agree with their leases,
    held counters cover live leases, counters stay in range, and a refused call
    only takes back what had expired. */
module RedisRuns {
  import opened QuotaTypes
  import opened RedisLedger
  import opened RedisInvariant
  import opened RedisHolds

  // --- Scripts act on their scopes independently ---------------------------

  lemma PutSecAt(db: Db, at: ScopeRef, sec: Section, ref: ScopeRef)
    ensures Sec(PutSec(db, at, sec), ref) == (if ref == at then sec else Sec(db, ref))
  {
  }

  lemma {:induction false} ForScopesRest(db: Db, scopes: seq<Scope>, a: Action)
    ensures var db' := ForScopes(db, scopes, a);
      db'.tickets == db.tickets && db'.settled == db.settled && db'.settledExpireAt == db.settledExpireAt
    decreases |scopes|
  {
    if scopes != [] {
      ForScopesRest(PutSec(db, scopes[0].ref, Act(a, scopes[0], Sec(db, scopes[0].ref))), scopes[1..], a);
    }
  }

  predicate Touches(scopes: seq<Scope>, ref: ScopeRef) {
    exists i :: 0 <= i < |scopes| && scopes[i].ref == ref
  }

  lemma {:induction false} ForScopesMiss(db: Db, scopes: seq<Scope>, a: Action, ref: ScopeRef)
    requires !Touches(scopes, ref)
    ensures Sec(ForScopes(db, scopes, a), ref) == Sec(db, ref)
    decreases |scopes|
  {
    if scopes != [] {
      hide Act;
      assert scopes[0].ref != ref;
      PutSecAt(db, scopes[0].ref, Act(a, scopes[0], Sec(db, scopes[0].ref)), ref);
      assert !Touches(scopes[1..], ref) by {
        forall i | 0 <= i < |scopes[1..]| ensures scopes[1..][i].ref != ref {
          assert scopes[1..][i] == scopes[i + 1];
        }
      }
      ForScopesMiss(PutSec(db, scopes[0].ref, Act(a, scopes[0], Sec(db, scopes[0].ref))), scopes[1..], a, ref);
    }
  }

  lemma {:induction false} ForScopesHit(db: Db, scopes: seq<Scope>, a: Action, i: nat)
    requires i < |scopes| && DistinctRefs(scopes)
    ensures Sec(ForScopes(db, scopes, a), scopes[i].ref) == Act(a, scopes[i], Sec(db, scopes[i].ref))
    decreases |scopes|
  {
    hide Act;
    var first := Act(a, scopes[0], Sec(db, scopes[0].ref));
    var db1 := PutSec(db, scopes[0].ref, first);
    var rest := scopes[1..];
    PutSecAt(db, scopes[0].ref, first, scopes[i].ref);
    if i == 0 {
      assert !Touches(rest, scopes[0].ref) by {
        forall j | 0 <= j < |rest| ensures rest[j].ref != scopes[0].ref {
          assert rest[j] == scopes[j + 1];
        }
      }
      ForScopesMiss(db1, rest, a, scopes[0].ref);
    } else {
      assert rest[i - 1] == scopes[i];
      ForScopesHit(db1, rest, a, i - 1);
    }
  }

  lemma {:induction false} CheckedReserve(db: Db, scopes: seq<Scope>, tokens: int, spend: int, i: nat)
    requires i < |scopes| && CheckReserveAll(db, scopes, tokens, spend) == Pass
    ensures CheckReserve(Sec(db, scopes[i].ref).counters, scopes[i], tokens, spend) == Pass
    decreases |scopes|
  {
    hide CheckReserve;
    if i > 0 {
      assert scopes[1..][i - 1] == scopes[i];
      CheckedReserve(db, scopes[1..], tokens, spend, i - 1);
    }
  }

  lemma {:induction false} CheckedTopUp(db: Db, scopes: seq<Scope>, id: Id, tokens: int, spend: int, i: nat)
    requires i < |scopes| && CheckTopUpAll(db, scopes, id, tokens, spend) == Pass
    ensures CheckTopUp(Sec(db, scopes[i].ref), scopes[i], id, tokens, spend) == Pass
    decreases |scopes|
  {
    hide CheckTopUp;
    if i > 0 {
      assert scopes[1..][i - 1] == scopes[i];
      CheckedTopUp(db, scopes[1..], id, tokens, spend, i - 1);
    }
  }

  // --- The database invariant ----------------------------------------------

  predicate GoodScopes(scopes: seq<Scope>) {
    DistinctRefs(scopes) && forall i :: 0 <= i < |scopes| ==> GoodKeys(scopes[i].keys)
  }

  predicate GoodTicket(t: Ticket) {
    GoodScopes(t.scopes) && Amounts(HeldTokens(t), t.held.spend)
  }

  // A live lease belongs to a live ticket of the same expiry.
  predicate LeaseHasTicket(db: Db, ref: ScopeRef, id: Id, now: int) {
    var sec := Sec(db, ref);
    id in Fields(sec) && id in Scores(sec) && now <= Scores(sec)[id] ==>
      id in db.tickets && Touches(db.tickets[id].scopes, ref) && db.tickets[id].expireAt == Scores(sec)[id]
  }

  /** Where the lease of a ticket exists, it records exactly what the ticket holds. */
  predicate TicketMatchesLease(db: Db, id: Id, i: nat)
    requires id in db.tickets && i < |db.tickets[id].scopes|
  {
    var t := db.tickets[id];
    var sec := Sec(db, t.scopes[i].ref);
    id in Fields(sec) ==>
      && Fields(sec)[id] == LeaseFor(t.scopes[i].keys, HeldTokens(t), t.held.spend)
      && id in Scores(sec) && Scores(sec)[id] == t.expireAt
  }

  ghost predicate SectionsInv(db: Db, now: int) { forall ref :: SectionInv(Sec(db, ref), now) }

  ghost predicate TicketsInv(db: Db, now: int) {
    && (forall id :: id in db.tickets ==> GoodTicket(db.tickets[id]))
    && (forall ref, id :: LeaseHasTicket(db, ref, id, now))
    && (forall id, i :: id in db.tickets && 0 <= i < |db.tickets[id].scopes| ==> TicketMatchesLease(db, id, i))
  }

  ghost predicate DbInv(db: Db, now: int) { SectionsInv(db, now) && TicketsInv(db, now) }

  ghost predicate FreshTickets(db: Db, now: int) {
    forall id :: id in db.tickets ==> now <= db.tickets[id].expireAt
  }

  lemma EmptyInv(now: int)
    ensures DbInv(EMPTY_DB, now)
  {
    forall ref ensures SectionInv(Sec(EMPTY_DB, ref), now) {
      EmptySectionInv(now);
    }
  }

  lemma EmptySectionInv(now: int)
    ensures SectionInv(EMPTY_SECTION, now)
  {
  }

  lemma SweepAt(db: Db, now: int, ref: ScopeRef)
    ensures Sec(Sweep(db, now), ref) == SweepSection(Sec(db, ref), now)
  {
    assert SweepSection(EMPTY_SECTION, now) == EMPTY_SECTION;
  }

  // Only the expiry of whole containers removes leases while time passes.
  lemma SweepLeases(sec: Section, now: int, id: Id)
    requires id in Fields(SweepSection(sec, now)) && Synced(sec)
    ensures Fields(SweepSection(sec, now)) == Fields(sec) && Scores(SweepSection(sec, now)) == Scores(sec)
  {
  }

  lemma SweepDbInv(db: Db, before: int, now: int)
    requires DbInv(db, before) && before <= now
    ensures DbInv(Sweep(db, now), now) && FreshTickets(Sweep(db, now), now)
  {
    hide SectionInv;
    var db' := Sweep(db, now);
    forall ref ensures Sec(db', ref) == SweepSection(Sec(db, ref), now) {
      SweepAt(db, now, ref);
    }
    forall ref ensures SectionInv(Sec(db', ref), now) && Synced(Sec(db, ref)) {
      InvSynced(Sec(db, ref), before);
      SweepKeepsInv(Sec(db, ref), before, now);
    }
    hide SweepSection;
    forall ref, id ensures LeaseHasTicket(db', ref, id, now) {
      if id in Fields(Sec(db', ref)) {
        SweepLeases(Sec(db, ref), now, id);
        assert LeaseHasTicket(db, ref, id, before);
      }
    }
    forall id, i | id in db'.tickets && 0 <= i < |db'.tickets[id].scopes| ensures TicketMatchesLease(db', id, i) {
      var ref := db.tickets[id].scopes[i].ref;
      assert TicketMatchesLease(db, id, i);
      if id in Fields(Sec(db', ref)) {
        SweepLeases(Sec(db, ref), now, id);
      }
    }
  }

  lemma InvSynced(sec: Section, now: int)
    requires SectionInv(sec, now)
    ensures Synced(sec) && Fields(sec).Keys == Scores(sec).Keys && GoodCounters(sec.counters)
  {
  }

  // --- Pruning --------------------------------------------------------------

  predicate Restricts(sec: Section, sec': Section) {
    forall id :: id in Fields(sec') ==>
      && id in Fields(sec) && Fields(sec')[id] == Fields(sec)[id]
      && (id in Scores(sec) ==> id in Scores(sec') && Scores(sec')[id] == Scores(sec)[id])
  }

  lemma PruneRestricts(sec: Section, now: int, protected: Option<Id>)
    requires SectionInv(sec, now)
    ensures SectionInv(PruneSection(sec, now, protected), now)
    ensures Restricts(sec, PruneSection(sec, now, protected))
  {
    PruneKeepsInv(sec, now, protected);
  }

  lemma PruneSecAt(db: Db, scopes: seq<Scope>, now: int, protected: Option<Id>, ref: ScopeRef)
    requires SectionInv(Sec(db, ref), now) && DistinctRefs(scopes)
    ensures var sec' := Sec(ForScopes(db, scopes, Prune(now, protected)), ref);
      SectionInv(sec', now) && Restricts(Sec(db, ref), sec')
  {
    hide PruneSection;
    hide SectionInv;
    if Touches(scopes, ref) {
      var i :| 0 <= i < |scopes| && scopes[i].ref == ref;
      ForScopesHit(db, scopes, Prune(now, protected), i);
      PruneRestricts(Sec(db, ref), now, protected);
    } else {
      ForScopesMiss(db, scopes, Prune(now, protected), ref);
    }
  }

  lemma RestrictTickets(db: Db, db': Db, now: int)
    requires TicketsInv(db, now) && SectionsInv(db, now)
    requires db'.tickets == db.tickets
    requires forall ref :: Restricts(Sec(db, ref), Sec(db', ref))
    ensures TicketsInv(db', now)
  {
    hide SectionInv;
    forall ref ensures Fields(Sec(db, ref)).Keys == Scores(Sec(db, ref)).Keys {
      assert SectionInv(Sec(db, ref), now);
      InvSynced(Sec(db, ref), now);
    }
    forall ref, id ensures LeaseHasTicket(db', ref, id, now) {
      assert Restricts(Sec(db, ref), Sec(db', ref));
      assert LeaseHasTicket(db, ref, id, now);
    }
    forall id, i | id in db'.tickets && 0 <= i < |db'.tickets[id].scopes| ensures TicketMatchesLease(db', id, i) {
      var ref := db.tickets[id].scopes[i].ref;
      assert Restricts(Sec(db, ref), Sec(db', ref));
      assert TicketMatchesLease(db, id, i);
    }
  }

  lemma PruneDbInv(db: Db, scopes: seq<Scope>, now: int, protected: Option<Id>)
    requires DbInv(db, now) && DistinctRefs(scopes)
    ensures DbInv(ForScopes(db, scopes, Prune(now, protected)), now)
  {
    hide SectionInv;
    hide Restricts;
    var db' := ForScopes(db, scopes, Prune(now, protected));
    ForScopesRest(db, scopes, Prune(now, protected));
    forall ref ensures SectionInv(Sec(db', ref), now) && Restricts(Sec(db, ref), Sec(db', ref)) {
      PruneSecAt(db, scopes, now, protected, ref);
    }
    hide ForScopes;
    RestrictTickets(db, db', now);
  }

  // After pruning, every lease left in a scope of the script is live; the
  // protected one because its ticket is.
  lemma PrunedIsLive(db: Db, scopes: seq<Scope>, now: int, protected: Option<Id>, i: nat)
    requires DbInv(db, now) && FreshTickets(db, now) && DistinctRefs(scopes) && i < |scopes|
    requires protected.Some? ==> protected.value in db.tickets && db.tickets[protected.value].scopes == scopes
    ensures AllLive(Sec(ForScopes(db, scopes, Prune(now, protected)), scopes[i].ref), now)
  {
    hide SectionInv;
    var sec := Sec(db, scopes[i].ref);
    assert SectionInv(sec, now);
    InvSynced(sec, now);
    PruneKeepsInv(sec, now, protected);
    ForScopesHit(db, scopes, Prune(now, protected), i);
    hide PruneSection;
    if protected.Some? {
      assert TicketMatchesLease(db, protected.value, i);
    }
  }

  // --- Reserve ---------------------------------------------------------------

  lemma PruneSettledInv(db: Db, now: int)
    requires DbInv(db, now)
    ensures DbInv(PruneSettled(db, now), now)
    ensures forall ref :: Sec(PruneSettled(db, now), ref) == Sec(db, ref)
  {
    hide SectionInv;
    var db' := PruneSettled(db, now);
    forall ref ensures SectionInv(Sec(db', ref), now) {
      assert SectionInv(Sec(db, ref), now);
    }
    forall ref, id ensures LeaseHasTicket(db', ref, id, now) {
      assert LeaseHasTicket(db, ref, id, now);
    }
    forall id, i | id in db'.tickets && 0 <= i < |db'.tickets[id].scopes| ensures TicketMatchesLease(db', id, i) {
      assert TicketMatchesLease(db, id, i);
    }
  }

  lemma ReservePrunedInv(db: Db, scopes: seq<Scope>, before: int, now: int)
    requires DbInv(db, before) && before <= now && DistinctRefs(scopes)
    ensures var db1 := ReservePruned(db, scopes, now);
      && DbInv(db1, now) && FreshTickets(db1, now)
      && db1.tickets == Sweep(db, now).tickets
      && forall i :: 0 <= i < |scopes| ==> AllLive(Sec(db1, scopes[i].ref), now)
  {
    hide DbInv;
    hide AllLive;
    var db0 := Sweep(db, now);
    SweepDbInv(db, before, now);
    hide Sweep;
    var pruned := ForScopes(db0, scopes, Prune(now, None));
    ForScopesRest(db0, scopes, Prune(now, None));
    PruneDbInv(db0, scopes, now, None);
    PruneSettledInv(pruned, now);
    forall i | 0 <= i < |scopes| ensures AllLive(Sec(pruned, scopes[i].ref), now) {
      PrunedIsLive(db0, scopes, now, None, i);
    }
  }

  // One request's lease was added or replaced in the scopes of its ticket; other
  // leases and other tickets stayed.
  ghost predicate LeaseWritten(db: Db, db': Db, id: Id, t: Ticket) {
    && db'.tickets == db.tickets[id := t]
    && (forall ref :: !Touches(t.scopes, ref) ==> Sec(db', ref) == Sec(db, ref))
    && (forall i :: 0 <= i < |t.scopes| ==> LeaseWrittenAt(Sec(db, t.scopes[i].ref), Sec(db', t.scopes[i].ref), id, t, i))
  }

  predicate LeaseWrittenAt(sec: Section, sec': Section, id: Id, t: Ticket, i: nat)
    requires i < |t.scopes|
  {
    && Fields(sec') == Fields(sec)[id := LeaseFor(t.scopes[i].keys, HeldTokens(t), t.held.spend)]
    && Scores(sec') == Scores(sec)[id := t.expireAt]
  }

  lemma WrittenTickets(db: Db, db': Db, id: Id, t: Ticket, now: int)
    requires TicketsInv(db, now) && LeaseWritten(db, db', id, t) && GoodTicket(t)
    requires id in db.tickets ==> db.tickets[id].scopes == t.scopes
    ensures TicketsInv(db', now)
  {
    forall ref, x ensures LeaseHasTicket(db', ref, x, now) {
      assert LeaseHasTicket(db, ref, x, now);
      if Touches(t.scopes, ref) {
        var i :| 0 <= i < |t.scopes| && t.scopes[i].ref == ref;
        assert LeaseWrittenAt(Sec(db, ref), Sec(db', ref), id, t, i);
      }
    }
    forall x, i | x in db'.tickets && 0 <= i < |db'.tickets[x].scopes| ensures TicketMatchesLease(db', x, i) {
      var ref := db'.tickets[x].scopes[i].ref;
      if Touches(t.scopes, ref) {
        var j :| 0 <= j < |t.scopes| && t.scopes[j].ref == ref;
        assert LeaseWrittenAt(Sec(db, ref), Sec(db', ref), id, t, j);
        if x == id {
          assert i == j;
        }
      }
      if x != id {
        assert TicketMatchesLease(db, x, i);
      }
    }
  }

  lemma WrittenDbInv(db: Db, db': Db, id: Id, t: Ticket, now: int)
    requires DbInv(db, now) && LeaseWritten(db, db', id, t) && GoodTicket(t)
    requires id in db.tickets ==> db.tickets[id].scopes == t.scopes
    requires forall i :: 0 <= i < |t.scopes| ==> SectionInv(Sec(db', t.scopes[i].ref), now)
    ensures DbInv(db', now)
  {
    hide SectionInv, LeaseWrittenAt, GoodTicket, TicketsInv;
    WrittenTickets(db, db', id, t, now);
    forall ref
      ensures SectionInv(Sec(db', ref), now)
    {
      if Touches(t.scopes, ref) {
        var i :| 0 <= i < |t.scopes| && t.scopes[i].ref == ref;
      }
    }
  }

  lemma SameSections(db: Db, tickets: map<Id, Ticket>, ref: ScopeRef)
    ensures Sec(db.(tickets := tickets), ref) == Sec(db, ref)
  {
  }

  // The sections a written lease leaves behind, whatever action wrote it.
  lemma WroteLease(db: Db, scopes: seq<Scope>, a: Action, id: Id, t: Ticket)
    requires t.scopes == scopes
    requires var held := ForScopes(db, scopes, a);
      forall i :: 0 <= i < |scopes| ==> LeaseWrittenAt(Sec(db, scopes[i].ref), Sec(held, scopes[i].ref), id, t, i)
    ensures var held := ForScopes(db, scopes, a);
      LeaseWritten(db, held.(tickets := held.tickets[id := t]), id, t)
  {
    hide LeaseWrittenAt, ForScopes, Sec;
    var held := ForScopes(db, scopes, a);
    var tickets := held.tickets[id := t];
    ForScopesRest(db, scopes, a);
    forall ref
      ensures Sec(held.(tickets := tickets), ref) == Sec(held, ref)
      ensures !Touches(scopes, ref) ==> Sec(held, ref) == Sec(db, ref)
    {
      SameSections(held, tickets, ref);
      if !Touches(scopes, ref) {
        ForScopesMiss(db, scopes, a, ref);
      }
    }
  }

  lemma HoldDbInv(db: Db, scopes: seq<Scope>, id: Id, estimate: EstimatedUsage, fingerprint: Fingerprint,
                  now: int, ttl: int, minuteTtl: int)
    requires DbInv(db, now) && id !in db.tickets && GoodScopes(scopes) && minuteTtl >= 0
    requires NormalEstimate(estimate) && Amounts(EstimatedTokens(estimate), estimate.spend)
    requires forall i :: 0 <= i < |scopes| ==> AllLive(Sec(db, scopes[i].ref), now)
    requires CheckReserveAll(db, scopes, EstimatedTokens(estimate), estimate.spend) == Pass
    ensures var held := ForScopes(db, scopes, Hold(id, EstimatedTokens(estimate), estimate.spend, now, ttl, minuteTtl));
      DbInv(held.(tickets := held.tickets[id := Ticket(estimate, scopes, fingerprint, now + ttl)]), now)
  {
    hide SectionInv, AllLive, CheckReserveAll, ForScopes, Sec, DbInv, LeaseWritten;
    var tokens, spend := EstimatedTokens(estimate), estimate.spend;
    var a := Hold(id, tokens, spend, now, ttl, minuteTtl);
    var t := Ticket(estimate, scopes, fingerprint, now + ttl);
    var held := ForScopes(db, scopes, a);
    assert HeldTokens(t) == tokens;
    forall i | 0 <= i < |scopes|
      ensures SectionInv(Sec(held.(tickets := held.tickets[id := t]), scopes[i].ref), now)
      ensures LeaseWrittenAt(Sec(db, scopes[i].ref), Sec(held, scopes[i].ref), id, t, i)
    {
      HoldSectionAt(db, scopes, id, tokens, spend, now, ttl, minuteTtl, i);
      SameSections(held, held.tickets[id := t], scopes[i].ref);
    }
    WroteLease(db, scopes, a, id, t);
    WrittenDbInv(db, held.(tickets := held.tickets[id := t]), id, t, now);
  }

  lemma HoldSectionAt(db: Db, scopes: seq<Scope>, id: Id, tokens: int, spend: int,
                      now: int, ttl: int, minuteTtl: int, i: nat)
    requires DbInv(db, now) && id !in db.tickets && GoodScopes(scopes) && minuteTtl >= 0
    requires Amounts(tokens, spend) && i < |scopes|
    requires AllLive(Sec(db, scopes[i].ref), now)
    requires CheckReserveAll(db, scopes, tokens, spend) == Pass
    ensures var sec, sec' := Sec(db, scopes[i].ref),
                             Sec(ForScopes(db, scopes, Hold(id, tokens, spend, now, ttl, minuteTtl)), scopes[i].ref);
      && SectionInv(sec', now)
      && Fields(sec') == Fields(sec)[id := LeaseFor(scopes[i].keys, tokens, spend)]
      && Scores(sec') == Scores(sec)[id := now + ttl]
  {
    hide SectionInv;
    hide HoldScope;
    var sec := Sec(db, scopes[i].ref);
    assert SectionInv(sec, now);
    InvSynced(sec, now);
    assert LeaseHasTicket(db, scopes[i].ref, id, now);
    CheckedReserve(db, scopes, tokens, spend, i);
    ForScopesHit(db, scopes, Hold(id, tokens, spend, now, ttl, minuteTtl), i);
    HoldScopeKeepsInv(sec, scopes[i], id, tokens, spend, now, ttl, minuteTtl);
  }

  lemma ReserveKeepsInv(db: Db, before: int, scopes: seq<Scope>, estimate: EstimatedUsage, id: Id,
                        fingerprint: Fingerprint, now: int, ttl: int, minuteTtl: int)
    requires DbInv(db, before) && before <= now && GoodScopes(scopes) && minuteTtl >= 0
    requires NormalEstimate(estimate) && Amounts(EstimatedTokens(estimate), estimate.spend)
    ensures DbInv(ReserveScript(db, scopes, estimate, id, fingerprint, now, ttl, minuteTtl).0, now)
  {
    hide DbInv;
    var db1 := ReservePruned(db, scopes, now);
    ReservePrunedInv(db, scopes, before, now);
    hide ReservePruned;
    if id !in db1.settled && id !in db1.tickets
       && CheckReserveAll(db1, scopes, EstimatedTokens(estimate), estimate.spend) == Pass {
      HoldDbInv(db1, scopes, id, estimate, fingerprint, now, ttl, minuteTtl);
    }
  }

  // --- Top up -------------------------------------------------------------------

  lemma TopUpSectionAt(db: Db, id: Id, tokens: int, spend: int, now: int, ttl: int, i: nat)
    requires DbInv(db, now) && id in db.tickets && i < |db.tickets[id].scopes| && Amounts(tokens, spend)
    requires var t := db.tickets[id];
      && AllLive(Sec(db, t.scopes[i].ref), now)
      && Amounts(HeldTokens(t) + tokens, t.held.spend + spend)
      && CheckTopUpAll(db, t.scopes, id, tokens, spend) == Pass
    ensures var t := db.tickets[id];
      var sec := Sec(db, t.scopes[i].ref);
      var sec' := Sec(ForScopes(db, t.scopes, TopUp(id, tokens, spend, now, ttl)), t.scopes[i].ref);
      && SectionInv(sec', now)
      && Fields(sec') == Fields(sec)[id := LeaseFor(t.scopes[i].keys, HeldTokens(t) + tokens, t.held.spend + spend)]
      && Scores(sec') == Scores(sec)[id := now + ttl]
  {
    hide SectionInv;
    hide TopUpScope;
    hide AllLive;
    hide ToppedCounters;
    var t := db.tickets[id];
    var scope := t.scopes[i];
    var sec := Sec(db, scope.ref);
    assert SectionInv(sec, now);
    InvSynced(sec, now);
    assert TicketMatchesLease(db, id, i);
    CheckedTopUp(db, t.scopes, id, tokens, spend, i);
    assert id in Fields(sec);
    ToppedCountersGood(sec, scope, id, tokens, spend, now, ttl);
    ForScopesHit(db, t.scopes, TopUp(id, tokens, spend, now, ttl), i);
    TopUpScopeKeepsInv(sec, scope, id, HeldTokens(t), t.held.spend, tokens, spend, now, ttl);
  }

  lemma TopUpDbInv(db: Db, id: Id, t': Ticket, tokens: int, spend: int, now: int, ttl: int)
    requires DbInv(db, now) && id in db.tickets && Amounts(tokens, spend)
    requires var t := db.tickets[id];
      && (forall i :: 0 <= i < |t.scopes| ==> AllLive(Sec(db, t.scopes[i].ref), now))
      && Amounts(HeldTokens(t) + tokens, t.held.spend + spend)
      && CheckTopUpAll(db, t.scopes, id, tokens, spend) == Pass
      && t'.scopes == t.scopes && t'.expireAt == now + ttl
      && HeldTokens(t') == HeldTokens(t) + tokens && t'.held.spend == t.held.spend + spend
    ensures var topped := ForScopes(db, db.tickets[id].scopes, TopUp(id, tokens, spend, now, ttl));
      DbInv(topped.(tickets := topped.tickets[id := t']), now)
  {
    hide SectionInv, AllLive, CheckTopUpAll, ForScopes, Sec, LeaseWritten;
    var t := db.tickets[id];
    var a := TopUp(id, tokens, spend, now, ttl);
    var topped := ForScopes(db, t.scopes, a);
    forall i | 0 <= i < |t.scopes|
      ensures SectionInv(Sec(topped.(tickets := topped.tickets[id := t']), t.scopes[i].ref), now)
      ensures LeaseWrittenAt(Sec(db, t.scopes[i].ref), Sec(topped, t.scopes[i].ref), id, t', i)
    {
      TopUpSectionAt(db, id, tokens, spend, now, ttl, i);
      SameSections(topped, topped.tickets[id := t'], t.scopes[i].ref);
    }
    assert GoodTicket(t');
    WroteLease(db, t.scopes, a, id, t');
    WrittenDbInv(db, topped.(tickets := topped.tickets[id := t']), id, t', now);
  }

  // What a top-up finds after pruning around its own lease.
  lemma PrunedForTopUp(db: Db, id: Id, now: int)
    requires DbInv(db, now) && FreshTickets(db, now) && id in db.tickets
    ensures var t := db.tickets[id];
      var db1 := ForScopes(db, t.scopes, Prune(now, Some(id)));
      && DbInv(db1, now) && db1.tickets == db.tickets
      && forall i :: 0 <= i < |t.scopes| ==> AllLive(Sec(db1, t.scopes[i].ref), now)
  {
    hide AllLive, ForScopes, SectionsInv, Sec, FreshTickets;
    var t := db.tickets[id];
    assert GoodTicket(t);
    ForScopesRest(db, t.scopes, Prune(now, Some(id)));
    PruneDbInv(db, t.scopes, now, Some(id));
    forall i | 0 <= i < |t.scopes|
      ensures AllLive(Sec(ForScopes(db, t.scopes, Prune(now, Some(id))), t.scopes[i].ref), now)
    {
      PrunedIsLive(db, t.scopes, now, Some(id), i);
    }
  }

  lemma TopUpKeepsInv(db: Db, before: int, id: Id, tokens: int, spend: int, now: int, ttl: int)
    requires DbInv(db, before) && before <= now && Amounts(tokens, spend)
    ensures DbInv(TopUpScript(db, id, tokens, spend, now, ttl).0, now)
  {
    hide AllLive, CheckTopUpAll, DbInv, ForScopes, Sweep, Sec, FreshTickets;
    var db0 := Sweep(db, now);
    SweepDbInv(db, before, now);
    if id in db0.tickets {
      PrunedForTopUp(db0, id, now);
      var t := db0.tickets[id];
      var db1 := ForScopes(db0, t.scopes, Prune(now, Some(id)));
      if Amounts(HeldTokens(t) + tokens, t.held.spend + spend)
         && CheckTopUpAll(db1, t.scopes, id, tokens, spend) == Pass {
        var held := EstimatedUsage(HeldTokens(t) + tokens, 0, t.held.spend + spend);
        TopUpDbInv(db1, id, t.(held := held, expireAt := now + ttl), tokens, spend, now, ttl);
      }
    }
  }

  // --- Settle ---------------------------------------------------------------------

  lemma SettleSectionAt(db: Db, id: Id, commit: bool, tokens: int, spend: int, now: int, i: nat)
    requires DbInv(db, now) && id in db.tickets && i < |db.tickets[id].scopes| && Amounts(tokens, spend)
    requires var t := db.tickets[id];
      LeasesPresent(db, t.scopes, id) && CanSettleAll(db, t.scopes, HeldTokens(t), commit, tokens, spend)
    ensures var t := db.tickets[id];
      var sec := Sec(db, t.scopes[i].ref);
      var sec' := Sec(ForScopes(db, t.scopes, Settle(id, HeldTokens(t), t.held.spend, commit, tokens, spend, now)),
                      t.scopes[i].ref);
      && SectionInv(sec', now)
      && Fields(sec') == Fields(sec) - {id}
      && Scores(sec') == Scores(sec) - {id}
  {
    hide SectionInv;
    hide SettleScope;
    var t := db.tickets[id];
    var scope := t.scopes[i];
    var sec := Sec(db, scope.ref);
    assert SectionInv(sec, now);
    assert TicketMatchesLease(db, id, i);
    ForScopesHit(db, t.scopes, Settle(id, HeldTokens(t), t.held.spend, commit, tokens, spend, now), i);
    SettleScopeKeepsInv(sec, scope, id, HeldTokens(t), t.held.spend, commit, tokens, spend, now, BUCKET_GRACE);
  }

  // The ticket of one request is gone together with all its leases.
  lemma RemovedTickets(db: Db, db': Db, id: Id, now: int)
    requires DbInv(db, now) && id in db.tickets && db'.tickets == db.tickets - {id}
    requires forall ref :: !Touches(db.tickets[id].scopes, ref) ==> Sec(db', ref) == Sec(db, ref)
    requires forall i :: 0 <= i < |db.tickets[id].scopes| ==>
      var ref := db.tickets[id].scopes[i].ref;
      Fields(Sec(db', ref)) == Fields(Sec(db, ref)) - {id} && Scores(Sec(db', ref)) == Scores(Sec(db, ref)) - {id}
    ensures TicketsInv(db', now)
  {
    hide SectionInv;
    var t := db.tickets[id];
    forall ref ensures
        || Sec(db', ref) == Sec(db, ref)
        || (Fields(Sec(db', ref)) == Fields(Sec(db, ref)) - {id} && Scores(Sec(db', ref)) == Scores(Sec(db, ref)) - {id})
    {
      if Touches(t.scopes, ref) {
        var i :| 0 <= i < |t.scopes| && t.scopes[i].ref == ref;
      }
    }
    forall ref, x ensures LeaseHasTicket(db', ref, x, now) {
      assert LeaseHasTicket(db, ref, x, now);
    }
    forall x, i | x in db'.tickets && 0 <= i < |db'.tickets[x].scopes| ensures TicketMatchesLease(db', x, i) {
      assert TicketMatchesLease(db, x, i);
    }
  }

  lemma SettleDbInv(db: Db, db': Db, id: Id, commit: bool, tokens: int, spend: int, now: int)
    requires DbInv(db, now) && id in db.tickets && Amounts(tokens, spend)
    requires var t := db.tickets[id];
      && LeasesPresent(db, t.scopes, id) && CanSettleAll(db, t.scopes, HeldTokens(t), commit, tokens, spend)
      && db'.sections == ForScopes(db, t.scopes, Settle(id, HeldTokens(t), t.held.spend, commit, tokens, spend, now)).sections
      && db'.tickets == db.tickets - {id}
    ensures DbInv(db', now)
  {
    hide SectionInv;
    var t := db.tickets[id];
    var a := Settle(id, HeldTokens(t), t.held.spend, commit, tokens, spend, now);
    forall i | 0 <= i < |t.scopes|
      ensures SectionInv(Sec(db', t.scopes[i].ref), now)
      ensures Fields(Sec(db', t.scopes[i].ref)) == Fields(Sec(db, t.scopes[i].ref)) - {id}
      ensures Scores(Sec(db', t.scopes[i].ref)) == Scores(Sec(db, t.scopes[i].ref)) - {id}
    {
      SettleSectionAt(db, id, commit, tokens, spend, now, i);
    }
    forall ref | !Touches(t.scopes, ref) ensures Sec(db', ref) == Sec(db, ref) {
      ForScopesMiss(db, t.scopes, a, ref);
    }
    hide ForScopes;
    RemovedTickets(db, db', id, now);
    forall ref ensures SectionInv(Sec(db', ref), now) {
      if Touches(t.scopes, ref) {
        var i :| 0 <= i < |t.scopes| && t.scopes[i].ref == ref;
      }
    }
  }

  // Pruning others leaves the protected request's leases in place.
  lemma ProtectedStays(db: Db, scopes: seq<Scope>, id: Id, now: int)
    requires DbInv(db, now) && DistinctRefs(scopes) && LeasesPresent(db, scopes, id)
    ensures LeasesPresent(ForScopes(db, scopes, Prune(now, Some(id))), scopes, id)
  {
    hide SectionInv;
    forall i | 0 <= i < |scopes|
      ensures id in Fields(Sec(ForScopes(db, scopes, Prune(now, Some(id))), scopes[i].ref))
    {
      var sec := Sec(db, scopes[i].ref);
      assert SectionInv(sec, now);
      PruneKeepsInv(sec, now, Some(id));
      ForScopesHit(db, scopes, Prune(now, Some(id)), i);
    }
  }

  lemma SettleKeepsInv(db: Db, before: int, id: Id, commit: bool, tokens: int, spend: int, now: int)
    requires DbInv(db, before) && before <= now && Amounts(tokens, spend)
    ensures DbInv(SettleScript(db, id, commit, tokens, spend, now).0, now)
  {
    SweepDbInv(db, before, now);
    PruneSettledInv(Sweep(db, now), now);
    var db0 := PruneSettled(Sweep(db, now), now);
    hide Sweep;
    hide PruneSettled;
    hide SectionsInv;
    if id in db0.tickets && LeasesPresent(db0, db0.tickets[id].scopes, id) {
      var t := db0.tickets[id];
      var db1 := ForScopes(db0, t.scopes, Prune(now, Some(id)));
      ForScopesRest(db0, t.scopes, Prune(now, Some(id)));
      PruneDbInv(db0, t.scopes, now, Some(id));
      ProtectedStays(db0, t.scopes, id, now);
      hide TicketsInv;
      hide LeasesPresent;
      hide CanSettleAll;
      var a := Settle(id, HeldTokens(t), t.held.spend, commit, tokens, spend, now);
      ForScopesRest(db1, t.scopes, a);
      hide ForScopes;
      if CanSettleAll(db1, t.scopes, HeldTokens(t), commit, tokens, spend) {
        var db' := SettleScript(db, id, commit, tokens, spend, now).0;
        SettleDbInv(db1, db', id, commit, tokens, spend, now);
      }
    }
  }

  lemma PruneScriptKeepsInv(db: Db, before: int, ref: ScopeRef, now: int)
    requires DbInv(db, before) && before <= now
    ensures DbInv(PruneScript(db, ref, now).0, now)
  {
    var db0 := Sweep(db, now);
    SweepDbInv(db, before, now);
    hide Sweep;
    hide SectionInv;
    var db' := PruneScript(db, ref, now).0;
    assert SectionInv(Sec(db0, ref), now);
    PruneRestricts(Sec(db0, ref), now, None);
    hide PruneSection;
    forall r ensures SectionInv(Sec(db', r), now) && Restricts(Sec(db0, r), Sec(db', r)) {
      assert SectionInv(Sec(db0, r), now);
      PutSecAt(db0, ref, PruneSection(Sec(db0, ref), now, None), r);
    }
    hide Restricts;
    RestrictTickets(db0, db', now);
  }

  // --- Store calls and runs ----------------------------------------------------

  lemma ResolvedScopesAreGood(scopes: seq<ScopedLimit>, now: Instant)
    requires DistinctScopeRefs(scopes)
    ensures GoodScopes(InMillis(ResolveScopes(scopes, now)))
  {
    var resolved := InMillis(ResolveScopes(scopes, now));
    forall i | 0 <= i < |resolved| ensures GoodKeys(resolved[i].keys) {
      assert ScopeMatchesLimit(ResolveScopes(scopes, now)[i]);
    }
  }

  predicate DistinctScopeRefs(scopes: seq<ScopedLimit>) {
    forall i, j :: 0 <= i < j < |scopes| ==> scopes[i].ref != scopes[j].ref
  }

  predicate GoodCall(c: Call) { c.ReserveCall? ==> DistinctScopeRefs(c.scopes) }

  /** Every store call keeps the database invariant as time moves on. */
  lemma StepKeepsInv(db: Db, before: int, e: Event)
    requires DbInv(db, before) && before <= Millis(e.at.ns) && GoodCall(e.call)
    ensures DbInv(Step(db, e).0, Millis(e.at.ns))
  {
    hide DbInv;
    var now := Millis(e.at.ns);
    SameDbLater(db, before, now);
    match e.call
    case ReserveCall(id, scopes, estimate, ttl) =>
      hide ReserveScript;
      var v := ValidateEstimate(estimate);
      if v.Some? && id != 0 {
        ResolvedScopesAreGood(scopes, e.at);
        ReserveKeepsInv(db, before, InMillis(ResolveScopes(scopes, e.at)), v.value, id,
                        Fingerprint(scopes, v.value), now, ScriptTtl(ttl), ReserveMinuteTtl(e.at.ns));
      }
    case TopUpCall(id, delta, ttl) =>
      hide TopUpScript;
      var v := ValidateEstimate(delta);
      if v.Some? && id != 0 {
        TopUpKeepsInv(db, before, id, EstimatedTokens(v.value), v.value.spend, now, ScriptTtl(ttl));
      }
    case CommitCall(id, actual) =>
      hide SettleScript;
      var v := ValidateActual(actual);
      if v.Some? && id != 0 {
        SettleKeepsInv(db, before, id, true, ActualTokens(v.value), v.value.spend, now);
      }
    case RefundCall(id) =>
      hide SettleScript;
      if id != 0 {
        SettleKeepsInv(db, before, id, false, 0, 0, now);
      }
    case UsageCall(ref) =>
      hide PruneScript;
      PruneScriptKeepsInv(db, before, ref, now);
  }

  // The invariant speaks about live leases only, so it survives waiting.
  lemma SameDbLater(db: Db, before: int, now: int)
    requires DbInv(db, before) && before <= now
    ensures DbInv(db, now)
  {
    forall ref ensures SectionInv(Sec(db, ref), now) {
      assert SectionInv(Sec(db, ref), before);
    }
    hide SectionInv;
    forall ref, id ensures LeaseHasTicket(db, ref, id, now) {
      assert LeaseHasTicket(db, ref, id, before);
    }
  }

  predicate InOrder(es: seq<Event>, from: int) {
    && (forall i :: 0 <= i < |es| ==> from <= Millis(es[i].at.ns) && GoodCall(es[i].call))
    && (forall i, j :: 0 <= i < j < |es| ==> es[i].at.ns <= es[j].at.ns)
  }

  lemma {:induction false} RunKeepsInv(db: Db, from: int, es: seq<Event>)
    requires DbInv(db, from) && InOrder(es, from)
    ensures DbInv(Run(db, es), Clock(es, from))
    decreases |es|
  {
    hide DbInv;
    hide Step;
    if es != [] {
      var e, rest := es[0], es[1..];
      StepKeepsInv(db, from, e);
      assert InOrder(rest, Millis(e.at.ns)) by {
        forall i | 0 <= i < |rest| ensures Millis(e.at.ns) <= Millis(rest[i].at.ns) && GoodCall(rest[i].call) {
          assert rest[i] == es[i + 1];
        }
      }
      RunKeepsInv(Step(db, e).0, Millis(e.at.ns), rest);
    }
  }

  // The clock after a run.
  function Clock(es: seq<Event>, from: int): int {
    if es == [] then from else Millis(es[|es| - 1].at.ns)
  }

  /** Over every run of the quota scripts from an empty database each held
      counter is at least the sum over the live leases on it. */
  lemma HeldCountersNeverFallShort(es: seq<Event>, ref: ScopeRef, k: Key)
    requires InOrder(es, 0) && IsHeld(k)
    ensures var sec := Sec(Run(EMPTY_DB, es), ref);
      LiveHeldOn(sec, k, Clock(es, 0)) <= Val(sec.counters, k)
  {
    hide SectionInv;
    EmptyInv(0);
    RunKeepsInv(EMPTY_DB, 0, es);
    hide Run;
    var db := Run(EMPTY_DB, es);
    assert SectionInv(Sec(db, ref), Clock(es, 0));
    HeldCountersCoverLiveLeases(Sec(db, ref), k, Clock(es, 0));
  }

  /** Over every run every counter is between zero and the maximum quota value. */
  lemma CountersStayInRange(es: seq<Event>, ref: ScopeRef, k: Key)
    requires InOrder(es, 0)
    ensures 0 <= Val(Sec(Run(EMPTY_DB, es), ref).counters, k) <= MAX_QUOTA
  {
    hide SectionInv;
    EmptyInv(0);
    RunKeepsInv(EMPTY_DB, 0, es);
    var db := Run(EMPTY_DB, es);
    assert SectionInv(Sec(db, ref), Clock(es, 0));
    InvSynced(Sec(db, ref), Clock(es, 0));
  }

  /** Over every run, wherever the lease of a ticket exists it holds the tokens
      and spend of the ticket, under the ticket's keys and until its expiry. */
  lemma TicketsAgreeWithLeases(es: seq<Event>, id: Id, i: nat)
    requires InOrder(es, 0)
    requires id in Run(EMPTY_DB, es).tickets && i < |Run(EMPTY_DB, es).tickets[id].scopes|
    ensures TicketMatchesLease(Run(EMPTY_DB, es), id, i)
  {
    hide SectionInv;
    EmptyInv(0);
    RunKeepsInv(EMPTY_DB, 0, es);
  }

  // --- Refusals -------------------------------------------------------------------

  /** Tickets and tombstones lost only their expired entries, and each section is
      what expiry left of it, pruned or not. */
  ghost predicate OnlyExpiredGone(db: Db, db': Db, now: int) {
    && db'.tickets == Sweep(db, now).tickets
    && (forall x :: x in db'.settled ==> x in db.settled && db'.settled[x] == db.settled[x])
    && (forall x :: x in db.settled && now < db.settled[x] && now <= db.settledExpireAt ==> x in db'.settled)
    && (forall ref :: OnlyPruned(Sec(db, ref), Sec(db', ref), now))
  }

  ghost predicate OnlyPruned(sec: Section, sec': Section, now: int) {
    var swept := SweepSection(sec, now);
    sec' == swept || exists protected :: sec' == PruneSection(swept, now, protected)
  }

  lemma PrunedOnly(db: Db, db': Db, scopes: seq<Scope>, now: int, protected: Option<Id>)
    requires DistinctRefs(scopes)
    requires db'.sections == ForScopes(Sweep(db, now), scopes, Prune(now, protected)).sections
    ensures forall ref :: OnlyPruned(Sec(db, ref), Sec(db', ref), now)
  {
    hide PruneSection;
    hide SweepSection;
    var db0 := Sweep(db, now);
    forall ref ensures OnlyPruned(Sec(db, ref), Sec(db', ref), now) {
      SweepAt(db, now, ref);
      if Touches(scopes, ref) {
        var i :| 0 <= i < |scopes| && scopes[i].ref == ref;
        ForScopesHit(db0, scopes, Prune(now, protected), i);
        assert Sec(db', ref) == PruneSection(SweepSection(Sec(db, ref), now), now, protected);
      } else {
        ForScopesMiss(db0, scopes, Prune(now, protected), ref);
      }
    }
  }

  lemma SweptOnly(db: Db, db': Db, now: int)
    requires db'.sections == Sweep(db, now).sections
    ensures forall ref :: OnlyPruned(Sec(db, ref), Sec(db', ref), now)
  {
    hide SweepSection;
    forall ref ensures OnlyPruned(Sec(db, ref), Sec(db', ref), now) {
      SweepAt(db, now, ref);
    }
  }

  lemma RefusedReserve(db: Db, scopes: seq<Scope>, estimate: EstimatedUsage, id: Id, fingerprint: Fingerprint,
                       now: int, ttl: int, minuteTtl: int)
    requires DistinctRefs(scopes)
    requires ReserveScript(db, scopes, estimate, id, fingerprint, now, ttl, minuteTtl).1 != Reserved
    ensures OnlyExpiredGone(db, ReserveScript(db, scopes, estimate, id, fingerprint, now, ttl, minuteTtl).0, now)
  {
    hide OnlyPruned;
    ForScopesRest(Sweep(db, now), scopes, Prune(now, None));
    PrunedOnly(db, ReservePruned(db, scopes, now), scopes, now, None);
  }

  lemma RefusedTopUp(db: Db, before: int, id: Id, tokens: int, spend: int, now: int, ttl: int)
    requires DbInv(db, before) && before <= now && Amounts(tokens, spend)
    requires TopUpScript(db, id, tokens, spend, now, ttl).1 != Pass
    ensures OnlyExpiredGone(db, TopUpScript(db, id, tokens, spend, now, ttl).0, now)
  {
    hide OnlyPruned;
    hide SectionsInv;
    var db0 := Sweep(db, now);
    SweptOnly(db, db0, now);
    if id in db0.tickets {
      var t := db0.tickets[id];
      assert GoodTicket(db.tickets[id]);
      ForScopesRest(db0, t.scopes, Prune(now, Some(id)));
      PrunedOnly(db, ForScopes(db0, t.scopes, Prune(now, Some(id))), t.scopes, now, Some(id));
    }
  }

  lemma RefusedSettle(db: Db, before: int, id: Id, commit: bool, tokens: int, spend: int, now: int)
    requires DbInv(db, before) && before <= now && Amounts(tokens, spend)
    requires SettleScript(db, id, commit, tokens, spend, now).1 != Settled
    ensures OnlyExpiredGone(db, SettleScript(db, id, commit, tokens, spend, now).0, now)
  {
    hide OnlyPruned;
    hide SectionsInv;
    var db0 := PruneSettled(Sweep(db, now), now);
    SweptOnly(db, db0, now);
    if id in db0.tickets {
      var t := db0.tickets[id];
      assert GoodTicket(db.tickets[id]);
      ForScopesRest(db0, t.scopes, Prune(now, Some(id)));
      var db1 := ForScopes(db0, t.scopes, Prune(now, Some(id)));
      ForScopesSections(db0, Sweep(db, now), t.scopes, Prune(now, Some(id)));
      PrunedOnly(db, db1, t.scopes, now, Some(id));
    }
  }

  lemma {:induction false} ForScopesSections(db: Db, other: Db, scopes: seq<Scope>, a: Action)
    requires db.sections == other.sections
    ensures ForScopes(db, scopes, a).sections == ForScopes(other, scopes, a).sections
    decreases |scopes|
  {
    hide Act;
    if scopes != [] {
      var ref := scopes[0].ref;
      assert Sec(db, ref) == Sec(other, ref);
      var sec := Act(a, scopes[0], Sec(db, ref));
      ForScopesSections(PutSec(db, ref, sec), PutSec(other, ref, sec), scopes[1..], a);
    }
  }
}
