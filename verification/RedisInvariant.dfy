/** What every section of the Redis quota database keeps: the lease set and the
    lease hash agree, counters stay in range, and each held counter covers the
    leases on it for as long as those leases are live. */
module RedisInvariant {
  import opened QuotaTypes
  import opened MapSums
  import opened RedisLedger

  function LeaseHold(l: Lease, k: Key): int {
    KeyHold(l.active, l.spendHeld, l.dayHeld, l.monthHeld, l.tokens, l.spend, k)
  }

  function Holds(fields: map<Id, Lease>, k: Key): map<Id, int> {
    map id | id in fields :: LeaseHold(fields[id], k)
  }

  /** The sum of what all recorded leases hold on key k. */
  ghost function HeldOn(fields: map<Id, Lease>, k: Key): int { Sum(Holds(fields, k)) }

  /** The sum of what the leases that have not expired hold on key k. */
  ghost function LiveHeldOn(sec: Section, k: Key, now: int): int {
    Sum(LiveHolds(Fields(sec), Scores(sec), k, now))
  }

  function LiveHolds(fields: map<Id, Lease>, scores: map<Id, int>, k: Key, now: int): map<Id, int> {
    map id | id in fields && id in scores && now <= scores[id] :: LeaseHold(fields[id], k)
  }

  predicate GoodLease(l: Lease) {
    && 0 <= l.tokens <= MAX_QUOTA && 0 <= l.spend <= MAX_QUOTA
    && (l.active == NoKey || l.active.Active?)
    && (l.tpm == NoKey || l.tpm.Tpm?)
    && (l.spendHeld == NoKey || l.spendHeld.SpendHeld?)
    && (l.dayHeld == NoKey || l.dayHeld.DayHeld?)
    && (l.monthHeld == NoKey || l.monthHeld.MonthHeld?)
  }

  predicate GoodLeases(fields: map<Id, Lease>) {
    forall id :: id in fields ==> GoodLease(fields[id])
  }

  predicate GoodCounters(c: map<Key, Counter>) {
    NoKey !in c && forall k :: k in c ==> 0 <= c[k].value <= MAX_QUOTA && (IsHeld(k) ==> c[k].expireAt.Some?)
  }

  ghost predicate Covered(c: map<Key, Counter>, fields: map<Id, Lease>) {
    forall k :: k in c && IsHeld(k) ==> HeldOn(fields, k) <= c[k].value
  }

  predicate Outlives(c: map<Key, Counter>, k: Key, score: int) {
    k in c && c[k].expireAt.Some? && score <= c[k].expireAt.value
  }

  // A live lease finds each counter it holds something on.
  ghost predicate Backed(c: map<Key, Counter>, fields: map<Id, Lease>, scores: map<Id, int>, now: int) {
    forall id, k :: id in fields && id in scores && now <= scores[id] && LeaseHold(fields[id], k) > 0
      ==> Outlives(c, k, scores[id])
  }

  ghost predicate LedgerInv(c: map<Key, Counter>, fields: map<Id, Lease>, scores: map<Id, int>, now: int) {
    && fields.Keys <= scores.Keys
    && GoodLeases(fields)
    && GoodCounters(c)
    && Covered(c, fields)
    && Backed(c, fields, scores, now)
  }

  predicate Synced(sec: Section) {
    && (sec.leases.Some? <==> sec.data.Some?)
    && (sec.leases.Some? ==>
          && sec.leases.value.scores.Keys == sec.data.value.fields.Keys
          && sec.leases.value.scores.Keys != {}
          && sec.leases.value.expireAt == sec.data.value.expireAt
          && forall id :: id in sec.leases.value.scores ==> sec.leases.value.scores[id] <= sec.leases.value.expireAt)
  }

  ghost predicate SectionInv(sec: Section, now: int) {
    Synced(sec) && LedgerInv(sec.counters, Fields(sec), Scores(sec), now)
  }

  // --- Sums -------------------------------------------------------------

  lemma HoldNonNegative(l: Lease, k: Key)
    requires GoodLease(l)
    ensures 0 <= LeaseHold(l, k) <= MAX_QUOTA
    ensures LeaseHold(l, k) > 0 ==> IsHeld(k)
  {
  }

  lemma HeldOnRemove(fields: map<Id, Lease>, id: Id, k: Key)
    requires id in fields
    ensures HeldOn(fields, k) == LeaseHold(fields[id], k) + HeldOn(fields - {id}, k)
  {
    SumRemove(Holds(fields, k), id);
    assert Holds(fields, k) - {id} == Holds(fields - {id}, k);
  }

  lemma HeldOnUpdate(fields: map<Id, Lease>, id: Id, l: Lease, k: Key)
    ensures HeldOn(fields[id := l], k)
         == HeldOn(fields, k) + LeaseHold(l, k) - (if id in fields then LeaseHold(fields[id], k) else 0)
  {
    SumUpdate(Holds(fields, k), id, LeaseHold(l, k));
    assert Holds(fields, k)[id := LeaseHold(l, k)] == Holds(fields[id := l], k);
  }

  lemma HeldOnBounds(fields: map<Id, Lease>, k: Key)
    requires GoodLeases(fields)
    ensures 0 <= HeldOn(fields, k)
    ensures forall id :: id in fields ==> LeaseHold(fields[id], k) <= HeldOn(fields, k)
  {
    forall id | id in Holds(fields, k) ensures Holds(fields, k)[id] >= 0 {
      HoldNonNegative(fields[id], k);
    }
    SumNonNegative(Holds(fields, k));
    forall id | id in fields ensures LeaseHold(fields[id], k) <= HeldOn(fields, k) {
      assert id in Holds(fields, k);
    }
  }

  /** Each held counter is at least the sum over its live leases. */
  lemma HeldCountersCoverLiveLeases(sec: Section, k: Key, now: int)
    requires SectionInv(sec, now) && IsHeld(k)
    ensures LiveHeldOn(sec, k, now) <= Val(sec.counters, k)
  {
    var fields, scores := Fields(sec), Scores(sec);
    var live := LiveHolds(fields, scores, k, now);
    if k in sec.counters {
      LiveAtMostAll(fields, scores, k, now);
    } else {
      forall id | id in live ensures live[id] == 0 {
        HoldNonNegative(fields[id], k);
        assert LeaseHold(fields[id], k) > 0 ==> Outlives(sec.counters, k, scores[id]);
      }
      SumZero(live);
    }
  }

  lemma LiveAtMostAll(fields: map<Id, Lease>, scores: map<Id, int>, k: Key, now: int)
    requires GoodLeases(fields) && fields.Keys <= scores.Keys
    ensures Sum(LiveHolds(fields, scores, k, now)) <= HeldOn(fields, k)
  {
    hide Sum, LeaseHold, GoodLease;
    forall id | id in fields
      ensures LeaseHold(fields[id], k) >= 0
    {
      HoldNonNegative(fields[id], k);
    }
    PartAtMostWhole(LiveHolds(fields, scores, k, now), Holds(fields, k));
  }

  // --- Time passes ------------------------------------------------------

  lemma SweepKeepsInv(sec: Section, before: int, now: int)
    requires SectionInv(sec, before) && before <= now
    ensures SectionInv(SweepSection(sec, now), now)
  {
    var swept := SweepSection(sec, now);
    if sec.leases.Some? && sec.leases.value.expireAt < now {
      assert Fields(swept) == map[];
      forall k | k in swept.counters ensures HeldOn(Fields(swept), k) == 0 {
        assert Holds(Fields(swept), k) == map[];
      }
    } else {
      assert Fields(swept) == Fields(sec) && Scores(swept) == Scores(sec);
    }
  }

  // --- Dropping a lease -------------------------------------------------

  predicate SameAt(c: map<Key, Counter>, c': map<Key, Counter>, k: Key) {
    (k in c' <==> k in c) && (k in c ==> c'[k] == c[k])
  }

  // Key k lost amount h: deleted at zero, and otherwise lowered with its expiry kept.
  predicate LosesAt(c: map<Key, Counter>, c': map<Key, Counter>, k: Key, h: int) {
    if h <= 0 then SameAt(c, c', k)
    else if Val(c, k) <= h then k !in c'
    else k in c && k in c' && c'[k] == c[k].(value := c[k].value - h)
  }

  lemma DecrementAt(c: map<Key, Counter>, at: Key, amount: int, k: Key)
    requires k != NoKey && GoodCounters(c)
    ensures LosesAt(c, Decrement(c, at, amount), k, if at == k then amount else 0)
  {
  }

  lemma ReleaseLeaseAt(c: map<Key, Counter>, l: Lease, k: Key)
    requires GoodLease(l) && IsHeld(k) && GoodCounters(c)
    ensures LosesAt(c, ReleaseLease(c, l), k, LeaseHold(l, k))
  {
    hide Decrement;
    var c1 := Decrement(c, l.active, 1);
    var c2 := Decrement(c1, l.tpm, l.tokens);
    var c3 := Decrement(c2, l.spendHeld, l.spend);
    var c4 := Decrement(c3, l.dayHeld, l.tokens);
    DecrementGood(c, l.active, 1);
    DecrementGood(c1, l.tpm, l.tokens);
    DecrementGood(c2, l.spendHeld, l.spend);
    DecrementGood(c3, l.dayHeld, l.tokens);
    DecrementAt(c, l.active, 1, k);
    DecrementAt(c1, l.tpm, l.tokens, k);
    DecrementAt(c2, l.spendHeld, l.spend, k);
    DecrementAt(c3, l.dayHeld, l.tokens, k);
    DecrementAt(c4, l.monthHeld, l.tokens, k);
  }

  lemma DecrementGood(c: map<Key, Counter>, k: Key, amount: int)
    requires GoodCounters(c)
    ensures GoodCounters(Decrement(c, k, amount))
  {
  }

  lemma ReleaseLeaseGood(c: map<Key, Counter>, l: Lease)
    requires GoodCounters(c)
    ensures GoodCounters(ReleaseLease(c, l))
  {
    hide Decrement;
    var c1 := Decrement(c, l.active, 1);
    var c2 := Decrement(c1, l.tpm, l.tokens);
    var c3 := Decrement(c2, l.spendHeld, l.spend);
    var c4 := Decrement(c3, l.dayHeld, l.tokens);
    DecrementGood(c, l.active, 1);
    DecrementGood(c1, l.tpm, l.tokens);
    DecrementGood(c2, l.spendHeld, l.spend);
    DecrementGood(c3, l.dayHeld, l.tokens);
    DecrementGood(c4, l.monthHeld, l.tokens);
  }

  // Counters that lose exactly what lease `id` held keep the ledger invariant
  // of the remaining leases.
  ghost predicate Releases(c: map<Key, Counter>, c': map<Key, Counter>, l: Lease) {
    forall k :: IsHeld(k) ==> LosesAt(c, c', k, LeaseHold(l, k))
  }

  lemma RemoveLeaseInv(c: map<Key, Counter>, c': map<Key, Counter>,
                       fields: map<Id, Lease>, scores: map<Id, int>, id: Id, now: int)
    requires LedgerInv(c, fields, scores, now) && id in fields
    requires GoodCounters(c') && Releases(c, c', fields[id])
    ensures LedgerInv(c', fields - {id}, scores, now)
  {
    var rest := fields - {id};
    forall k | k in c' && IsHeld(k)
      ensures HeldOn(rest, k) <= c'[k].value
    {
      HeldOnRemove(fields, id, k);
      HoldNonNegative(fields[id], k);
      assert k in c;
    }
    forall other, k | other in rest && other in scores && now <= scores[other] && LeaseHold(rest[other], k) > 0
      ensures Outlives(c', k, scores[other])
    {
      HoldNonNegative(rest[other], k);
      HoldNonNegative(fields[id], k);
      assert LeaseHold(fields[other], k) > 0;
      assert Outlives(c, k, scores[other]);
      HeldOnRemove(fields, id, k);
      HeldOnBounds(rest, k);
      assert HeldOn(fields, k) <= c[k].value;
    }
  }

  // A stored hash is never empty.
  predicate Compact(sec: Section) { sec.data.Some? ==> sec.data.value.fields.Keys != {} }

  lemma DropLeaseInv(sec: Section, id: Id, now: int)
    requires LedgerInv(sec.counters, Fields(sec), Scores(sec), now) && Compact(sec)
    ensures var sec' := DropLease(sec, id);
      && LedgerInv(sec'.counters, Fields(sec'), Scores(sec'), now) && Compact(sec')
      && Fields(sec') == Fields(sec) - {id}
      && sec'.leases == sec.leases
      && (sec'.data.Some? ==> sec.data.Some? && sec'.data.value.expireAt == sec.data.value.expireAt)
  {
    var sec' := DropLease(sec, id);
    if id in Fields(sec) {
      var l := Fields(sec)[id];
      ReleaseLeaseGood(sec.counters, l);
      forall k | IsHeld(k) ensures LosesAt(sec.counters, sec'.counters, k, LeaseHold(l, k)) {
        ReleaseLeaseAt(sec.counters, l, k);
      }
      RemoveLeaseInv(sec.counters, sec'.counters, Fields(sec), Scores(sec), id, now);
      assert Fields(sec') == Fields(sec) - {id};
      assert Fields(sec').Keys == Fields(sec).Keys - {id};
    } else {
      assert Fields(sec) - {id} == Fields(sec);
    }
  }

  lemma {:induction false} DropLeasesInv(sec: Section, ids: seq<Id>, now: int)
    requires LedgerInv(sec.counters, Fields(sec), Scores(sec), now) && Compact(sec)
    ensures var sec' := DropLeases(sec, ids);
      && LedgerInv(sec'.counters, Fields(sec'), Scores(sec'), now) && Compact(sec')
      && Fields(sec') == Fields(sec) - (set id | id in ids)
      && sec'.leases == sec.leases
      && (sec'.data.Some? ==> sec.data.Some? && sec'.data.value.expireAt == sec.data.value.expireAt)
    decreases |ids|
  {
    if ids == [] {
      assert Fields(sec) - (set id | id in ids) == Fields(sec);
    } else {
      DropLeaseInv(sec, ids[0], now);
      DropLeasesInv(DropLease(sec, ids[0]), ids[1..], now);
      assert (set id | id in ids) == {ids[0]} + (set id | id in ids[1..]);
      assert (Fields(sec) - {ids[0]}) - (set id | id in ids[1..]) == Fields(sec) - (set id | id in ids);
    }
  }

  // The invariant does not mind scores that have gone, as long as the leases had none.
  lemma ShrinkScores(c: map<Key, Counter>, fields: map<Id, Lease>, scores: map<Id, int>, scores': map<Id, int>, now: int)
    requires LedgerInv(c, fields, scores, now)
    requires fields.Keys <= scores'.Keys <= scores.Keys
    requires forall id :: id in scores' ==> scores'[id] == scores[id]
    ensures LedgerInv(c, fields, scores', now)
  {
  }

  // What is left in the two containers, and that the counters still cover it.
  lemma PruneLeaves(sec: Section, now: int, protected: Option<Id>)
    requires SectionInv(sec, now)
    ensures var sec', expired := PruneSection(sec, now, protected), Expired(sec, now, protected);
      && Fields(sec') == Fields(sec) - expired.Keys
      && Scores(sec') == Scores(sec) - expired.Keys
      && (sec'.data.Some? ==> sec.data.Some? && sec'.data.value.expireAt == sec.data.value.expireAt && Fields(sec').Keys != {})
      && LedgerInv(sec'.counters, Fields(sec'), Scores(sec), now)
  {
    hide DropLeases, LedgerInv, Ordered;
    var expired := Expired(sec, now, protected);
    var ids := Ordered(expired);
    var sec' := PruneSection(sec, now, protected);
    OrderedMembers(expired);
    DropLeasesInv(sec, ids, now);
    assert (set id | id in ids) == expired.Keys;
    var dropped := DropLeases(sec, ids);
    assert Scores(sec') == Scores(sec) - expired.Keys;
    if protected.None? && sec'.leases.None? {
      assert Fields(sec).Keys == Scores(sec).Keys <= expired.Keys;
      assert Fields(dropped) == map[] == Fields(sec');
    }
  }

  lemma PruneSynced(sec: Section, now: int, protected: Option<Id>)
    requires SectionInv(sec, now)
    ensures Synced(PruneSection(sec, now, protected))
  {
    hide LedgerInv, DropLeases, Ordered;
    var expired := Expired(sec, now, protected);
    var sec' := PruneSection(sec, now, protected);
    PruneLeaves(sec, now, protected);
    assert Fields(sec').Keys == Scores(sec').Keys;
    assert Scores(sec').Keys == Scores(sec).Keys - expired.Keys;
    if sec'.leases.Some? {
      var x :| x in Scores(sec).Keys && x !in expired.Keys;
      assert x in Scores(sec');
    }
  }

  /** Pruning keeps the invariant and drops exactly the expired, unprotected leases. */
  lemma PruneKeepsInv(sec: Section, now: int, protected: Option<Id>)
    requires SectionInv(sec, now)
    ensures var sec', expired := PruneSection(sec, now, protected), Expired(sec, now, protected);
      && SectionInv(sec', now)
      && Fields(sec') == Fields(sec) - expired.Keys
      && Scores(sec') == Scores(sec) - expired.Keys
  {
    hide LedgerInv, Synced, PruneSection;
    var sec' := PruneSection(sec, now, protected);
    PruneLeaves(sec, now, protected);
    PruneSynced(sec, now, protected);
    SyncedKeys(sec);
    ShrinkScores(sec'.counters, Fields(sec'), Scores(sec), Scores(sec'), now);
  }

  lemma SyncedKeys(sec: Section)
    requires Synced(sec)
    ensures Fields(sec).Keys == Scores(sec).Keys
  {
  }

  // --- What pruning takes back -------------------------------------------

  lemma {:induction false} DropLeasesTakeBack(sec: Section, ids: seq<Id>, k: Key, now: int)
    requires LedgerInv(sec.counters, Fields(sec), Scores(sec), now) && Compact(sec)
    requires IsHeld(k) && HeldOn(Fields(sec), k) <= Val(sec.counters, k)
    ensures var sec' := DropLeases(sec, ids);
      Val(sec.counters, k) - Val(sec'.counters, k) == HeldOn(Fields(sec), k) - HeldOn(Fields(sec'), k)
    decreases |ids|
  {
    hide LedgerInv;
    if ids != [] {
      var sec1 := DropLease(sec, ids[0]);
      DropLeaseInv(sec, ids[0], now);
      DropLeaseTakesBack(sec, ids[0], k, now);
      DropLeasesTakeBack(sec1, ids[1..], k, now);
    }
  }

  lemma DropLeaseTakesBack(sec: Section, id: Id, k: Key, now: int)
    requires LedgerInv(sec.counters, Fields(sec), Scores(sec), now)
    requires IsHeld(k) && HeldOn(Fields(sec), k) <= Val(sec.counters, k)
    ensures var sec' := DropLease(sec, id);
      && Val(sec.counters, k) - Val(sec'.counters, k) == HeldOn(Fields(sec), k) - HeldOn(Fields(sec'), k)
      && HeldOn(Fields(sec'), k) <= Val(sec'.counters, k)
  {
    if id in Fields(sec) {
      var fields: map<Id, Lease> := Fields(sec);
      HeldOnRemove(fields, id, k);
      HeldOnBounds(fields - {id}, k);
      HoldNonNegative(fields[id], k);
      ReleaseLeaseAt(sec.counters, fields[id], k);
      assert Fields(DropLease(sec, id)) == fields - {id};
    }
  }

  /** A held counter that covers its leases loses, in a prune, exactly what the
      dropped leases held: the decrements never clamp. */
  lemma PruneTakesBackWhatExpired(sec: Section, now: int, protected: Option<Id>, k: Key)
    requires SectionInv(sec, now) && IsHeld(k) && k in sec.counters
    ensures var sec' := PruneSection(sec, now, protected);
      Val(sec.counters, k) - Val(sec'.counters, k) == HeldOn(Fields(sec), k) - HeldOn(Fields(sec'), k)
  {
    var expired := Expired(sec, now, protected);
    var dropped := DropLeases(sec, Ordered(expired));
    OrderedMembers(expired);
    DropLeasesInv(sec, Ordered(expired), now);
    DropLeasesTakeBack(sec, Ordered(expired), k, now);
    PruneKeepsInv(sec, now, protected);
    assert (set id | id in Ordered(expired)) == expired.Keys;
    assert Fields(PruneSection(sec, now, protected)) == Fields(dropped);
  }

  lemma DecrementSame(c: map<Key, Counter>, at: Key, amount: int, k: Key)
    requires at != k
    ensures SameAt(c, Decrement(c, at, amount), k)
  {
  }

  lemma {:induction false} DropLeasesSame(sec: Section, ids: seq<Id>, k: Key)
    requires GoodLeases(Fields(sec)) && k != NoKey && !IsHeld(k) && !k.Tpm?
    ensures SameAt(sec.counters, DropLeases(sec, ids).counters, k)
    decreases |ids|
  {
    hide Decrement;
    if ids != [] {
      if ids[0] in Fields(sec) {
        var c, l := sec.counters, Fields(sec)[ids[0]];
        var c1 := Decrement(c, l.active, 1);
        var c2 := Decrement(c1, l.tpm, l.tokens);
        var c3 := Decrement(c2, l.spendHeld, l.spend);
        var c4 := Decrement(c3, l.dayHeld, l.tokens);
        DecrementSame(c, l.active, 1, k);
        DecrementSame(c1, l.tpm, l.tokens, k);
        DecrementSame(c2, l.spendHeld, l.spend, k);
        DecrementSame(c3, l.dayHeld, l.tokens, k);
        DecrementSame(c4, l.monthHeld, l.tokens, k);
      }
      DropLeasesSame(DropLease(sec, ids[0]), ids[1..], k);
    }
  }

  /** Pruning never touches used counters or the request counter. */
  lemma PruneKeepsUsed(sec: Section, now: int, protected: Option<Id>, k: Key)
    requires SectionInv(sec, now) && k != NoKey && !IsHeld(k) && !k.Tpm?
    ensures SameAt(sec.counters, PruneSection(sec, now, protected).counters, k)
  {
    DropLeasesSame(sec, Ordered(Expired(sec, now, protected)), k);
  }
}
