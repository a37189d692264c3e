/** Reserving, topping up and settling keep the section invariant. */
module RedisHolds {
  import opened QuotaTypes
  import opened MapSums
  import opened RedisLedger
  import opened RedisInvariant

  predicate GoodKeys(keys: QuotaKeys) {
    && (keys.active == NoKey || keys.active.Active?)
    && (keys.rpm == NoKey || keys.rpm.Rpm?)
    && (keys.tpm == NoKey || keys.tpm.Tpm?)
    && (keys.spendUsed == NoKey || keys.spendUsed.SpendUsed?)
    && (keys.spendHeld == NoKey || keys.spendHeld.SpendHeld?)
    && (keys.dayUsed == NoKey || keys.dayUsed.DayUsed?)
    && (keys.dayHeld == NoKey || keys.dayHeld.DayHeld?)
    && (keys.monthUsed == NoKey || keys.monthUsed.MonthUsed?)
    && (keys.monthHeld == NoKey || keys.monthHeld.MonthHeld?)
  }

  predicate HeldKey(keys: QuotaKeys, k: Key) {
    k != NoKey && (k == keys.active || k == keys.spendHeld || k == keys.dayHeld || k == keys.monthHeld)
  }

  // --- Counter steps, one key at a time ----------------------------------

  predicate RaisedAt(c: map<Key, Counter>, c': map<Key, Counter>, k: Key, d: int) {
    k in c' && c'[k].value == Val(c, k) + d
  }

  // The key now expires no earlier than `at` and no earlier than before.
  predicate RenewedAt(c: map<Key, Counter>, c': map<Key, Counter>, k: Key, at: int) {
    && Outlives(c', k, at)
    && (k in c && c[k].expireAt.Some? ==> c[k].expireAt.value <= c'[k].expireAt.value)
  }

  lemma AddHoldAt(c: map<Key, Counter>, at: Key, d: int, k: Key)
    requires k != NoKey
    ensures var c' := AddHold(c, at, d);
      if at != k then SameAt(c, c', k)
      else RaisedAt(c, c', k, d) && c'[k].expireAt == (if k in c then c[k].expireAt else None)
  {
  }

  lemma AddExpiringAt(c: map<Key, Counter>, at: Key, d: int, until: int, k: Key)
    requires k != NoKey
    ensures var c' := AddExpiring(c, at, d, until);
      if at != k then SameAt(c, c', k) else RaisedAt(c, c', k, d)
  {
  }

  lemma ExpireNoEarlierAt(c: map<Key, Counter>, at: Key, now: int, until: int, k: Key)
    requires k != NoKey
    ensures var c' := ExpireNoEarlier(c, at, now, until);
      if at != k || k !in c then SameAt(c, c', k)
      else k in c' && c'[k].value == c[k].value && RenewedAt(c, c', k, until)
  {
  }

  lemma RenewHeldAt(c: map<Key, Counter>, keys: QuotaKeys, now: int, until: int, k: Key)
    requires GoodKeys(keys) && k != NoKey
    ensures var c' := RenewHeld(c, keys, now, until);
      if HeldKey(keys, k) && k in c
      then k in c' && c'[k].value == c[k].value && RenewedAt(c, c', k, until)
      else SameAt(c, c', k)
  {
    var c1 := ExpireNoEarlier(c, keys.active, now, until);
    var c2 := ExpireNoEarlier(c1, keys.spendHeld, now, until);
    var c3 := ExpireNoEarlier(c2, keys.dayHeld, now, until);
    ExpireNoEarlierAt(c, keys.active, now, until, k);
    ExpireNoEarlierAt(c1, keys.spendHeld, now, until, k);
    ExpireNoEarlierAt(c2, keys.dayHeld, now, until, k);
    ExpireNoEarlierAt(c3, keys.monthHeld, now, until, k);
  }

  function ReserveAmount(keys: QuotaKeys, tokens: int, spend: int, k: Key): int {
    match k
    case Active => if k == keys.active then 1 else 0
    case Rpm(_) => if k == keys.rpm then 1 else 0
    case Tpm(_) => if k == keys.tpm then tokens else 0
    case SpendHeld(_) => if k == keys.spendHeld then spend else 0
    case DayHeld(_) => if k == keys.dayHeld then tokens else 0
    case MonthHeld(_) => if k == keys.monthHeld then tokens else 0
    case _ => 0
  }

  // At one key at most one of the six additions has any effect.
  predicate AddedAt(c: map<Key, Counter>, c': map<Key, Counter>, keys: QuotaKeys,
                    tokens: int, spend: int, k: Key)
  {
    if k == keys.rpm || k == keys.tpm then RaisedAt(c, c', k, ReserveAmount(keys, tokens, spend, k))
    else if HeldKey(keys, k)
    then RaisedAt(c, c', k, ReserveAmount(keys, tokens, spend, k))
         && c'[k].expireAt == (if k in c then c[k].expireAt else None)
    else SameAt(c, c', k)
  }

  lemma RequestCountersAt(c: map<Key, Counter>, keys: QuotaKeys, tokens: int, spend: int, until: int, k: Key)
    requires GoodKeys(keys) && k != NoKey
    ensures var c' := RequestCounters(c, keys, tokens, until);
      if k.Active? || k.Rpm? || k.Tpm? then AddedAt(c, c', keys, tokens, spend, k) else SameAt(c, c', k)
  {
    var c1 := AddHold(c, keys.active, 1);
    var c2 := AddExpiring(c1, keys.rpm, 1, until);
    AddHoldAt(c, keys.active, 1, k);
    AddExpiringAt(c1, keys.rpm, 1, until, k);
    AddExpiringAt(c2, keys.tpm, tokens, until, k);
  }

  lemma BudgetCountersAt(c: map<Key, Counter>, keys: QuotaKeys, tokens: int, spend: int, k: Key)
    requires GoodKeys(keys) && k != NoKey
    ensures var c' := BudgetCounters(c, keys, tokens, spend);
      if k.Active? || k.Rpm? || k.Tpm? then SameAt(c, c', k) else AddedAt(c, c', keys, tokens, spend, k)
  {
    var c1 := AddHold(c, keys.spendHeld, spend);
    var c2 := AddHold(c1, keys.dayHeld, tokens);
    AddHoldAt(c, keys.spendHeld, spend, k);
    AddHoldAt(c1, keys.dayHeld, tokens, k);
    AddHoldAt(c2, keys.monthHeld, tokens, k);
  }

  lemma ReserveCountersAt(c: map<Key, Counter>, keys: QuotaKeys, tokens: int, spend: int,
                          now: int, minuteTtl: int, k: Key)
    requires GoodKeys(keys) && k != NoKey
    ensures AddedAt(c, ReserveCounters(c, keys, tokens, spend, now, minuteTtl), keys, tokens, spend, k)
  {
    RequestCountersAt(c, keys, tokens, spend, now + minuteTtl, k);
    var c3 := RequestCounters(c, keys, tokens, now + minuteTtl);
    BudgetCountersAt(c3, keys, tokens, spend, k);
    AddedTwice(c, c3, ReserveCounters(c, keys, tokens, spend, now, minuteTtl), keys, tokens, spend, k);
  }

  lemma AddedTwice(c: map<Key, Counter>, c3: map<Key, Counter>, c6: map<Key, Counter>,
                   keys: QuotaKeys, tokens: int, spend: int, k: Key)
    requires if k.Active? || k.Rpm? || k.Tpm? then AddedAt(c, c3, keys, tokens, spend, k) else SameAt(c, c3, k)
    requires if k.Active? || k.Rpm? || k.Tpm? then SameAt(c3, c6, k) else AddedAt(c3, c6, keys, tokens, spend, k)
    ensures AddedAt(c, c6, keys, tokens, spend, k)
  {
  }

  // --- Leases that gain ---------------------------------------------------

  // Every counter gains what the new lease record adds over the old one.
  ghost predicate Gains(c: map<Key, Counter>, c': map<Key, Counter>,
                        fields: map<Id, Lease>, id: Id, l: Lease, at: int)
  {
    forall k :: IsHeld(k) ==> GainsAt(c, c', k, LeaseHold(l, k) - OldHold(fields, id, k), LeaseHold(l, k), at)
  }

  function OldHold(fields: map<Id, Lease>, id: Id, k: Key): int {
    if id in fields then LeaseHold(fields[id], k) else 0
  }

  predicate GainsAt(c: map<Key, Counter>, c': map<Key, Counter>, k: Key, d: int, hold: int, at: int) {
    && (k in c' ==> c'[k].value == Val(c, k) + d)
    && (k in c ==> Outlives(c', k, c[k].expireAt.GetOr(at)))
    && (hold > 0 ==> Outlives(c', k, at))
  }

  lemma PutLeaseInv(c: map<Key, Counter>, c': map<Key, Counter>, fields: map<Id, Lease>,
                    scores: map<Id, int>, id: Id, l: Lease, now: int, at: int)
    requires LedgerInv(c, fields, scores, now) && GoodCounters(c') && GoodLease(l)
    requires forall other :: other in fields ==> now <= scores[other]
    requires forall k :: OldHold(fields, id, k) <= LeaseHold(l, k)
    requires Gains(c, c', fields, id, l, at)
    ensures LedgerInv(c', fields[id := l], scores[id := at], now)
  {
    var fields', scores' := fields[id := l], scores[id := at];
    forall k | k in c' && IsHeld(k)
      ensures HeldOn(fields', k) <= c'[k].value
    {
      HeldOnUpdate(fields, id, l, k);
      if k !in c {
        UnbackedKeyIsFree(c, fields, scores, k, now);
      }
    }
    forall other, k | other in fields' && other in scores' && now <= scores'[other] && LeaseHold(fields'[other], k) > 0
      ensures Outlives(c', k, scores'[other])
    {
      HoldNonNegative(fields'[other], k);
      if other != id {
        assert LeaseHold(fields[other], k) > 0;
        assert Outlives(c, k, scores[other]);
      }
    }
  }

  // With every recorded lease live, a missing counter means nobody holds anything on it.
  lemma UnbackedKeyIsFree(c: map<Key, Counter>, fields: map<Id, Lease>, scores: map<Id, int>, k: Key, now: int)
    requires LedgerInv(c, fields, scores, now) && k !in c
    requires forall other :: other in fields ==> now <= scores[other]
    ensures HeldOn(fields, k) == 0
  {
    forall id | id in Holds(fields, k) ensures Holds(fields, k)[id] == 0 {
      HoldNonNegative(fields[id], k);
      assert !Outlives(c, k, scores[id]);
    }
    SumZero(Holds(fields, k));
  }

  // --- Reserve ------------------------------------------------------------

  predicate Amounts(tokens: int, spend: int) { 0 <= tokens <= MAX_QUOTA && 0 <= spend <= MAX_QUOTA }

  ghost predicate AllLive(sec: Section, now: int) {
    forall id :: id in Fields(sec) ==> id in Scores(sec) && now <= Scores(sec)[id]
  }

  function HeldCounters(c: map<Key, Counter>, keys: QuotaKeys, tokens: int, spend: int,
                        now: int, ttl: int, minuteTtl: int): map<Key, Counter>
  {
    RenewHeld(ReserveCounters(c, keys, tokens, spend, now, minuteTtl), keys, now, now + ttl)
  }

  lemma HeldCountersAt(c: map<Key, Counter>, keys: QuotaKeys, tokens: int, spend: int,
                       now: int, ttl: int, minuteTtl: int, k: Key)
    requires GoodKeys(keys) && k != NoKey
    ensures var c' := HeldCounters(c, keys, tokens, spend, now, ttl, minuteTtl);
      if k == keys.rpm || k == keys.tpm then RaisedAt(c, c', k, ReserveAmount(keys, tokens, spend, k))
      else if HeldKey(keys, k)
      then RaisedAt(c, c', k, ReserveAmount(keys, tokens, spend, k)) && RenewedAt(c, c', k, now + ttl)
      else SameAt(c, c', k)
  {
    hide ReserveCounters;
    hide RenewHeld;
    var c1 := ReserveCounters(c, keys, tokens, spend, now, minuteTtl);
    ReserveCountersAt(c, keys, tokens, spend, now, minuteTtl, k);
    RenewHeldAt(c1, keys, now, now + ttl, k);
    RaisedThenRenewed(c, c1, HeldCounters(c, keys, tokens, spend, now, ttl, minuteTtl), keys,
                      ReserveAmount(keys, tokens, spend, k), now + ttl, k);
  }

  lemma HeldCountersNoKey(c: map<Key, Counter>, keys: QuotaKeys, tokens: int, spend: int,
                          now: int, ttl: int, minuteTtl: int)
    requires NoKey !in c
    ensures NoKey !in HeldCounters(c, keys, tokens, spend, now, ttl, minuteTtl)
  {
  }

  lemma RaisedThenRenewed(c: map<Key, Counter>, c1: map<Key, Counter>, c2: map<Key, Counter>,
                          keys: QuotaKeys, d: int, until: int, k: Key)
    requires GoodKeys(keys)
    requires if k == keys.rpm || k == keys.tpm then RaisedAt(c, c1, k, d)
             else if HeldKey(keys, k)
             then RaisedAt(c, c1, k, d) && c1[k].expireAt == (if k in c then c[k].expireAt else None)
             else SameAt(c, c1, k)
    requires if HeldKey(keys, k) && k in c1
             then k in c2 && c2[k].value == c1[k].value && RenewedAt(c1, c2, k, until)
             else SameAt(c1, c2, k)
    ensures if k == keys.rpm || k == keys.tpm then k == NoKey || RaisedAt(c, c2, k, d)
            else if HeldKey(keys, k) then RaisedAt(c, c2, k, d) && RenewedAt(c, c2, k, until)
            else SameAt(c, c2, k)
  {
  }

  lemma CheckedReserveFits(c: map<Key, Counter>, scope: Scope, tokens: int, spend: int, k: Key)
    requires GoodKeys(scope.keys) && GoodCounters(c) && k != NoKey
    requires CheckReserve(c, scope, tokens, spend) == Pass
    requires k == scope.keys.rpm || k == scope.keys.tpm || HeldKey(scope.keys, k)
    ensures Val(c, k) + ReserveAmount(scope.keys, tokens, spend, k) <= MAX_QUOTA
  {
  }

  lemma HeldCountersGood(c: map<Key, Counter>, scope: Scope, tokens: int, spend: int,
                         now: int, ttl: int, minuteTtl: int)
    requires GoodKeys(scope.keys) && GoodCounters(c) && Amounts(tokens, spend)
    requires CheckReserve(c, scope, tokens, spend) == Pass
    ensures GoodCounters(HeldCounters(c, scope.keys, tokens, spend, now, ttl, minuteTtl))
  {
    hide HeldCounters;
    var c' := HeldCounters(c, scope.keys, tokens, spend, now, ttl, minuteTtl);
    HeldCountersNoKey(c, scope.keys, tokens, spend, now, ttl, minuteTtl);
    forall k | k in c'
      ensures 0 <= c'[k].value <= MAX_QUOTA && (IsHeld(k) ==> c'[k].expireAt.Some?)
    {
      HeldCountersAt(c, scope.keys, tokens, spend, now, ttl, minuteTtl, k);
      if k == scope.keys.rpm || k == scope.keys.tpm || HeldKey(scope.keys, k) {
        CheckedReserveFits(c, scope, tokens, spend, k);
      }
    }
  }

  lemma HeldCountersGain(c: map<Key, Counter>, fields: map<Id, Lease>, id: Id, keys: QuotaKeys,
                         tokens: int, spend: int, now: int, ttl: int, minuteTtl: int)
    requires GoodKeys(keys) && GoodCounters(c) && id !in fields
    ensures Gains(c, HeldCounters(c, keys, tokens, spend, now, ttl, minuteTtl),
                  fields, id, LeaseFor(keys, tokens, spend), now + ttl)
  {
    hide HeldCounters;
    var c' := HeldCounters(c, keys, tokens, spend, now, ttl, minuteTtl);
    var l := LeaseFor(keys, tokens, spend);
    forall k | IsHeld(k)
      ensures GainsAt(c, c', k, LeaseHold(l, k) - OldHold(fields, id, k), LeaseHold(l, k), now + ttl)
    {
      HeldCountersAt(c, keys, tokens, spend, now, ttl, minuteTtl, k);
    }
  }

  // A refreshed pair of containers is in step and outlives its leases.
  lemma PutLeaseSynced(sec: Section, id: Id, l: Lease, at: int, grace: int)
    requires Synced(sec) && grace >= 0
    ensures var sec' := PutLease(sec, id, l, at, grace);
      Synced(sec') && Fields(sec') == Fields(sec)[id := l] && Scores(sec') == Scores(sec)[id := at]
  {
    assert Fields(sec).Keys == Scores(sec).Keys;
    var sec' := PutLease(sec, id, l, at, grace);
    assert id in Scores(sec');
  }

  lemma HoldScopeKeepsInv(sec: Section, scope: Scope, id: Id, tokens: int, spend: int,
                          now: int, ttl: int, minuteTtl: int)
    requires SectionInv(sec, now) && AllLive(sec, now) && id !in Fields(sec)
    requires GoodKeys(scope.keys) && Amounts(tokens, spend) && minuteTtl >= 0
    requires CheckReserve(sec.counters, scope, tokens, spend) == Pass
    ensures var sec' := HoldScope(sec, scope, id, tokens, spend, now, ttl, minuteTtl);
      && SectionInv(sec', now)
      && Fields(sec') == Fields(sec)[id := LeaseFor(scope.keys, tokens, spend)]
      && Scores(sec') == Scores(sec)[id := now + ttl]
  {
    HoldScopeShape(sec, scope, id, tokens, spend, now, ttl, minuteTtl);
    hide HeldCounters;
    hide HoldScope;
    hide PutLease;
    var c, c' := sec.counters, HeldCounters(sec.counters, scope.keys, tokens, spend, now, ttl, minuteTtl);
    var l := LeaseFor(scope.keys, tokens, spend);
    HeldCountersGood(c, scope, tokens, spend, now, ttl, minuteTtl);
    HeldCountersGain(c, Fields(sec), id, scope.keys, tokens, spend, now, ttl, minuteTtl);
    forall k ensures OldHold(Fields(sec), id, k) <= LeaseHold(l, k) {
      HoldNonNegative(l, k);
    }
    PutLeaseInv(c, c', Fields(sec), Scores(sec), id, l, now, now + ttl);
    PutLeaseSynced(sec, id, l, now + ttl, minuteTtl);
  }

  lemma HoldScopeShape(sec: Section, scope: Scope, id: Id, tokens: int, spend: int,
                       now: int, ttl: int, minuteTtl: int)
    ensures HoldScope(sec, scope, id, tokens, spend, now, ttl, minuteTtl)
         == PutLease(sec, id, LeaseFor(scope.keys, tokens, spend), now + ttl, minuteTtl)
              .(counters := HeldCounters(sec.counters, scope.keys, tokens, spend, now, ttl, minuteTtl))
  {
    hide RenewHeld;
    hide ReserveCounters;
  }

  // --- Top up -------------------------------------------------------------

  function TopUpAmount(keys: QuotaKeys, tokens: int, spend: int, k: Key): int {
    if k.Active? || k.Rpm? then 0 else ReserveAmount(keys, tokens, spend, k)
  }

  predicate ToppedAt(c: map<Key, Counter>, c': map<Key, Counter>, k: Key, d: int) {
    if d <= 0 then SameAt(c, c', k)
    else RaisedAt(c, c', k, d) && (k.Tpm? || c'[k].expireAt == (if k in c then c[k].expireAt else None))
  }

  lemma TopUpCountersAt(c: map<Key, Counter>, keys: QuotaKeys, tokens: int, spend: int,
                        now: int, minuteTtl: int, k: Key)
    requires GoodKeys(keys) && k != NoKey
    ensures ToppedAt(c, TopUpCounters(c, keys, tokens, spend, now, minuteTtl), k, TopUpAmount(keys, tokens, spend, k))
  {
    hide AddHold;
    hide AddExpiring;
    var c1 := if tokens > 0 then AddExpiring(c, keys.tpm, tokens, now + minuteTtl) else c;
    var c2 := if spend > 0 then AddHold(c1, keys.spendHeld, spend) else c1;
    var c3 := if tokens > 0 then AddHold(c2, keys.dayHeld, tokens) else c2;
    AddExpiringAt(c, keys.tpm, tokens, now + minuteTtl, k);
    AddHoldAt(c1, keys.spendHeld, spend, k);
    AddHoldAt(c2, keys.dayHeld, tokens, k);
    AddHoldAt(c3, keys.monthHeld, tokens, k);
  }

  function ToppedCounters(c: map<Key, Counter>, keys: QuotaKeys, tokens: int, spend: int,
                          now: int, ttl: int): map<Key, Counter>
  {
    RenewHeld(TopUpCounters(c, keys, tokens, spend, now, MinuteTtl(now)), keys, now, now + ttl)
  }

  lemma ToppedCountersAt(c: map<Key, Counter>, keys: QuotaKeys, tokens: int, spend: int,
                         now: int, ttl: int, k: Key)
    requires GoodKeys(keys) && k != NoKey
    ensures var c', d := ToppedCounters(c, keys, tokens, spend, now, ttl), TopUpAmount(keys, tokens, spend, k);
      && (k in c' <==> k in c || d > 0)
      && (k in c' ==> c'[k].value == Val(c, k) + Max(d, 0))
      && (HeldKey(keys, k) && k in c' ==> RenewedAt(c, c', k, now + ttl))
      && (!HeldKey(keys, k) && k != keys.tpm ==> SameAt(c, c', k))
  {
    hide TopUpCounters;
    hide RenewHeld;
    var c1 := TopUpCounters(c, keys, tokens, spend, now, MinuteTtl(now));
    TopUpCountersAt(c, keys, tokens, spend, now, MinuteTtl(now), k);
    RenewHeldAt(c1, keys, now, now + ttl, k);
    ToppedThenRenewed(c, c1, ToppedCounters(c, keys, tokens, spend, now, ttl), keys,
                      TopUpAmount(keys, tokens, spend, k), now + ttl, k);
  }

  lemma ToppedThenRenewed(c: map<Key, Counter>, c1: map<Key, Counter>, c2: map<Key, Counter>,
                          keys: QuotaKeys, d: int, until: int, k: Key)
    requires GoodKeys(keys) && k != NoKey && ToppedAt(c, c1, k, d)
    requires d > 0 ==> HeldKey(keys, k) || k == keys.tpm
    requires if HeldKey(keys, k) && k in c1
             then k in c2 && c2[k].value == c1[k].value && RenewedAt(c1, c2, k, until)
             else SameAt(c1, c2, k)
    ensures k in c2 <==> k in c || d > 0
    ensures k in c2 ==> c2[k].value == Val(c, k) + Max(d, 0)
    ensures HeldKey(keys, k) && k in c2 ==> RenewedAt(c, c2, k, until)
    ensures !HeldKey(keys, k) && k != keys.tpm ==> SameAt(c, c2, k)
  {
  }

  lemma ToppedNoKey(c: map<Key, Counter>, keys: QuotaKeys, tokens: int, spend: int, now: int, ttl: int)
    requires NoKey !in c
    ensures NoKey !in ToppedCounters(c, keys, tokens, spend, now, ttl)
  {
  }

  lemma ToppedCountersGood(sec: Section, scope: Scope, id: Id, tokens: int, spend: int, now: int, ttl: int)
    requires GoodKeys(scope.keys) && GoodCounters(sec.counters) && Amounts(tokens, spend)
    requires CheckTopUp(sec, scope, id, tokens, spend) == Pass
    ensures GoodCounters(ToppedCounters(sec.counters, scope.keys, tokens, spend, now, ttl))
  {
    hide ToppedCounters;
    var c, keys := sec.counters, scope.keys;
    var c' := ToppedCounters(c, keys, tokens, spend, now, ttl);
    ToppedNoKey(c, keys, tokens, spend, now, ttl);
    forall k | k in c'
      ensures 0 <= c'[k].value <= MAX_QUOTA && (IsHeld(k) ==> c'[k].expireAt.Some?)
    {
      ToppedCountersAt(c, keys, tokens, spend, now, ttl, k);
      assert Val(c, k) + TopUpAmount(keys, tokens, spend, k) <= MAX_QUOTA;
    }
  }

  function GrownLease(l: Lease, tokens: int, spend: int): Lease {
    l.(tokens := l.tokens + tokens, spend := l.spend + spend)
  }

  lemma ToppedCountersGain(c: map<Key, Counter>, fields: map<Id, Lease>, scores: map<Id, int>, id: Id,
                           keys: QuotaKeys, heldTokens: int, heldSpend: int,
                           tokens: int, spend: int, now: int, ttl: int)
    requires GoodKeys(keys) && LedgerInv(c, fields, scores, now) && Amounts(tokens, spend)
    requires id in fields && id in scores && now <= scores[id]
    requires fields[id] == LeaseFor(keys, heldTokens, heldSpend)
    ensures Gains(c, ToppedCounters(c, keys, tokens, spend, now, ttl),
                  fields, id, GrownLease(fields[id], tokens, spend), now + ttl)
  {
    hide ToppedCounters;
    var c', l := ToppedCounters(c, keys, tokens, spend, now, ttl), GrownLease(fields[id], tokens, spend);
    forall k | IsHeld(k)
      ensures GainsAt(c, c', k, LeaseHold(l, k) - OldHold(fields, id, k), LeaseHold(l, k), now + ttl)
    {
      ToppedCountersAt(c, keys, tokens, spend, now, ttl, k);
      assert LeaseHold(l, k) - LeaseHold(fields[id], k) == TopUpAmount(keys, tokens, spend, k);
      if LeaseHold(fields[id], k) > 0 {
        assert Outlives(c, k, scores[id]);
      }
    }
  }

  lemma ToppedLedgerInv(sec: Section, scope: Scope, id: Id, heldTokens: int, heldSpend: int,
                        tokens: int, spend: int, now: int, ttl: int)
    requires SectionInv(sec, now) && AllLive(sec, now) && id in Fields(sec)
    requires Fields(sec)[id] == LeaseFor(scope.keys, heldTokens, heldSpend)
    requires GoodKeys(scope.keys) && Amounts(tokens, spend) && Amounts(heldTokens + tokens, heldSpend + spend)
    requires GoodCounters(ToppedCounters(sec.counters, scope.keys, tokens, spend, now, ttl))
    ensures LedgerInv(ToppedCounters(sec.counters, scope.keys, tokens, spend, now, ttl),
                      Fields(sec)[id := GrownLease(Fields(sec)[id], tokens, spend)],
                      Scores(sec)[id := now + ttl], now)
  {
    hide ToppedCounters;
    var c, c' := sec.counters, ToppedCounters(sec.counters, scope.keys, tokens, spend, now, ttl);
    var fields, scores := Fields(sec), Scores(sec);
    var l := GrownLease(fields[id], tokens, spend);
    ToppedCountersGain(c, fields, scores, id, scope.keys, heldTokens, heldSpend, tokens, spend, now, ttl);
    forall k ensures OldHold(fields, id, k) <= LeaseHold(l, k) {
    }
    PutLeaseInv(c, c', fields, scores, id, l, now, now + ttl);
  }

  lemma TopUpScopeKeepsInv(sec: Section, scope: Scope, id: Id, heldTokens: int, heldSpend: int,
                           tokens: int, spend: int, now: int, ttl: int)
    requires SectionInv(sec, now) && AllLive(sec, now) && id in Fields(sec)
    requires Fields(sec)[id] == LeaseFor(scope.keys, heldTokens, heldSpend)
    requires GoodKeys(scope.keys) && Amounts(tokens, spend) && Amounts(heldTokens + tokens, heldSpend + spend)
    requires GoodCounters(ToppedCounters(sec.counters, scope.keys, tokens, spend, now, ttl))
    ensures var sec' := TopUpScope(sec, scope, id, tokens, spend, now, ttl);
      && SectionInv(sec', now)
      && Fields(sec') == Fields(sec)[id := LeaseFor(scope.keys, heldTokens + tokens, heldSpend + spend)]
      && Scores(sec') == Scores(sec)[id := now + ttl]
  {
    hide LedgerInv;
    hide ToppedCounters;
    hide TopUpScope;
    hide PutLease;
    TopUpScopeShape(sec, scope, id, tokens, spend, now, ttl);
    ToppedLedgerInv(sec, scope, id, heldTokens, heldSpend, tokens, spend, now, ttl);
    PutLeaseSynced(sec, id, GrownLease(Fields(sec)[id], tokens, spend), now + ttl, MinuteTtl(now));
  }

  lemma TopUpScopeShape(sec: Section, scope: Scope, id: Id, tokens: int, spend: int, now: int, ttl: int)
    requires id in Fields(sec)
    ensures TopUpScope(sec, scope, id, tokens, spend, now, ttl)
         == PutLease(sec, id, GrownLease(Fields(sec)[id], tokens, spend), now + ttl, MinuteTtl(now))
              .(counters := ToppedCounters(sec.counters, scope.keys, tokens, spend, now, ttl))
  {
    hide RenewHeld;
    hide TopUpCounters;
  }

  // --- Settle -------------------------------------------------------------

  lemma SettleMinuteAt(c: map<Key, Counter>, at: Key, heldTokens: int, retained: int, k: Key)
    requires k != NoKey
    ensures k != at ==> SameAt(c, SettleMinute(c, at, heldTokens, retained), k)
  {
  }

  lemma SettleMinuteGood(c: map<Key, Counter>, at: Key, heldTokens: int, retained: int)
    requires GoodCounters(c) && (at == NoKey || at.Tpm?)
    requires retained > heldTokens && at in c ==> retained - heldTokens <= MAX_QUOTA - Val(c, at)
    ensures GoodCounters(SettleMinute(c, at, heldTokens, retained))
  {
    if heldTokens > retained {
      DecrementGood(c, at, heldTokens - retained);
    }
  }

  lemma ReleaseHeldAt(c: map<Key, Counter>, keys: QuotaKeys, heldTokens: int, heldSpend: int, k: Key)
    requires GoodKeys(keys) && GoodCounters(c) && k != NoKey
    ensures var c' := ReleaseHeld(c, keys, heldTokens, heldSpend);
      LosesAt(c, c', k, LeaseHold(LeaseFor(keys, heldTokens, heldSpend), k))
  {
    hide Decrement;
    var c1 := Decrement(c, keys.active, 1);
    var c2 := Decrement(c1, keys.spendHeld, heldSpend);
    var c3 := Decrement(c2, keys.dayHeld, heldTokens);
    DecrementGood(c, keys.active, 1);
    DecrementGood(c1, keys.spendHeld, heldSpend);
    DecrementGood(c2, keys.dayHeld, heldTokens);
    DecrementAt(c, keys.active, 1, k);
    DecrementAt(c1, keys.spendHeld, heldSpend, k);
    DecrementAt(c2, keys.dayHeld, heldTokens, k);
    DecrementAt(c3, keys.monthHeld, heldTokens, k);
  }

  lemma ReleaseHeldGood(c: map<Key, Counter>, keys: QuotaKeys, heldTokens: int, heldSpend: int)
    requires GoodCounters(c)
    ensures GoodCounters(ReleaseHeld(c, keys, heldTokens, heldSpend))
  {
    var c1 := Decrement(c, keys.active, 1);
    var c2 := Decrement(c1, keys.spendHeld, heldSpend);
    var c3 := Decrement(c2, keys.dayHeld, heldTokens);
    DecrementGood(c, keys.active, 1);
    DecrementGood(c1, keys.spendHeld, heldSpend);
    DecrementGood(c2, keys.dayHeld, heldTokens);
    DecrementGood(c3, keys.monthHeld, heldTokens);
  }

  lemma AddUsedAt(c: map<Key, Counter>, at: Key, amount: int, until: int, now: int, grace: int, k: Key)
    requires k != NoKey
    ensures var c' := AddUsed(c, at, amount, until, now, grace);
      if at != k || amount <= 0 then SameAt(c, c', k) else RaisedAt(c, c', k, amount)
  {
  }

  lemma AddUsedGood(c: map<Key, Counter>, at: Key, amount: int, until: int, now: int, grace: int)
    requires GoodCounters(c) && !IsHeld(at)
    requires at != NoKey ==> amount <= MAX_QUOTA - Val(c, at)
    ensures GoodCounters(AddUsed(c, at, amount, until, now, grace))
  {
    var c' := AddUsed(c, at, amount, until, now, grace);
    forall k | k in c'
      ensures 0 <= c'[k].value <= MAX_QUOTA && (IsHeld(k) ==> c'[k].expireAt.Some?)
    {
      if k != NoKey {
        AddUsedAt(c, at, amount, until, now, grace, k);
      }
    }
  }

  function UsedAmount(keys: QuotaKeys, tokens: int, spend: int, k: Key): int {
    match k
    case SpendUsed(_) => if k == keys.spendUsed then spend else 0
    case DayUsed(_) => if k == keys.dayUsed then tokens else 0
    case MonthUsed(_) => if k == keys.monthUsed then tokens else 0
    case _ => 0
  }

  lemma CommitUsedAt(c: map<Key, Counter>, scope: Scope, tokens: int, spend: int, now: int, grace: int, k: Key)
    requires GoodKeys(scope.keys) && k != NoKey
    ensures var c', d := CommitUsed(c, scope, tokens, spend, now, grace), UsedAmount(scope.keys, tokens, spend, k);
      if d <= 0 then SameAt(c, c', k) else RaisedAt(c, c', k, d)
  {
    var keys, expires := scope.keys, scope.expires;
    var c1 := AddUsed(c, keys.spendUsed, spend, expires.spendUsed, now, grace);
    var c2 := AddUsed(c1, keys.dayUsed, tokens, expires.dayUsed, now, grace);
    AddUsedAt(c, keys.spendUsed, spend, expires.spendUsed, now, grace, k);
    AddUsedAt(c1, keys.dayUsed, tokens, expires.dayUsed, now, grace, k);
    AddUsedAt(c2, keys.monthUsed, tokens, expires.monthUsed, now, grace, k);
  }

  lemma CommitUsedGood(c: map<Key, Counter>, scope: Scope, tokens: int, spend: int, now: int, grace: int)
    requires GoodKeys(scope.keys) && GoodCounters(c)
    requires forall k :: k != NoKey ==> Val(c, k) + UsedAmount(scope.keys, tokens, spend, k) <= MAX_QUOTA
    ensures GoodCounters(CommitUsed(c, scope, tokens, spend, now, grace))
  {
    var keys, expires := scope.keys, scope.expires;
    var c1 := AddUsed(c, keys.spendUsed, spend, expires.spendUsed, now, grace);
    var c2 := AddUsed(c1, keys.dayUsed, tokens, expires.dayUsed, now, grace);
    AddUsedGood(c, keys.spendUsed, spend, expires.spendUsed, now, grace);
    if keys.dayUsed != NoKey {
      AddUsedAt(c, keys.spendUsed, spend, expires.spendUsed, now, grace, keys.dayUsed);
      assert Val(c, keys.dayUsed) + UsedAmount(keys, tokens, spend, keys.dayUsed) <= MAX_QUOTA;
    }
    AddUsedGood(c1, keys.dayUsed, tokens, expires.dayUsed, now, grace);
    if keys.monthUsed != NoKey {
      AddUsedAt(c, keys.spendUsed, spend, expires.spendUsed, now, grace, keys.monthUsed);
      AddUsedAt(c1, keys.dayUsed, tokens, expires.dayUsed, now, grace, keys.monthUsed);
      assert Val(c, keys.monthUsed) + UsedAmount(keys, tokens, spend, keys.monthUsed) <= MAX_QUOTA;
    }
    AddUsedGood(c2, keys.monthUsed, tokens, expires.monthUsed, now, grace);
  }

  // Settlement takes back exactly the lease on every held counter.
  lemma SettleCountersAt(c: map<Key, Counter>, scope: Scope, heldTokens: int, heldSpend: int,
                         commit: bool, tokens: int, spend: int, now: int, grace: int, k: Key)
    requires GoodKeys(scope.keys) && GoodCounters(c) && IsHeld(k)
    requires CanSettle(c, scope.keys, heldTokens, commit, tokens, spend) && Amounts(tokens, spend)
    requires 0 <= heldTokens
    ensures LosesAt(c, SettleCounters(c, scope, heldTokens, heldSpend, commit, tokens, spend, now, grace), k,
                    LeaseHold(LeaseFor(scope.keys, heldTokens, heldSpend), k))
  {
    var retained := if commit then tokens else 0;
    var c1 := SettleMinute(c, scope.keys.tpm, heldTokens, retained);
    SettleMinuteGood(c, scope.keys.tpm, heldTokens, retained);
    SettleMinuteAt(c, scope.keys.tpm, heldTokens, retained, k);
    hide SettleMinute;
    var c2 := ReleaseHeld(c1, scope.keys, heldTokens, heldSpend);
    ReleaseHeldAt(c1, scope.keys, heldTokens, heldSpend, k);
    hide ReleaseHeld;
    CommitUsedAt(c2, scope, tokens, spend, now, grace, k);
    hide CommitUsed;
  }

  lemma SettleCountersGood(c: map<Key, Counter>, scope: Scope, heldTokens: int, heldSpend: int,
                           commit: bool, tokens: int, spend: int, now: int, grace: int)
    requires GoodKeys(scope.keys) && GoodCounters(c)
    requires CanSettle(c, scope.keys, heldTokens, commit, tokens, spend) && Amounts(tokens, spend)
    requires 0 <= heldTokens
    ensures GoodCounters(SettleCounters(c, scope, heldTokens, heldSpend, commit, tokens, spend, now, grace))
  {
    hide SettleMinute;
    hide ReleaseHeld;
    hide CommitUsed;
    var retained := if commit then tokens else 0;
    var c1 := SettleMinute(c, scope.keys.tpm, heldTokens, retained);
    var c2 := ReleaseHeld(c1, scope.keys, heldTokens, heldSpend);
    SettleMinuteGood(c, scope.keys.tpm, heldTokens, retained);
    ReleaseHeldGood(c1, scope.keys, heldTokens, heldSpend);
    if commit {
      forall k | k != NoKey
        ensures Val(c2, k) + UsedAmount(scope.keys, tokens, spend, k) <= MAX_QUOTA
      {
        SettleMinuteAt(c, scope.keys.tpm, heldTokens, retained, k);
        ReleaseHeldAt(c1, scope.keys, heldTokens, heldSpend, k);
      }
      CommitUsedGood(c2, scope, tokens, spend, now, grace);
    }
  }

  lemma RefreshLeasesSynced(sec: Section, grace: int)
    requires Scores(sec).Keys == Fields(sec).Keys && grace >= 0
    ensures var sec' := RefreshLeases(sec, grace);
      Synced(sec') && Fields(sec') == Fields(sec) && Scores(sec') == Scores(sec) && sec'.counters == sec.counters
  {
    if Scores(sec) == map[] {
      assert Fields(sec) == map[];
    } else {
      var m := Scores(sec);
      var x :| x in m && m[x] == Latest(m);
      assert x in Fields(sec);
    }
  }

  lemma SettleScopeKeepsInv(sec: Section, scope: Scope, id: Id, heldTokens: int, heldSpend: int,
                            commit: bool, tokens: int, spend: int, now: int, grace: int)
    requires SectionInv(sec, now) && id in Fields(sec)
    requires Fields(sec)[id] == LeaseFor(scope.keys, heldTokens, heldSpend)
    requires GoodKeys(scope.keys) && Amounts(tokens, spend) && grace >= 0 && 0 <= heldTokens
    requires CanSettle(sec.counters, scope.keys, heldTokens, commit, tokens, spend)
    ensures var sec' := SettleScope(sec, scope, id, heldTokens, heldSpend, commit, tokens, spend, now, grace);
      && SectionInv(sec', now)
      && Fields(sec') == Fields(sec) - {id}
      && Scores(sec') == Scores(sec) - {id}
  {
    hide SettleCounters;
    var c, fields, scores := sec.counters, Fields(sec), Scores(sec);
    var c' := SettleCounters(c, scope, heldTokens, heldSpend, commit, tokens, spend, now, grace);
    SettleCountersGood(c, scope, heldTokens, heldSpend, commit, tokens, spend, now, grace);
    forall k | IsHeld(k) ensures LosesAt(c, c', k, LeaseHold(fields[id], k)) {
      SettleCountersAt(c, scope, heldTokens, heldSpend, commit, tokens, spend, now, grace, k);
    }
    RemoveLeaseInv(c, c', fields, scores, id, now);
    var removed := Section(c', RemoveScores(sec.leases, {id}), RemoveFields(sec.data, {id}));
    assert Fields(removed) == fields - {id};
    assert Scores(removed) == scores - {id};
    assert Fields(removed).Keys == Scores(removed).Keys;
    RefreshLeasesSynced(removed, grace);
    ShrinkScores(c', fields - {id}, scores, scores - {id}, now);
  }
}
