/** The quota scripts as they run: loops over scopes and expired leases that
    rewrite the database in place, each proved equal to its specification. */
module RedisScripts {
  import opened QuotaTypes
  import opened Spec = RedisLedger

  lemma {:induction false} OrderedLength(m: map<Id, int>)
    ensures |Ordered(m)| == |m|
    decreases |m|
  {
    if m != map[] {
      OrderedLength(m - {First(m)});
    }
  }

  class QuotaDatabase {
    var sections: map<ScopeRef, Section>
    var tickets: map<Id, Ticket>
    var settled: map<Id, int>
    var settledExpireAt: int

    function View(): Db
      reads this
    {
      Db(sections, tickets, settled, settledExpireAt)
    }

    constructor ()
      ensures View() == EMPTY_DB
    {
      sections, tickets, settled, settledExpireAt := map[], map[], map[], 0;
    }

    method Put(ref: ScopeRef, sec: Section)
      modifies this`sections
      ensures View() == PutSec(old(View()), ref, sec)
    {
      if sec == EMPTY_SECTION {
        sections := sections - {ref};
      } else {
        sections := sections[ref := sec];
      }
    }

    // Redis drops keys whose expiry has passed before a script can see them.
    method ExpireKeys(now: int)
      modifies this
      ensures View() == Sweep(old(View()), now)
    {
      sections := map ref | ref in sections && SweepSection(sections[ref], now) != EMPTY_SECTION
                    :: SweepSection(sections[ref], now);
      tickets := map id | id in tickets && now <= tickets[id].expireAt :: tickets[id];
      if settledExpireAt < now {
        settled := map[];
      }
    }

    method PruneScope(ref: ScopeRef, now: int, protected: Option<Id>) returns (pruned: nat)
      modifies this`sections
      ensures View() == PutSec(old(View()), ref, PruneSection(Sec(old(View()), ref), now, protected))
      ensures pruned == |Expired(Sec(old(View()), ref), now, protected)|
    {
      var sec := Sec(View(), ref);
      var expired := Expired(sec, now, protected);
      var ids := Ordered(expired);
      OrderedLength(expired);
      pruned := |ids|;
      var work := sec;
      for i := 0 to |ids|
        invariant DropLeases(work, ids[i..]) == DropLeases(sec, ids)
      {
        var id := ids[i];
        assert ids[i..][0] == id && ids[i..][1..] == ids[i + 1..];
        if id in Fields(work) {
          var lease := Fields(work)[id];
          var counters := Decrement(work.counters, lease.active, 1);
          counters := Decrement(counters, lease.tpm, lease.tokens);
          counters := Decrement(counters, lease.spendHeld, lease.spend);
          counters := Decrement(counters, lease.dayHeld, lease.tokens);
          counters := Decrement(counters, lease.monthHeld, lease.tokens);
          work := Section(counters, work.leases, RemoveFields(work.data, {id}));
        }
      }
      assert ids[|ids|..] == [];
      var leases := RemoveScores(sec.leases, expired.Keys);
      if protected.None? && leases.None? {
        Put(ref, Section(work.counters, None, None));
      } else {
        Put(ref, Section(work.counters, leases, work.data));
      }
    }

    method PruneScopes(scopes: seq<Scope>, now: int, protected: Option<Id>)
      modifies this`sections
      ensures View() == ForScopes(old(View()), scopes, Prune(now, protected))
    {
      ghost var a := Prune(now, protected);
      for i := 0 to |scopes|
        invariant ForScopes(View(), scopes[i..], a) == ForScopes(old(View()), scopes, a)
      {
        assert scopes[i..][0] == scopes[i] && scopes[i..][1..] == scopes[i + 1..];
        var n := PruneScope(scopes[i].ref, now, protected);
      }
    }

    method CheckReserveScopes(scopes: seq<Scope>, tokens: int, spend: int) returns (v: Verdict)
      ensures v == CheckReserveAll(View(), scopes, tokens, spend)
    {
      for i := 0 to |scopes|
        invariant CheckReserveAll(View(), scopes[i..], tokens, spend) == CheckReserveAll(View(), scopes, tokens, spend)
      {
        assert scopes[i..][0] == scopes[i] && scopes[i..][1..] == scopes[i + 1..];
        v := CheckReserve(Sec(View(), scopes[i].ref).counters, scopes[i], tokens, spend);
        if v != Pass {
          return;
        }
      }
      return Pass;
    }

    method HoldScopes(scopes: seq<Scope>, id: Id, tokens: int, spend: int, now: int, ttl: int, minuteTtl: int)
      modifies this`sections
      ensures View() == ForScopes(old(View()), scopes, Hold(id, tokens, spend, now, ttl, minuteTtl))
    {
      ghost var a := Hold(id, tokens, spend, now, ttl, minuteTtl);
      for i := 0 to |scopes|
        invariant ForScopes(View(), scopes[i..], a) == ForScopes(old(View()), scopes, a)
      {
        assert scopes[i..][0] == scopes[i] && scopes[i..][1..] == scopes[i + 1..];
        Put(scopes[i].ref,
            HoldScope(Sec(View(), scopes[i].ref), scopes[i], id, tokens, spend, now, ttl, minuteTtl));
      }
    }

    method Reserve(scopes: seq<Scope>, estimate: EstimatedUsage, id: Id, fingerprint: Fingerprint,
                   now: int, ttl: int, minuteTtl: int) returns (r: ReserveResult)
      modifies this
      ensures (View(), r) == Spec.ReserveScript(old(View()), scopes, estimate, id, fingerprint, now, ttl, minuteTtl)
    {
      hide ForScopes;
      hide CheckReserveAll;
      hide Sweep;
      var tokens, spend := EstimatedTokens(estimate), estimate.spend;
      ExpireKeys(now);
      PruneScopes(scopes, now, None);
      settled := map x | x in settled && now < settled[x] :: settled[x];
      if id in settled {
        return Conflict;
      }
      if id in tickets {
        return if tickets[id].fingerprint == fingerprint then Exists else Conflict;
      }
      var v := CheckReserveScopes(scopes, tokens, spend);
      if v != Pass {
        return Refused(v);
      }
      HoldScopes(scopes, id, tokens, spend, now, ttl, minuteTtl);
      tickets := tickets[id := Ticket(estimate, scopes, fingerprint, now + ttl)];
      return Reserved;
    }

    method CheckTopUpScopes(scopes: seq<Scope>, id: Id, tokens: int, spend: int) returns (v: Verdict)
      ensures v == CheckTopUpAll(View(), scopes, id, tokens, spend)
    {
      for i := 0 to |scopes|
        invariant CheckTopUpAll(View(), scopes[i..], id, tokens, spend) == CheckTopUpAll(View(), scopes, id, tokens, spend)
      {
        assert scopes[i..][0] == scopes[i] && scopes[i..][1..] == scopes[i + 1..];
        v := CheckTopUp(Sec(View(), scopes[i].ref), scopes[i], id, tokens, spend);
        if v != Pass {
          return;
        }
      }
      return Pass;
    }

    method TopUpScopes(scopes: seq<Scope>, id: Id, tokens: int, spend: int, now: int, ttl: int)
      modifies this`sections
      ensures View() == ForScopes(old(View()), scopes, TopUp(id, tokens, spend, now, ttl))
    {
      ghost var a := TopUp(id, tokens, spend, now, ttl);
      for i := 0 to |scopes|
        invariant ForScopes(View(), scopes[i..], a) == ForScopes(old(View()), scopes, a)
      {
        assert scopes[i..][0] == scopes[i] && scopes[i..][1..] == scopes[i + 1..];
        var sec := Sec(View(), scopes[i].ref);
        if id in Fields(sec) {
          sec := TopUpScope(sec, scopes[i], id, tokens, spend, now, ttl);
        }
        Put(scopes[i].ref, sec);
      }
    }

    method TopUpTicket(id: Id, tokens: int, spend: int, now: int, ttl: int) returns (v: Verdict)
      requires 0 <= tokens <= MAX_QUOTA && 0 <= spend <= MAX_QUOTA
      modifies this
      ensures (View(), v) == Spec.TopUpScript(old(View()), id, tokens, spend, now, ttl)
    {
      hide ForScopes;
      hide CheckTopUpAll;
      hide Sweep;
      ExpireKeys(now);
      if id !in tickets {
        return Missing;
      }
      var t := tickets[id];
      var heldTokens, heldSpend := HeldTokens(t), t.held.spend;
      if heldTokens < 0 || heldTokens > MAX_QUOTA || tokens > MAX_QUOTA - heldTokens
         || heldSpend < 0 || heldSpend > MAX_QUOTA || spend > MAX_QUOTA - heldSpend {
        return Capacity;
      }
      PruneScopes(t.scopes, now, Some(id));
      v := CheckTopUpScopes(t.scopes, id, tokens, spend);
      if v == Pass {
        TopUpScopes(t.scopes, id, tokens, spend, now, ttl);
        tickets := tickets[id := t.(held := EstimatedUsage(heldTokens + tokens, 0, heldSpend + spend),
                                    expireAt := now + ttl)];
      }
    }

    method SettleScopes(scopes: seq<Scope>, id: Id, heldTokens: int, heldSpend: int,
                        commit: bool, tokens: int, spend: int, now: int)
      modifies this`sections
      ensures View() == ForScopes(old(View()), scopes, Settle(id, heldTokens, heldSpend, commit, tokens, spend, now))
    {
      ghost var a := Settle(id, heldTokens, heldSpend, commit, tokens, spend, now);
      for i := 0 to |scopes|
        invariant ForScopes(View(), scopes[i..], a) == ForScopes(old(View()), scopes, a)
      {
        assert scopes[i..][0] == scopes[i] && scopes[i..][1..] == scopes[i + 1..];
        Put(scopes[i].ref, SettleScope(Sec(View(), scopes[i].ref), scopes[i], id, heldTokens, heldSpend,
                                       commit, tokens, spend, now, BUCKET_GRACE));
      }
    }

    method SettleTicket(id: Id, commit: bool, tokens: int, spend: int, now: int) returns (r: SettleResult)
      modifies this
      ensures (View(), r) == Spec.SettleScript(old(View()), id, commit, tokens, spend, now)
    {
      hide ForScopes;
      hide Sweep;
      hide CanSettleAll;
      hide LeasesPresent;
      ExpireKeys(now);
      settled := map x | x in settled && now < settled[x] :: settled[x];
      if id !in tickets {
        return if id in settled then AlreadySettled else NotFound;
      }
      var t := tickets[id];
      if !LeasesPresent(View(), t.scopes, id) {
        return NotFound;
      }
      PruneScopes(t.scopes, now, Some(id));
      var heldTokens, heldSpend := HeldTokens(t), t.held.spend;
      if heldTokens < 0 || heldTokens > MAX_QUOTA || heldSpend < 0 || heldSpend > MAX_QUOTA {
        return OverCapacity;
      }
      if !CanSettleAll(View(), t.scopes, heldTokens, commit, tokens, spend) {
        return OverCapacity;
      }
      SettleScopes(t.scopes, id, heldTokens, heldSpend, commit, tokens, spend, now);
      settled := settled[id := now + TOMBSTONE_TTL];
      settledExpireAt := now + TOMBSTONE_TTL;
      tickets := tickets - {id};
      return Settled;
    }

    method PruneLeases(ref: ScopeRef, now: int) returns (pruned: nat)
      modifies this
      ensures (View(), pruned) == Spec.PruneScript(old(View()), ref, now)
    {
      hide Sweep;
      ExpireKeys(now);
      pruned := PruneScope(ref, now, None);
    }
  }
}
