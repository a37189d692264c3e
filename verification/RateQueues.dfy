/** Rate admission measured against a reference that knows nothing of arrival
    times: every key is a queue of work, in seconds, that drains in real time.
    A request for n units under a limit is n * period / rate seconds of work, and
    a queue holds at most burst * period / rate seconds. */
module RateQueues {
  import opened QuotaTypes
  import opened Gcra
  import R = RateRequests

  /** Work left on a key at an instant. */
  datatype Queue = Queue(work: real, at: real)
  type Queues = map<string, Queue>

  function Backlog(q: Queues, key: string, now: real): real {
    if key !in q || q[key].work <= now - q[key].at then 0.0 else q[key].work - (now - q[key].at)
  }

  /** The work of n units; a period that is not positive means sixty seconds. */
  function Work(limit: R.RateLimit, n: int): real
    requires limit.rate > 0
  {
    (if limit.period > 0 then limit.period as real / 1_000_000_000.0 else 60.0) / (limit.rate as real) * (n as real)
  }

  /** What a limit admits at once; a burst that is not positive means the rate. */
  function Room(limit: R.RateLimit): int { if limit.burst > 0 then limit.burst else limit.rate }

  /** What the batch asks of the key; a sum past 64 bits counts as the largest value. */
  function Asked(rs: seq<R.Request>, key: string): int { Min(MAX_INT64, R.Demand(rs, key)) }

  predicate Fits(q: Queues, rs: seq<R.Request>, r: R.Request, now: real)
    requires R.Active(r)
  {
    Backlog(q, r.key, now) + Work(r.limit, Asked(rs, r.key)) <= Work(r.limit, Room(r.limit))
  }

  /** A batch is admitted exactly if its limits agree and every key it names
      has room for all that the batch asks of it. */
  predicate Admits(q: Queues, rs: seq<R.Request>, now: real) {
    && R.Consistent(rs)
    && forall i :: 0 <= i < |rs| && R.Active(rs[i]) ==> Fits(q, rs, rs[i], now)
  }

  ghost function Named(rs: seq<R.Request>): set<string> { set i | 0 <= i < |rs| && R.Active(rs[i]) :: rs[i].key }

  ghost function LimitFor(rs: seq<R.Request>, key: string): (limit: R.RateLimit)
    requires key in Named(rs)
    ensures limit.rate > 0
    ensures R.Consistent(rs) ==> forall i :: 0 <= i < |rs| && R.Active(rs[i]) && rs[i].key == key ==> rs[i].limit == limit
  {
    var i :| 0 <= i < |rs| && R.Active(rs[i]) && rs[i].key == key;
    rs[i].limit
  }

  /** The work of an admitted batch joins the queues it names. */
  ghost function Serve(q: Queues, rs: seq<R.Request>, now: real): Queues {
    map k | k in q.Keys + Named(rs) ::
      if k in Named(rs) then Queue(Backlog(q, k, now) + Work(LimitFor(rs, k), Asked(rs, k)), now) else q[k]
  }

  ghost function QueueStep(q: Queues, c: Call): (Queues, bool) {
    if Admits(q, c.requests, c.now) then (Serve(q, c.requests, c.now), true) else (q, false)
  }

  /** The answers of the queues over a run. */
  ghost function QueueAnswers(q: Queues, cs: seq<Call>): seq<bool>
    decreases |cs|
  {
    if cs == [] then [] else [QueueStep(q, cs[0]).1] + QueueAnswers(QueueStep(q, cs[0]).0, cs[1..])
  }

  /** The answers of AllowBatch over a run. */
  ghost function Answers(s: Cells, cs: seq<Call>): seq<bool>
    decreases |cs|
  {
    if cs == [] then []
    else
      var (s', ok) := AllowStep(s, cs[0].requests, cs[0].now);
      [ok] + Answers(s', cs[1..])
  }

  // --- The stored arrival times stand for the queues ----------------------------------------------

  ghost predicate Tracks(s: Cells, q: Queues) {
    && Lasting(s)
    && (forall k :: k in s <==> k in q)
    && forall k :: k in s ==> s[k].tat == q[k].at + q[k].work
  }

  lemma ArrivalIsBacklog(s: Cells, q: Queues, key: string, now: real)
    requires Tracks(s, q)
    ensures Arrival(s, key, now) == now + Backlog(q, key, now)
  {
  }

  lemma WorkOfDebit(r: R.Request)
    requires R.Active(r)
    ensures var d := ToDebit(r);
      && Interval(d) * (d.cost as real) == Work(r.limit, r.n)
      && Interval(d) * (d.burst as real) == Work(r.limit, Room(r.limit))
  {
  }

  lemma FitsIffConforms(s: Cells, q: Queues, rs: seq<R.Request>, r: R.Request, m: R.Request, now: real)
    requires Tracks(s, q) && R.Active(r) && R.Active(m)
    requires m.key == r.key && m.limit == r.limit && m.n == Asked(rs, r.key)
    ensures Fits(q, rs, r, now) <==> Conforms(s, ToDebit(m), now)
    ensures Next(s, ToDebit(m), now) == now + Backlog(q, r.key, now) + Work(r.limit, Asked(rs, r.key))
  {
    hide Work, Room, Interval, Tracks, Backlog, Arrival, R.Demand;
    ArrivalIsBacklog(s, q, r.key, now);
    WorkOfDebit(m);
  }

  // Every active request has its merged debit, and every merged debit its requests.
  lemma MergedFor(rs: seq<R.Request>, out: seq<R.Request>, i: nat) returns (j: nat)
    requires R.Merges(out, rs) && i < |rs| && R.Active(rs[i])
    ensures j < |out| && out[j].key == rs[i].key && out[j].limit == rs[i].limit && out[j].n == Asked(rs, rs[i].key)
  {
    hide R.Demand;
    R.FirstKeysNamed(rs, rs[i].key);
    j :| 0 <= j < |out| && R.FirstKeys(rs)[j] == rs[i].key;
    assert R.SharesLimit(rs, out[j]);
  }

  lemma RequestFor(rs: seq<R.Request>, out: seq<R.Request>, j: nat) returns (i: nat)
    requires R.Merges(out, rs) && j < |out|
    ensures i < |rs| && R.Active(rs[i]) && out[j].key == rs[i].key && out[j].limit == rs[i].limit && out[j].n == Asked(rs, rs[i].key)
  {
    hide R.Demand;
    R.FirstKeysNamed(rs, out[j].key);
    assert R.FirstKeys(rs)[j] == out[j].key;
    i :| 0 <= i < |rs| && R.Active(rs[i]) && rs[i].key == out[j].key;
    assert R.SharesLimit(rs, out[j]);
  }

  lemma AdmitsIffConforms(s: Cells, q: Queues, rs: seq<R.Request>, now: real)
    requires Tracks(s, q)
    ensures AllowStep(s, rs, now).1 <==> Admits(q, rs, now)
  {
    hide Tracks, Fits, Conforms, R.Merges, Asked, WriteAll, R.Consistent, R.Active;
    if R.Consistent(rs) {
      var out := R.MergedBatch(rs);
      MergedActive(rs, out);
      var ds := ToDebits(out);
      ScriptConforms(s, ds, now);
      if AllConform(s, ds, now) {
        forall i | 0 <= i < |rs| && R.Active(rs[i])
          ensures Fits(q, rs, rs[i], now)
        {
          var j := MergedFor(rs, out, i);
          FitsIffConforms(s, q, rs, rs[i], out[j], now);
        }
      }
      if Admits(q, rs, now) {
        forall j | 0 <= j < |ds|
          ensures Conforms(s, ds[j], now)
        {
          var i := RequestFor(rs, out, j);
          FitsIffConforms(s, q, rs, rs[i], out[j], now);
        }
      }
    }
  }

  // What one admitted batch leaves on a key it names, and on a key it does not.
  lemma NamedKeyTracks(s: Cells, q: Queues, rs: seq<R.Request>, out: seq<R.Request>, now: real, i: nat)
    requires Tracks(s, q) && R.Consistent(rs) && R.Merges(out, rs) && i < |rs| && R.Active(rs[i])
    ensures var k, s' := rs[i].key, WriteAll(s, s, ToDebits(out), now);
      k in s' && s'[k].tat == now + Backlog(q, k, now) + Work(LimitFor(rs, k), Asked(rs, k))
  {
    hide Tracks, Fits, Conforms, WriteAll, R.Consistent, Work, Asked, Backlog, Next;
    var ds := ToDebits(out);
    var j := MergedFor(rs, out, i);
    FitsIffConforms(s, q, rs, rs[i], out[j], now);
    NextIsLater(s, ds[j], now);
    WriteAllAt(s, s, ds, now, j);
  }

  lemma NextIsLater(s: Cells, d: Debit, now: real)
    requires ValidDebit(d) && d.cost > 0
    ensures Next(s, d, now) > now
  {
    CostsAdd(Interval(d), 0, d.cost);
  }

  lemma OtherKeyTracks(s: Cells, rs: seq<R.Request>, out: seq<R.Request>, now: real, k: string)
    requires R.Merges(out, rs) && k !in Named(rs)
    ensures var s' := WriteAll(s, s, ToDebits(out), now); (k in s' <==> k in s) && (k in s ==> s'[k] == s[k])
  {
    hide WriteAll, Asked;
    var ds := ToDebits(out);
    forall j | 0 <= j < |ds|
      ensures ds[j].key != k
    {
      var i := RequestFor(rs, out, j);
    }
    WriteAllElsewhere(s, s, ds, now, k);
  }

  lemma ServedTracks(s: Cells, q: Queues, rs: seq<R.Request>, now: real)
    requires Tracks(s, q) && R.Consistent(rs)
    ensures Tracks(WriteAll(s, s, ToDebits(R.MergedBatch(rs)), now), Serve(q, rs, now))
  {
    hide WriteAll, R.Consistent, Work, Asked, Backlog, R.Merges, Lasting;
    var out := R.MergedBatch(rs);
    assert forall i :: 0 <= i < |out| ==> R.Active(out[i]) by {
      MergedActive(rs, out);
    }
    var s', q' := WriteAll(s, s, ToDebits(out), now), Serve(q, rs, now);
    forall k
      ensures (k in s' <==> k in q') && (k in s' ==> s'[k].tat == q'[k].at + q'[k].work)
    {
      if k in Named(rs) {
        var i :| 0 <= i < |rs| && R.Active(rs[i]) && rs[i].key == k;
        NamedKeyTracks(s, q, rs, out, now, i);
      } else {
        OtherKeyTracks(s, rs, out, now, k);
      }
    }
    WriteAllLasting(s, s, ToDebits(out), now);
  }

  lemma MergedActive(rs: seq<R.Request>, out: seq<R.Request>)
    requires R.Merges(out, rs)
    ensures forall i :: 0 <= i < |out| ==> R.Active(out[i])
  {
  }

  lemma StepTracks(s: Cells, q: Queues, c: Call)
    requires Tracks(s, q)
    ensures AllowStep(s, c.requests, c.now).1 == QueueStep(q, c).1
    ensures Tracks(AllowStep(s, c.requests, c.now).0, QueueStep(q, c).0)
  {
    hide Tracks, WriteAll, R.Consistent, Serve, Fits, AllConform;
    AdmitsIffConforms(s, q, c.requests, c.now);
    if Admits(q, c.requests, c.now) {
      ServedTracks(s, q, c.requests, c.now);
    }
  }

  lemma {:induction false} AnswersFollowQueues(s: Cells, q: Queues, cs: seq<Call>)
    requires Tracks(s, q)
    ensures Answers(s, cs) == QueueAnswers(q, cs)
    decreases |cs|
  {
    hide Tracks, AllowStep, QueueStep;
    if cs != [] {
      StepTracks(s, q, cs[0]);
      AnswersFollowQueues(AllowStep(s, cs[0].requests, cs[0].now).0, QueueStep(q, cs[0]).0, cs[1..]);
    }
  }

  /** Over every run of request batches, with whatever limits and at whatever
      clock readings, AllowBatch admits exactly the batches that the queues admit. */
  lemma AdmitsAsQueues(cs: seq<Call>)
    ensures Answers(map[], cs) == QueueAnswers(map[], cs)
  {
    AnswersFollowQueues(map[], map[], cs);
  }

  // --- An idle key has its whole burst ---------------------------------------------------------------

  ghost function RunQueues(q: Queues, cs: seq<Call>): Queues
    decreases |cs|
  {
    if cs == [] then q else RunQueues(QueueStep(q, cs[0]).0, cs[1..])
  }

  lemma {:induction false} RunTracks(s: Cells, q: Queues, cs: seq<Call>)
    requires Tracks(s, q)
    ensures Tracks(RunCalls(s, cs), RunQueues(q, cs))
    decreases |cs|
  {
    hide Tracks, AllowStep, QueueStep;
    if cs != [] {
      StepTracks(s, q, cs[0]);
      RunTracks(AllowStep(s, cs[0].requests, cs[0].now).0, QueueStep(q, cs[0]).0, cs[1..]);
    }
  }

  /** Every call that named the key did so under the limit, long enough ago for
      a full queue to have drained. */
  predicate IdleSince(cs: seq<Call>, key: string, limit: R.RateLimit, now: real)
    requires limit.rate > 0
  {
    forall i, j :: 0 <= i < |cs| && 0 <= j < |cs[i].requests| && R.Active(cs[i].requests[j]) && cs[i].requests[j].key == key ==>
      cs[i].requests[j].limit == limit && cs[i].now + Work(limit, Room(limit)) <= now
  }

  predicate Drained(q: Queues, key: string, now: real) { key in q ==> q[key].at + q[key].work <= now }

  lemma StepDrained(q: Queues, c: Call, key: string, limit: R.RateLimit, now: real)
    requires limit.rate > 0 && IdleSince([c], key, limit, now) && Drained(q, key, now)
    ensures Drained(QueueStep(q, c).0, key, now)
  {
    hide Work, Asked, Backlog, Room, R.Consistent;
    if Admits(q, c.requests, c.now) && key in Named(c.requests) {
      var i :| 0 <= i < |c.requests| && R.Active(c.requests[i]) && c.requests[i].key == key;
      assert [c][0].requests[i].limit == limit;
      assert Fits(q, c.requests, c.requests[i], c.now);
      assert LimitFor(c.requests, key) == limit;
    }
  }

  lemma {:induction false} RunDrained(q: Queues, cs: seq<Call>, key: string, limit: R.RateLimit, now: real)
    requires limit.rate > 0 && IdleSince(cs, key, limit, now) && Drained(q, key, now)
    ensures Drained(RunQueues(q, cs), key, now)
    decreases |cs|
  {
    hide Drained, QueueStep, Work;
    if cs != [] {
      assert [cs[0]][0] == cs[0];
      StepDrained(q, cs[0], key, limit, now);
      RunDrained(QueueStep(q, cs[0]).0, cs[1..], key, limit, now);
    }
  }

  lemma WorkGrows(limit: R.RateLimit, m: int, n: int)
    requires limit.rate > 0 && m <= n
    ensures Work(limit, m) <= Work(limit, n)
  {
    var unit := (if limit.period > 0 then limit.period as real / 1_000_000_000.0 else 60.0) / (limit.rate as real);
    assert unit > 0.0;
    assert unit * ((n - m) as real) >= 0.0;
    assert unit * (n as real) == unit * (m as real) + unit * ((n - m) as real);
  }

  /** A batch with agreeing limits that asks at most the burst of every key is
      admitted if the keys it names have been idle for as long as a burst takes to
      drain, whatever happened on other keys. */
  lemma IdleKeysAdmit(before: seq<Call>, rs: seq<R.Request>, now: real)
    requires R.Consistent(rs)
    requires forall i :: 0 <= i < |rs| && R.Active(rs[i]) ==>
      R.Demand(rs, rs[i].key) <= Room(rs[i].limit) && IdleSince(before, rs[i].key, rs[i].limit, now)
    ensures AllowStep(RunCalls(map[], before), rs, now).1
  {
    hide Tracks, AllowStep, RunCalls, RunQueues, IdleSince, Work, Room, R.Demand;
    TracksEmpty();
    RunTracks(map[], map[], before);
    var s, q := RunCalls(map[], before), RunQueues(map[], before);
    forall i | 0 <= i < |rs| && R.Active(rs[i])
      ensures Fits(q, rs, rs[i], now)
    {
      var key, limit := rs[i].key, rs[i].limit;
      RunDrained(map[], before, key, limit, now);
      assert Backlog(q, key, now) == 0.0;
      WorkGrows(limit, Asked(rs, key), Room(limit));
    }
    AdmitsIffConforms(s, q, rs, now);
  }

  lemma TracksEmpty()
    ensures Tracks(map[], map[])
  {
  }
}
