/** Batch rate admission in Redis (store/redis.go), the generic cell rate
    algorithm read over the reals: a key stores its theoretical arrival time and
    expires by itself. */
module Gcra {
  import opened QuotaTypes
  import R = RateRequests

  // A debit as the script receives it: burst, rate and period are positive.
  datatype Debit = Debit(key: string, burst: nat, rate: nat, period: real, cost: nat)

  predicate ValidDebit(d: Debit) { d.burst > 0 && d.rate > 0 && d.period > 0.0 }
  predicate ValidDebits(ds: seq<Debit>) { forall i :: 0 <= i < |ds| ==> ValidDebit(ds[i]) }

  function Larger(a: real, b: real): real { if a >= b then a else b }

  function Interval(d: Debit): (r: real)
    requires ValidDebit(d)
    ensures r > 0.0
  {
    d.period / (d.rate as real)
  }

  function Ceiling(x: real): (n: int)
    ensures n as real >= x > (n as real) - 1.0
  {
    -((-x).Floor)
  }

  datatype Cell = Cell(tat: real, expireAt: real)
  type Cells = map<string, Cell>

  /** The stored arrival time as the script reads it: a key that has expired
      reads as the current time. */
  function Arrival(s: Cells, key: string, now: real): real {
    if key in s && now <= s[key].expireAt then Larger(s[key].tat, now) else now
  }

  function Next(s: Cells, d: Debit, now: real): real
    requires ValidDebit(d)
  {
    Arrival(s, d.key, now) + Interval(d) * (d.cost as real)
  }

  predicate Conforms(s: Cells, d: Debit, now: real)
    requires ValidDebit(d)
  {
    now - (Next(s, d, now) - Interval(d) * (d.burst as real)) >= 0.0
  }

  predicate AllConform(s: Cells, ds: seq<Debit>, now: real)
    requires ValidDebits(ds)
  {
    forall i :: 0 <= i < |ds| ==> Conforms(s, ds[i], now)
  }

  function Write(s: Cells, key: string, tat: real, now: real): Cells {
    if tat - now > 0.0 then s[key := Cell(tat, now + Ceiling(tat - now) as real)] else s
  }

  // `read` is the state before the script wrote anything.
  function WriteAll(s: Cells, read: Cells, ds: seq<Debit>, now: real): Cells
    requires ValidDebits(ds)
    decreases |ds|
  {
    if ds == [] then s else WriteAll(Write(s, ds[0].key, Next(read, ds[0], now), now), read, ds[1..], now)
  }

  /** All keys are checked before any key is written. */
  function Script(s: Cells, ds: seq<Debit>, now: real): (Cells, bool)
    requires ValidDebits(ds)
  {
    if AllConform(s, ds, now) then (WriteAll(s, s, ds, now), true) else (s, false)
  }

  predicate DistinctKeys(ds: seq<Debit>) { forall i, j :: 0 <= i < j < |ds| ==> ds[i].key != ds[j].key }

  lemma {:induction false} WriteAllElsewhere(s: Cells, read: Cells, ds: seq<Debit>, now: real, key: string)
    requires ValidDebits(ds) && forall i :: 0 <= i < |ds| ==> ds[i].key != key
    ensures key in WriteAll(s, read, ds, now) <==> key in s
    ensures key in s ==> WriteAll(s, read, ds, now)[key] == s[key]
    decreases |ds|
  {
    if ds != [] {
      WriteAllElsewhere(Write(s, ds[0].key, Next(read, ds[0], now), now), read, ds[1..], now, key);
    }
  }

  lemma {:induction false} WriteAllAt(s: Cells, read: Cells, ds: seq<Debit>, now: real, i: nat)
    requires ValidDebits(ds) && DistinctKeys(ds) && i < |ds|
    ensures var key, w := ds[i].key, Write(s, ds[i].key, Next(read, ds[i], now), now);
      && (key in WriteAll(s, read, ds, now) <==> key in w)
      && (key in w ==> WriteAll(s, read, ds, now)[key] == w[key])
    decreases |ds|
  {
    hide Next, Ceiling;
    var s' := Write(s, ds[0].key, Next(read, ds[0], now), now);
    if i == 0 {
      WriteAllElsewhere(s', read, ds[1..], now, ds[0].key);
    } else {
      WriteAllAt(s', read, ds[1..], now, i - 1);
    }
  }

  // --- Expiry is invisible --------------------------------------------------------------------

  /** Keys live at least until their arrival time. */
  predicate Lasting(s: Cells) { forall k :: k in s ==> s[k].expireAt >= s[k].tat }

  function Forever(s: Cells): map<string, real> { map k | k in s :: s[k].tat }

  function ArrivalForever(s: map<string, real>, key: string, now: real): real {
    if key in s then Larger(s[key], now) else now
  }

  lemma ExpiryReadsAlike(s: Cells, key: string, now: real)
    requires Lasting(s)
    ensures Arrival(s, key, now) == ArrivalForever(Forever(s), key, now)
  {
  }

  lemma {:induction false} WriteAllLasting(s: Cells, read: Cells, ds: seq<Debit>, now: real)
    requires ValidDebits(ds) && Lasting(s)
    ensures Lasting(WriteAll(s, read, ds, now))
    decreases |ds|
  {
    hide Next;
    if ds != [] {
      WriteAllLasting(Write(s, ds[0].key, Next(read, ds[0], now), now), read, ds[1..], now);
    }
  }

  datatype Batch = Batch(now: real, debits: seq<Debit>)

  function Run(s: Cells, bs: seq<Batch>): Cells
    requires forall i :: 0 <= i < |bs| ==> ValidDebits(bs[i].debits)
    decreases |bs|
  {
    if bs == [] then s else Run(Script(s, bs[0].debits, bs[0].now).0, bs[1..])
  }

  /** A store whose keys never expire, reading and writing arrival times only. */
  function NextForever(s: map<string, real>, d: Debit, now: real): real
    requires ValidDebit(d)
  {
    ArrivalForever(s, d.key, now) + Interval(d) * (d.cost as real)
  }

  predicate ConformForever(s: map<string, real>, ds: seq<Debit>, now: real)
    requires ValidDebits(ds)
  {
    forall i :: 0 <= i < |ds| ==> now - (NextForever(s, ds[i], now) - Interval(ds[i]) * (ds[i].burst as real)) >= 0.0
  }

  function WriteForever(s: map<string, real>, read: map<string, real>, ds: seq<Debit>, now: real): map<string, real>
    requires ValidDebits(ds)
    decreases |ds|
  {
    if ds == [] then s
    else
      var next := NextForever(read, ds[0], now);
      WriteForever(if next - now > 0.0 then s[ds[0].key := next] else s, read, ds[1..], now)
  }

  function ScriptForever(s: map<string, real>, ds: seq<Debit>, now: real): (map<string, real>, bool)
    requires ValidDebits(ds)
  {
    if ConformForever(s, ds, now) then (WriteForever(s, s, ds, now), true) else (s, false)
  }

  lemma {:induction false} WriteForeverAlike(s: Cells, read: Cells, ds: seq<Debit>, now: real)
    requires ValidDebits(ds) && Lasting(read)
    ensures Forever(WriteAll(s, read, ds, now)) == WriteForever(Forever(s), Forever(read), ds, now)
    decreases |ds|
  {
    if ds != [] {
      var d := ds[0];
      ExpiryReadsAlike(read, d.key, now);
      var s' := Write(s, d.key, Next(read, d, now), now);
      assert Forever(s') == (if Next(read, d, now) - now > 0.0 then Forever(s)[d.key := Next(read, d, now)] else Forever(s));
      WriteForeverAlike(s', read, ds[1..], now);
    }
  }

  lemma ScriptForeverAlike(s: Cells, ds: seq<Debit>, now: real)
    requires ValidDebits(ds) && Lasting(s)
    ensures var (s', ok) := Script(s, ds, now);
      Lasting(s') && (Forever(s'), ok) == ScriptForever(Forever(s), ds, now)
  {
    hide WriteAll, WriteForever, Arrival, ArrivalForever;
    forall i | 0 <= i < |ds|
      ensures Next(s, ds[i], now) == NextForever(Forever(s), ds[i], now)
    {
      ExpiryReadsAlike(s, ds[i].key, now);
    }
    WriteAllLasting(s, s, ds, now);
    WriteForeverAlike(s, s, ds, now);
  }

  predicate ValidRun(bs: seq<Batch>) { forall i :: 0 <= i < |bs| ==> ValidDebits(bs[i].debits) }

  function Decisions(s: Cells, bs: seq<Batch>): seq<bool>
    requires ValidRun(bs)
    decreases |bs|
  {
    if bs == [] then []
    else [Script(s, bs[0].debits, bs[0].now).1] + Decisions(Script(s, bs[0].debits, bs[0].now).0, bs[1..])
  }

  function DecisionsForever(s: map<string, real>, bs: seq<Batch>): seq<bool>
    requires ValidRun(bs)
    decreases |bs|
  {
    if bs == [] then []
    else [ScriptForever(s, bs[0].debits, bs[0].now).1] + DecisionsForever(ScriptForever(s, bs[0].debits, bs[0].now).0, bs[1..])
  }

  /** Over every run, the expiry that the script sets never changes a decision. */
  lemma {:induction false} ExpiryChangesNoDecision(s: Cells, bs: seq<Batch>)
    requires ValidRun(bs) && Lasting(s)
    ensures Decisions(s, bs) == DecisionsForever(Forever(s), bs)
    decreases |bs|
  {
    hide Script, ScriptForever, Lasting, Forever;
    if bs != [] {
      ScriptForeverAlike(s, bs[0].debits, bs[0].now);
      ExpiryChangesNoDecision(Script(s, bs[0].debits, bs[0].now).0, bs[1..]);
    }
  }

  // --- The window bound -------------------------------------------------------------------------

  /** The debits of a batch on one key use one limit. */
  predicate FixedLimit(ds: seq<Debit>, key: string, burst: nat, rate: nat, period: real) {
    forall i :: 0 <= i < |ds| && ds[i].key == key ==> ds[i].burst == burst && ds[i].rate == rate && ds[i].period == period
  }

  function CostOf(ds: seq<Debit>, key: string): nat
    decreases |ds|
  {
    if ds == [] then 0 else (if ds[0].key == key then ds[0].cost else 0) + CostOf(ds[1..], key)
  }

  /** Cost admitted on the key over the run. */
  function Admitted(s: Cells, bs: seq<Batch>, key: string): nat
    requires ValidRun(bs)
    decreases |bs|
  {
    if bs == [] then 0
    else
      var (s', ok) := Script(s, bs[0].debits, bs[0].now);
      (if ok then CostOf(bs[0].debits, key) else 0) + Admitted(s', bs[1..], key)
  }

  lemma {:induction false} CostElsewhere(ds: seq<Debit>, key: string)
    requires forall i :: 0 <= i < |ds| ==> ds[i].key != key
    ensures CostOf(ds, key) == 0
    decreases |ds|
  {
    if ds != [] {
      CostElsewhere(ds[1..], key);
    }
  }

  lemma {:induction false} CostAt(ds: seq<Debit>, i: nat)
    requires DistinctKeys(ds) && i < |ds|
    ensures CostOf(ds, ds[i].key) == ds[i].cost
    decreases |ds|
  {
    if i == 0 {
      CostElsewhere(ds[1..], ds[0].key);
    } else {
      CostAt(ds[1..], i - 1);
    }
  }

  /** What the store knows of a key at the start of a window: how far its
      arrival time reaches past it, in cost units of `interval`. */
  predicate Reached(s: Cells, key: string, from: real, to: real, interval: real, burst: nat, cost: nat) {
    cost > 0 ==>
      && key in s
      && from + interval * (cost as real) <= s[key].tat <= to + interval * (burst as real)
  }

  lemma CostsAdd(interval: real, before: nat, cost: nat)
    requires interval > 0.0
    ensures var sum := before + cost; interval * (sum as real) == interval * (before as real) + interval * (cost as real)
    ensures interval * (cost as real) >= 0.0 && (cost > 0 ==> interval * (cost as real) > 0.0)
  {
  }

  lemma ArrivalBounds(s: Cells, key: string, now: real)
    requires Lasting(s)
    ensures Arrival(s, key, now) >= now && (key in s ==> Arrival(s, key, now) >= s[key].tat)
  {
  }

  lemma DebitReaches(s: Cells, d: Debit, now: real, from: real, to: real, before: nat)
    requires ValidDebit(d) && Lasting(s) && from <= now <= to && Conforms(s, d, now)
    requires Reached(s, d.key, from, to, Interval(d), d.burst, before)
    ensures Reached(Write(s, d.key, Next(s, d, now), now), d.key, from, to, Interval(d), d.burst, before + d.cost)
  {
    hide Arrival, Interval, Lasting;
    CostsAdd(Interval(d), before, d.cost);
    CostsAdd(Interval(d), 0, before);
    ArrivalBounds(s, d.key, now);
  }

  function LimitInterval(rate: nat, period: real): (r: real)
    requires rate > 0 && period > 0.0
    ensures r > 0.0
  {
    period / (rate as real)
  }

  predicate Within(bs: seq<Batch>, from: real, to: real) {
    forall i :: 0 <= i < |bs| ==> from <= bs[i].now <= to
  }

  predicate Distinct(bs: seq<Batch>) { forall i :: 0 <= i < |bs| ==> DistinctKeys(bs[i].debits) }

  predicate Limited(bs: seq<Batch>, key: string, burst: nat, rate: nat, period: real) {
    forall i :: 0 <= i < |bs| ==> FixedLimit(bs[i].debits, key, burst, rate, period)
  }

  lemma BatchReaches(s: Cells, b: Batch, key: string, burst: nat, rate: nat, period: real, from: real, to: real, before: nat)
    requires ValidDebits(b.debits) && Lasting(s) && rate > 0 && period > 0.0 && from <= b.now <= to
    requires DistinctKeys(b.debits) && FixedLimit(b.debits, key, burst, rate, period)
    requires Reached(s, key, from, to, LimitInterval(rate, period), burst, before)
    ensures var (s', ok) := Script(s, b.debits, b.now);
      Lasting(s') && Reached(s', key, from, to, LimitInterval(rate, period), burst, before + if ok then CostOf(b.debits, key) else 0)
  {
    hide WriteAll, Next, Reached, Conforms, Write, Lasting, CostOf;
    var ds, now := b.debits, b.now;
    WriteAllLasting(s, s, ds, now);
    if AllConform(s, ds, now) {
      if i :| 0 <= i < |ds| && ds[i].key == key {
        CostAt(ds, i);
        DebitReaches(s, ds[i], now, from, to, before);
        WriteAllAt(s, s, ds, now, i);
        SameReach(Write(s, key, Next(s, ds[i], now), now), WriteAll(s, s, ds, now), key, from, to, Interval(ds[i]), burst, before + ds[i].cost);
      } else {
        CostElsewhere(ds, key);
        WriteAllElsewhere(s, s, ds, now, key);
        SameReach(s, WriteAll(s, s, ds, now), key, from, to, LimitInterval(rate, period), burst, before);
      }
    }
  }

  lemma SameReach(s: Cells, s': Cells, key: string, from: real, to: real, interval: real, burst: nat, cost: nat)
    requires (key in s <==> key in s') && (key in s ==> s'[key] == s[key]) && Reached(s, key, from, to, interval, burst, cost)
    ensures Reached(s', key, from, to, interval, burst, cost)
  {
  }

  lemma {:induction false} RunReaches(s: Cells, bs: seq<Batch>, key: string, burst: nat, rate: nat, period: real,
                                      from: real, to: real, before: nat)
    requires ValidRun(bs) && Lasting(s) && rate > 0 && period > 0.0
    requires Within(bs, from, to) && Distinct(bs) && Limited(bs, key, burst, rate, period)
    requires Reached(s, key, from, to, LimitInterval(rate, period), burst, before)
    ensures Reached(Run(s, bs), key, from, to, LimitInterval(rate, period), burst, before + Admitted(s, bs, key))
    decreases |bs|
  {
    hide Reached, Script, Lasting, FixedLimit;
    if bs != [] {
      BatchReaches(s, bs[0], key, burst, rate, period, from, to, before);
      var (s', ok) := Script(s, bs[0].debits, bs[0].now);
      RunReaches(s', bs[1..], key, burst, rate, period, from, to, before + if ok then CostOf(bs[0].debits, key) else 0);
    }
  }

  lemma DivideByInterval(rate: nat, period: real, c: real, b: real, span: real)
    requires rate > 0 && period > 0.0 && (period / (rate as real)) * c <= span + (period / (rate as real)) * b
    ensures c <= b + (rate as real) * span / period
  {
    var r := rate as real;
    var interval := period / r;
    assert interval * (c - b) <= span;
    assert (r / period) * interval == 1.0;
    assert (r / period) * (interval * (c - b)) == c - b;
    assert (r / period) * (interval * (c - b)) <= (r / period) * span;
    assert (r / period) * span == r * span / period;
  }

  /** What a window of the given length may admit. */
  function Allowance(burst: nat, rate: nat, period: real, span: real): real
    requires period > 0.0
  {
    (burst as real) + (rate as real) * span / period
  }

  lemma RateOverSpan(rate: nat, period: real, span: real)
    requires period > 0.0 && span >= 0.0
    ensures (rate as real) * span / period >= 0.0
  {
    assert (rate as real) * span >= 0.0;
  }

  lemma ReachedBound(s: Cells, key: string, burst: nat, rate: nat, period: real, from: real, to: real, cost: nat)
    requires rate > 0 && period > 0.0 && cost > 0 && Reached(s, key, from, to, LimitInterval(rate, period), burst, cost)
    ensures cost as real <= Allowance(burst, rate, period, to - from)
  {
    DivideByInterval(rate, period, cost as real, burst as real, to - from);
  }

  /** In any window of any run, whatever the keys held before it, the cost
      admitted on a key is at most its burst plus its rate over the window. */
  lemma WindowBound(s: Cells, window: seq<Batch>, key: string, burst: nat, rate: nat, period: real, from: real, to: real)
    requires ValidRun(window) && Lasting(s) && rate > 0 && period > 0.0 && from <= to
    requires Within(window, from, to) && Distinct(window) && Limited(window, key, burst, rate, period)
    ensures Admitted(s, window, key) as real <= Allowance(burst, rate, period, to - from)
  {
    hide Run, Admitted, Lasting, LimitInterval, Within, Distinct, Limited;
    var c := Admitted(s, window, key);
    RunReaches(s, window, key, burst, rate, period, from, to, 0);
    if c > 0 {
      ReachedBound(Run(s, window), key, burst, rate, period, from, to, c);
    } else {
      RateOverSpan(rate, period, to - from);
    }
  }

  /** Without merged keys the bound fails: a batch that names a key twice has
      each debit checked against the same arrival time. */
  lemma DuplicateKeysOverspend(key: string)
    ensures var d := Debit(key, 1, 1, 1.0, 1);
      var b := Batch(0.0, [d, d]);
      ValidDebits(b.debits) && Script(map[], b.debits, 0.0).1 && CostOf(b.debits, key) == 2
  {
    var d := Debit(key, 1, 1, 1.0, 1);
    assert [d, d][1..] == [d] && [d][1..] == [];
    assert CostOf([d], key) == 1;
    assert Interval(d) == 1.0;
    assert forall i :: 0 <= i < 2 ==> [d, d][i] == d;
    assert Conforms(map[], d, 0.0);
  }

  // --- From requests to debits --------------------------------------------------------------------

  function BurstSize(l: R.RateLimit): (r: int64)
    ensures r > 0
  {
    if l.burst > 0 then l.burst else if l.rate > 0 then l.rate else 1
  }

  function Seconds(period: int64): (r: real)
    ensures r > 0.0
  {
    (if period <= 0 then MINUTE else period) as real / 1000000000.0
  }

  function ToDebit(r: R.Request): (d: Debit)
    requires R.Active(r)
    ensures ValidDebit(d) && d.key == r.key && d.cost == r.n
  {
    Debit(r.key, BurstSize(r.limit), r.limit.rate, Seconds(r.limit.period), r.n)
  }

  function ToDebits(rs: seq<R.Request>): (ds: seq<Debit>)
    requires forall i :: 0 <= i < |rs| ==> R.Active(rs[i])
    ensures |ds| == |rs| && ValidDebits(ds)
    ensures forall i :: 0 <= i < |rs| ==> ds[i] == ToDebit(rs[i])
  {
    seq(|rs|, i requires 0 <= i < |rs| => ToDebit(rs[i]))
  }

  lemma ConformingCost(s: Cells, d: Debit, now: real)
    requires ValidDebit(d) && Conforms(s, d, now)
    ensures d.cost <= d.burst
  {
    var interval := Interval(d);
    assert Arrival(s, d.key, now) >= now;
    assert interval * (d.cost as real) <= interval * (d.burst as real);
    assert interval * (d.cost as real - d.burst as real) <= 0.0;
  }

  /** An admitted batch debits each key exactly what its requests ask in
      total, once; the saturated total of a merge is never admitted. */
  lemma AdmittedDemand(s: Cells, rs: seq<R.Request>, out: seq<R.Request>, now: real, key: string)
    requires R.Merges(out, rs) && AllConform(s, ToDebits(out), now)
    requires forall i :: 0 <= i < |out| && out[i].key == key ==> BurstSize(out[i].limit) < MAX_INT64
    ensures DistinctKeys(ToDebits(out))
    ensures CostOf(ToDebits(out), key) == R.Demand(rs, key)
  {
    var ds := ToDebits(out);
    R.FirstKeysNamed(rs, key);
    R.DemandBounds(rs, key);
    if i :| 0 <= i < |out| && out[i].key == key {
      CostAt(ds, i);
      ConformingCost(s, ds[i], now);
    } else {
      assert key !in R.FirstKeys(rs);
      CostElsewhere(ds, key);
    }
  }

  // --- Runs of request batches -----------------------------------------------------------------------

  /** A call of AllowBatch: refused when its limits disagree, otherwise merged
      and put to the script. */
  ghost function AllowStep(s: Cells, rs: seq<R.Request>, now: real): (Cells, bool) {
    if !R.Consistent(rs) then (s, false) else Script(s, ToDebits(R.MergedBatch(rs)), now)
  }

  datatype Call = Call(now: real, requests: seq<R.Request>)

  ghost function RunCalls(s: Cells, cs: seq<Call>): Cells
    decreases |cs|
  {
    if cs == [] then s else RunCalls(AllowStep(s, cs[0].requests, cs[0].now).0, cs[1..])
  }

  /** What the admitted calls asked of the key in total. */
  ghost function DemandAdmitted(s: Cells, cs: seq<Call>, key: string): int
    decreases |cs|
  {
    if cs == [] then 0
    else
      var (s', ok) := AllowStep(s, cs[0].requests, cs[0].now);
      (if ok then R.Demand(cs[0].requests, key) else 0) + DemandAdmitted(s', cs[1..], key)
  }

  // The debits a call puts to the script; a refused call debits nothing.
  ghost function DebitsOf(c: Call): (b: Batch)
    ensures ValidDebits(b.debits) && b.now == c.now
  {
    Batch(c.now, if R.Consistent(c.requests) then ToDebits(R.MergedBatch(c.requests)) else [])
  }

  ghost function DebitRun(cs: seq<Call>): (bs: seq<Batch>)
    ensures |bs| == |cs| && ValidRun(bs)
    ensures forall i :: 0 <= i < |cs| ==> bs[i] == DebitsOf(cs[i])
    decreases |cs|
  {
    if cs == [] then [] else [DebitsOf(cs[0])] + DebitRun(cs[1..])
  }

  predicate OneLimit(cs: seq<Call>, key: string, limit: R.RateLimit) {
    forall i :: 0 <= i < |cs| ==> LimitOf(cs[i].requests, key, limit)
  }

  predicate LimitOf(rs: seq<R.Request>, key: string, limit: R.RateLimit) {
    forall j :: 0 <= j < |rs| && R.Active(rs[j]) && rs[j].key == key ==> rs[j].limit == limit
  }

  // The merged debit of the key carries the limit its requests share.
  lemma MergedLimit(rs: seq<R.Request>, out: seq<R.Request>, key: string, limit: R.RateLimit, i: nat)
    requires R.Merges(out, rs) && LimitOf(rs, key, limit) && i < |out| && out[i].key == key
    ensures out[i].limit == limit
  {
    R.FirstKeysNamed(rs, key);
    assert R.FirstKeys(rs)[i] == key;
    var j :| 0 <= j < |rs| && R.Active(rs[j]) && rs[j].key == key;
    assert R.SharesLimit(rs, out[i]);
  }

  lemma CallFacts(s: Cells, c: Call, key: string, limit: R.RateLimit)
    requires LimitOf(c.requests, key, limit) && BurstSize(limit) < MAX_INT64 && limit.rate > 0
    ensures var b := DebitsOf(c);
      var (s', ok) := AllowStep(s, c.requests, c.now);
      && DistinctKeys(b.debits) && FixedLimit(b.debits, key, BurstSize(limit), limit.rate, Seconds(limit.period))
      && s' == Script(s, b.debits, c.now).0
      && (if ok then R.Demand(c.requests, key) else 0) <= if Script(s, b.debits, c.now).1 then CostOf(b.debits, key) else 0
  {
    hide Script, CostOf;
    if R.Consistent(c.requests) {
      var out := R.MergedBatch(c.requests);
      var ds := ToDebits(out);
      DebitShape(c.requests, out, key, limit);
      if Script(s, ds, c.now).1 {
        ScriptConforms(s, ds, c.now);
        AdmittedDemand(s, c.requests, out, c.now, key);
      }
    } else {
      NothingToDebit(s, c.now);
    }
  }

  lemma ScriptConforms(s: Cells, ds: seq<Debit>, now: real)
    requires ValidDebits(ds)
    ensures Script(s, ds, now).1 <==> AllConform(s, ds, now)
  {
  }

  lemma NothingToDebit(s: Cells, now: real)
    ensures Script(s, [], now) == (s, true)
  {
  }

  lemma DebitShape(rs: seq<R.Request>, out: seq<R.Request>, key: string, limit: R.RateLimit)
    requires R.Merges(out, rs) && LimitOf(rs, key, limit) && limit.rate > 0
    ensures DistinctKeys(ToDebits(out))
    ensures FixedLimit(ToDebits(out), key, BurstSize(limit), limit.rate, Seconds(limit.period))
    ensures forall i :: 0 <= i < |out| && out[i].key == key ==> out[i].limit == limit
  {
    forall i | 0 <= i < |out| && out[i].key == key
      ensures out[i].limit == limit
    {
      MergedLimit(rs, out, key, limit, i);
    }
  }

  lemma {:induction false} DemandWithinCost(s: Cells, cs: seq<Call>, key: string, limit: R.RateLimit)
    requires OneLimit(cs, key, limit) && BurstSize(limit) < MAX_INT64 && limit.rate > 0
    ensures DemandAdmitted(s, cs, key) <= Admitted(s, DebitRun(cs), key)
    decreases |cs|
  {
    hide AllowStep, Script, LimitOf, R.Demand, CostOf;
    if cs != [] {
      CallFacts(s, cs[0], key, limit);
      var bs := DebitRun(cs);
      assert bs[1..] == DebitRun(cs[1..]);
      DemandWithinCost(AllowStep(s, cs[0].requests, cs[0].now).0, cs[1..], key, limit);
    }
  }

  lemma {:induction false} RunCallsLasting(s: Cells, cs: seq<Call>)
    requires Lasting(s)
    ensures Lasting(RunCalls(s, cs))
    decreases |cs|
  {
    hide Lasting, Script;
    if cs != [] {
      AllowStepLasting(s, cs[0]);
      RunCallsLasting(AllowStep(s, cs[0].requests, cs[0].now).0, cs[1..]);
    }
  }

  lemma AllowStepLasting(s: Cells, c: Call)
    requires Lasting(s)
    ensures Lasting(AllowStep(s, c.requests, c.now).0)
  {
    if R.Consistent(c.requests) {
      WriteAllLasting(s, s, ToDebits(R.MergedBatch(c.requests)), c.now);
    }
  }

  predicate CallsWithin(cs: seq<Call>, from: real, to: real) { forall i :: 0 <= i < |cs| ==> from <= cs[i].now <= to }

  /** Rate admission, end to end: over every run of request batches from the
      empty store, in any window, what the admitted requests asked of a key is at
      most its burst plus its rate over the window, however often a batch names the
      key and whatever else it names. The limit is read as configured: no burst
      means the rate, no period means sixty seconds, and a period counts
      nanoseconds. */
  lemma DemandWindowBound(before: seq<Call>, window: seq<Call>, key: string, limit: R.RateLimit, from: real, span: real)
    requires OneLimit(window, key, limit) && limit.rate > 0
    requires (if limit.burst > 0 then limit.burst else limit.rate) < MAX_INT64
    requires span >= 0.0 && CallsWithin(window, from, from + span)
    ensures DemandAdmitted(RunCalls(map[], before), window, key) as real
         <= (if limit.burst > 0 then limit.burst else limit.rate) as real
            + (limit.rate as real) * span * 1_000_000_000.0 / (if limit.period > 0 then limit.period else 60_000_000_000) as real
  {
    hide DemandAdmitted, RunCalls, Admitted, LimitOf, Lasting, FixedLimit, DistinctKeys, Allowance, Seconds;
    EmptyLasts();
    RunCallsLasting(map[], before);
    var s, bs := RunCalls(map[], before), DebitRun(window);
    forall i | 0 <= i < |bs|
      ensures DistinctKeys(bs[i].debits) && FixedLimit(bs[i].debits, key, BurstSize(limit), limit.rate, Seconds(limit.period))
    {
      CallFacts(s, window[i], key, limit);
    }
    DemandWithinCost(s, window, key, limit);
    WindowBound(s, bs, key, BurstSize(limit), limit.rate, Seconds(limit.period), from, from + span);
    assert from + span - from == span;
    AllowanceInNanoseconds(limit, span);
  }

  lemma AllowanceScaled(b: real, r: real, p: real, span: real)
    requires p > 0.0
    ensures p / 1_000_000_000.0 > 0.0
    ensures b + r * span / (p / 1_000_000_000.0) == b + r * span * 1_000_000_000.0 / p
  {
    ScaledQuotient(r * span, p);
  }

  lemma AllowanceInNanoseconds(limit: R.RateLimit, span: real)
    requires limit.rate > 0
    ensures Allowance(BurstSize(limit), limit.rate, Seconds(limit.period), span)
         == (if limit.burst > 0 then limit.burst else limit.rate) as real
            + (limit.rate as real) * span * 1_000_000_000.0 / (if limit.period > 0 then limit.period else 60_000_000_000) as real
  {
    if limit.period > 0 {
      AllowanceScaled(BurstSize(limit) as real, limit.rate as real, limit.period as real, span);
    } else {
      AllowanceScaled(BurstSize(limit) as real, limit.rate as real, 60_000_000_000 as real, span);
    }
  }

  lemma ScaledQuotient(x: real, p: real)
    requires p > 0.0
    ensures p / 1_000_000_000.0 > 0.0 && x / (p / 1_000_000_000.0) == x * 1_000_000_000.0 / p
  {
    var q := p / 1_000_000_000.0;
    assert q * 1_000_000_000.0 == p;
    assert x / q == (x * 1_000_000_000.0) / (q * 1_000_000_000.0);
  }

  lemma EmptyLasts()
    ensures Lasting(map[])
  {
  }

  // --- The script as it runs ------------------------------------------------------------------------

  class RateStore {
    var cells: Cells

    constructor ()
      ensures cells == map[]
    {
      cells := map[];
    }

    /** Either every debit is applied or no key changes; a refusal names the
        first key whose debit does not conform. */
    method AllowDebits(ds: seq<Debit>, now: real) returns (ok: bool, failed: nat)
      requires ValidDebits(ds)
      modifies this
      ensures (cells, ok) == Script(old(cells), ds, now)
      ensures !ok ==> failed < |ds| && !Conforms(old(cells), ds[failed], now)
      ensures !ok ==> forall i :: 0 <= i < failed ==> Conforms(old(cells), ds[i], now)
    {
      hide Next;
      var states: seq<real> := [];
      for i := 0 to |ds|
        invariant cells == old(cells) && |states| == i
        invariant forall j :: 0 <= j < i ==> Conforms(cells, ds[j], now) && states[j] == Next(cells, ds[j], now)
      {
        if !Conforms(cells, ds[i], now) {
          return false, i;
        }
        states := states + [Next(cells, ds[i], now)];
      }
      ghost var read := cells;
      for i := 0 to |ds|
        invariant WriteAll(cells, read, ds[i..], now) == WriteAll(read, read, ds, now)
      {
        assert ds[i..][0] == ds[i] && ds[i..][1..] == ds[i + 1..];
        cells := Write(cells, ds[i].key, states[i], now);
      }
      return true, 0;
    }

    /** A refused batch, for whatever reason, changes no key. */
    method AllowBatch(rs: seq<R.Request>, now: real) returns (ok: bool)
      modifies this
      ensures (cells, ok) == AllowStep(old(cells), rs, now)
      ensures !ok ==> cells == old(cells)
    {
      var merged := R.NormalizeRequests(rs);
      if merged.Inconsistent? {
        return false;
      }
      R.MergesUnique(merged.requests, R.MergedBatch(rs), rs);
      var failed;
      ok, failed := AllowDebits(ToDebits(merged.requests), now);
    }
  }
}
