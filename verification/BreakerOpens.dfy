/** When the local breaker opens a route, for how long, and which routes it
    forgets (policy/attempt.go), counted from the calls alone. */
module BreakerOpens {
  import opened QuotaTypes
  import opened Breaker

  /** Failures of the key among the calls. */
  function Failures(cs: seq<Call>, key: RouteKey): nat
    decreases |cs|
  {
    if cs == [] then 0 else (if cs[0].key == key && cs[0].op.Fail? then 1 else 0) + Failures(cs[1..], key)
  }

  function StartOf(c: Call): int
    requires c.op.Fail? || c.op.Succeed?
  {
    if c.op.startedAt == 0 then c.now else c.op.startedAt
  }

  /** A stretch of calls in which nothing speaks for the route: its failures
      belong to attempts newer than every success, its successes to attempts no
      newer than a failure already counted. */
  predicate Failing(cs: seq<Call>, key: RouteKey, lastFailure: int, lastSuccess: int, threshold: int, cooldown: int) {
    forall i :: 0 <= i < |cs| && cs[i].key == key ==>
      && (cs[i].op.Fail? ==> cs[i].op.threshold == threshold && cs[i].op.cooldown == cooldown && StartOf(cs[i]) > lastSuccess)
      && (cs[i].op.Succeed? ==> lastFailure != 0 && StartOf(cs[i]) <= lastFailure)
  }

  lemma FailingRest(cs: seq<Call>, key: RouteKey, lastFailure: int, lastSuccess: int, threshold: int, cooldown: int, newer: int)
    requires cs != [] && Failing(cs, key, lastFailure, lastSuccess, threshold, cooldown)
    requires newer >= lastFailure && (lastFailure != 0 ==> newer != 0)
    ensures Failing(cs[1..], key, newer, lastSuccess, threshold, cooldown)
  {
    var rest := cs[1..];
    assert forall i :: 0 <= i < |rest| ==> rest[i] == cs[i + 1];
  }

  predicate ClosedThroughout(st: State, cs: seq<Call>) { forall i :: 0 <= i < |cs| ==> st.openUntil <= cs[i].now }

  /** Below the threshold every failure counts and the route stays closed. */
  lemma {:induction false} CountsBelowThreshold(st: State, cs: seq<Call>, key: RouteKey, threshold: int, cooldown: int)
    requires ClosedThroughout(st, cs) && st.lastFailure >= 0
    requires Failing(cs, key, st.lastFailure, st.lastSuccess, threshold, cooldown)
    requires st.failures + Failures(cs, key) < threshold || Failures(cs, key) == 0
    ensures var r := KeyRun(st, cs, key);
      && r.failures == st.failures + Failures(cs, key) && r.openUntil == st.openUntil
      && r.lastSuccess == st.lastSuccess && r.lastFailure >= st.lastFailure
    decreases |cs|
  {
    if cs != [] {
      assert st.openUntil <= cs[0].now;
      var st' := if cs[0].key == key then KeyStep(st, cs[0].now, cs[0].op) else st;
      assert st'.openUntil == st.openUntil && st'.lastSuccess == st.lastSuccess && st'.lastFailure >= st.lastFailure;
      FailingRest(cs, key, st.lastFailure, st.lastSuccess, threshold, cooldown, st'.lastFailure);
      ClosedRest(st, st', cs);
      hide KeyStep, Failing, ClosedThroughout;
      CountsBelowThreshold(st', cs[1..], key, threshold, cooldown);
    }
  }

  lemma ClosedRest(st: State, st': State, cs: seq<Call>)
    requires cs != [] && ClosedThroughout(st, cs) && st'.openUntil == st.openUntil
    ensures ClosedThroughout(st', cs[1..])
  {
    var rest := cs[1..];
    assert forall i :: 0 <= i < |rest| ==> rest[i] == cs[i + 1];
  }

  /** The failure that reaches the threshold opens the route for the cooldown,
      by default one second, and the count starts anew. */
  lemma OpensAtThreshold(st: State, cs: seq<Call>, last: Call, threshold: int, cooldown: int)
    requires last.op.Fail? && last.op.threshold == threshold && last.op.cooldown == cooldown
    requires ClosedThroughout(st, cs + [last]) && st.lastFailure >= 0
    requires Failing(cs + [last], last.key, st.lastFailure, st.lastSuccess, threshold, cooldown)
    requires st.failures + Failures(cs, last.key) + 1 == if threshold > 0 then threshold else 1
    requires st.lastSuccess >= 0
    ensures var r := KeyRun(st, cs + [last], last.key);
      && r.openUntil == last.now + (if cooldown > 0 then cooldown else 1_000_000_000)
      && r.failures == 0 && r.lastFailure >= StartOf(last)
  {
    var all := cs + [last];
    assert all[|cs|] == last && forall i :: 0 <= i < |cs| ==> cs[i] == all[i];
    CountsBelowThreshold(st, cs, last.key, threshold, cooldown);
    RunJoined(st, cs, [last], last.key);
    LastCall(KeyRun(st, cs, last.key), last);
  }

  lemma LastCall(st: State, c: Call)
    ensures KeyRun(st, [c], c.key) == KeyStep(st, c.now, c.op)
  {
    hide KeyStep;
    var one: seq<Call> := [c];
    assert one[1..] == [];
  }

  /** An open route stays closed to attempts exactly until the end of its
      cooldown, whatever arrives meanwhile, short of a newer success. */
  lemma DeniedUntilCooldownEnds(st: State, cs: seq<Call>, last: Call, later: seq<Call>, threshold: int, cooldown: int, t: int, ttl: int)
    requires last.op.Fail? && last.op.threshold == threshold && last.op.cooldown == cooldown
    requires ClosedThroughout(st, cs + [last]) && st.lastFailure >= 0 && st.lastSuccess >= 0
    requires Failing(cs + [last], last.key, st.lastFailure, st.lastSuccess, threshold, cooldown)
    requires st.failures + Failures(cs, last.key) + 1 == if threshold > 0 then threshold else 1
    requires forall i :: 0 <= i < |later| ==> later[i].now < last.now + (if cooldown > 0 then cooldown else 1_000_000_000)
    requires forall i :: 0 <= i < |later| && later[i].key == last.key && later[i].op.Succeed? ==>
      0 < later[i].op.startedAt <= StartOf(last)
    ensures AllowState(KeyRun(st, cs + [last] + later, last.key), t, ttl).1.Denied?
      <==> t < last.now + (if cooldown > 0 then cooldown else 1_000_000_000)
  {
    hide KeyRun, Failing, ClosedThroughout, Failures;
    FailsAfterSuccess(st, cs, last, threshold, cooldown);
    OpensAtThreshold(st, cs, last, threshold, cooldown);
    RunJoined(st, cs + [last], later, last.key);
    CooldownIsNotExtended(KeyRun(st, cs + [last], last.key), later, last.key);
  }

  lemma FailsAfterSuccess(st: State, cs: seq<Call>, last: Call, threshold: int, cooldown: int)
    requires last.op.Fail? && Failing(cs + [last], last.key, st.lastFailure, st.lastSuccess, threshold, cooldown)
    ensures StartOf(last) > st.lastSuccess
  {
    assert (cs + [last])[|cs|] == last;
  }

  /** The same of the pruned table, as long as the calls fall into the retention
      of an attempt admitted to the route. */
  lemma TableDeniesUntilCooldownEnds(b: Table, cs: seq<Call>, last: Call, later: seq<Call>, threshold: int, cooldown: int, t: int, ttl: int)
    requires last.key in b.states
    requires var st := b.states[last.key];
      && ClosedThroughout(st, cs + [last]) && st.lastFailure >= 0 && st.lastSuccess >= 0
      && Failing(cs + [last], last.key, st.lastFailure, st.lastSuccess, threshold, cooldown)
      && st.failures + Failures(cs, last.key) + 1 == (if threshold > 0 then threshold else 1)
      && forall i :: 0 <= i < |cs + [last] + later| ==> (cs + [last] + later)[i].now < st.retainUntil
    requires last.op.Fail? && last.op.threshold == threshold && last.op.cooldown == cooldown
    requires forall i :: 0 <= i < |later| ==> later[i].now < last.now + (if cooldown > 0 then cooldown else 1_000_000_000)
    requires forall i :: 0 <= i < |later| && later[i].key == last.key && later[i].op.Succeed? ==>
      0 < later[i].op.startedAt <= StartOf(last)
    ensures AllowState(StateOf(Run(b, cs + [last] + later).states, last.key), t, ttl).1.Denied?
      <==> t < last.now + (if cooldown > 0 then cooldown else 1_000_000_000)
  {
    hide Run, KeyRun, Failing, ClosedThroughout, Failures, AllowState;
    WithinRetention(b, cs + [last] + later, last.key, b.states[last.key].retainUntil);
    DeniedUntilCooldownEnds(b.states[last.key], cs, last, later, threshold, cooldown, t, ttl);
  }

  /** A route without an attempt in its retention, without a running cooldown
      and without an outcome in the last ten minutes is forgotten at every 256th
      outcome, and no other route is forgotten then or at any other time. */
  lemma ForgetsExactlyIdleRoutes(b: Table, c: Call, key: RouteKey)
    requires c.key != key && key in b.states && b.states[key].lastFailure >= 0 && b.states[key].lastSuccess >= 0
    ensures var st := b.states[key];
      key !in Step(b, c).states <==>
        && !c.op.Allow? && (b.operations + 1) % 256 == 0
        && st.openUntil <= c.now && st.retainUntil <= c.now
        && (st.lastFailure == st.lastSuccess == 0
            || (st.lastFailure <= c.now - 600_000_000_000 && st.lastSuccess <= c.now - 600_000_000_000))
    ensures key in Step(b, c).states ==> Step(b, c).states[key] == b.states[key]
  {
  }
}
