/** The local circuit breaker (policy/attempt.go). Evidence is ordered by the
    admission time of the attempt it comes from; completions arrive in any
    order. Times are positive nanoseconds, zero stands for "never". */
module Breaker {
  import opened QuotaTypes

  type RouteKey = string

  datatype State = State(failures: nat, openUntil: int, retainUntil: int, lastAdmission: int, lastFailure: int, lastSuccess: int)

  const FRESH: State := State(0, 0, 0, 0, 0, 0)

  const IDLE_TTL: int := 10 * MINUTE
  const PRUNE_EVERY: nat := 256

  // --- One route ----------------------------------------------------------------------

  datatype Admission = Denied | Admitted(at: int)

  function AllowState(st: State, now: int, ttl: int): (State, Admission) {
    if st.openUntil > now then (st, Denied)
    else
      var at := if st.lastAdmission != 0 && now <= st.lastAdmission then st.lastAdmission + 1 else now;
      (st.(lastAdmission := at, retainUntil := Max(now + ttl, st.retainUntil)), Admitted(at))
  }

  function FailState(st: State, now: int, startedAt: int, threshold: int, cooldown: int): State {
    var at := if startedAt == 0 then now else startedAt;
    if st.lastSuccess != 0 && at <= st.lastSuccess then st
    else
      var seen := st.(lastFailure := Max(at, st.lastFailure));
      if st.openUntil > now then seen
      else
        var limit := if threshold <= 0 then 1 else threshold;
        var pause := if cooldown <= 0 then SECOND else cooldown;
        if st.failures + 1 >= limit then seen.(openUntil := now + pause, failures := 0)
        else seen.(failures := st.failures + 1)
  }

  function SuccessState(st: State, now: int, startedAt: int): State {
    var at := if startedAt == 0 then now else startedAt;
    if st.lastFailure != 0 && at <= st.lastFailure then st
    else st.(failures := 0, openUntil := 0, lastSuccess := Max(at, st.lastSuccess))
  }

  datatype Op =
    | Allow(ttl: int)
    | Fail(startedAt: int, threshold: int, cooldown: int)
    | Succeed(startedAt: int)

  datatype Call = Call(now: int, key: RouteKey, op: Op)

  function KeyStep(st: State, now: int, op: Op): State {
    match op
    case Allow(ttl) => AllowState(st, now, ttl).0
    case Fail(at, threshold, cooldown) => FailState(st, now, at, threshold, cooldown)
    case Succeed(at) => SuccessState(st, now, at)
  }

  // The calls for one key, as if it were alone and never pruned.
  function KeyRun(st: State, cs: seq<Call>, key: RouteKey): State
    decreases |cs|
  {
    if cs == [] then st
    else KeyRun(if cs[0].key == key then KeyStep(st, cs[0].now, cs[0].op) else st, cs[1..], key)
  }

  // --- All routes -----------------------------------------------------------------------

  datatype Table = Table(states: map<RouteKey, State>, operations: nat)

  function StateOf(states: map<RouteKey, State>, key: RouteKey): State { if key in states then states[key] else FRESH }

  predicate Prunable(st: State, now: int) {
    && st.openUntil <= now && st.retainUntil <= now
    && (var lastSeen := Max(st.lastFailure, st.lastSuccess); lastSeen == 0 || lastSeen <= now - IDLE_TTL)
  }

  function PruneAll(states: map<RouteKey, State>, now: int): map<RouteKey, State> {
    map k | k in states && !Prunable(states[k], now) :: states[k]
  }

  function Prune(b: Table, now: int): Table {
    Table(if (b.operations + 1) % PRUNE_EVERY == 0 then PruneAll(b.states, now) else b.states, b.operations + 1)
  }

  function Step(b: Table, c: Call): Table {
    match c.op
    case Allow(ttl) =>
      var (st, r) := AllowState(StateOf(b.states, c.key), c.now, ttl);
      if r.Denied? then b else b.(states := b.states[c.key := st])
    case _ =>
      var p := Prune(b, c.now);
      var st := KeyStep(StateOf(p.states, c.key), c.now, c.op);
      if st == StateOf(p.states, c.key) then p else p.(states := p.states[c.key := st])
  }

  function Run(b: Table, cs: seq<Call>): Table
    decreases |cs|
  {
    if cs == [] then b else Run(Step(b, cs[0]), cs[1..])
  }

  // --- Retention ---------------------------------------------------------------------------

  lemma StepWithinRetention(b: Table, c: Call, key: RouteKey)
    requires key in b.states && c.now < b.states[key].retainUntil
    ensures var b' := Step(b, c);
      && key in b'.states
      && b'.states[key] == (if c.key == key then KeyStep(b.states[key], c.now, c.op) else b.states[key])
      && b'.states[key].retainUntil >= b.states[key].retainUntil
  {
  }

  /** As long as an admitted attempt is inside its retention, the pruned table
      treats its route exactly as if the route were alone and never pruned. */
  lemma {:induction false} WithinRetention(b: Table, cs: seq<Call>, key: RouteKey, deadline: int)
    requires key in b.states && deadline <= b.states[key].retainUntil
    requires forall i :: 0 <= i < |cs| ==> cs[i].now < deadline
    ensures key in Run(b, cs).states
    ensures Run(b, cs).states[key] == KeyRun(b.states[key], cs, key)
    decreases |cs|
  {
    hide Step, KeyStep;
    if cs != [] {
      StepWithinRetention(b, cs[0], key);
      WithinRetention(Step(b, cs[0]), cs[1..], key, deadline);
    }
  }

  /** No call drops a route while an attempt admitted to it is inside its
      retention, whatever other routes do. */
  lemma AdmissionRetainsRoute(b: Table, c: Call, later: seq<Call>)
    requires c.op.Allow? && AllowState(StateOf(b.states, c.key), c.now, c.op.ttl).1.Admitted?
    requires forall i :: 0 <= i < |later| ==> later[i].now < c.now + c.op.ttl
    ensures c.key in Run(Step(b, c), later).states
    ensures Run(Step(b, c), later).states[c.key]
         == KeyRun(KeyStep(StateOf(b.states, c.key), c.now, c.op), later, c.key)
  {
    WithinRetention(Step(b, c), later, c.key, c.now + c.op.ttl);
  }

  // --- Evidence ------------------------------------------------------------------------------

  predicate IsOutcome(c: Call, key: RouteKey) { c.key == key && !c.op.Allow? }

  /** Every outcome carries the positive admission time of its attempt, and an
      attempt reports one outcome, however often. */
  predicate Reports(cs: seq<Call>, key: RouteKey, verdict: int -> bool) {
    forall i :: 0 <= i < |cs| && IsOutcome(cs[i], key) ==>
      cs[i].op.startedAt > 0 && cs[i].op.Succeed? == verdict(cs[i].op.startedAt)
  }

  // Newest admission heard of; zero before the first outcome.
  function Newest(st: State): int { Max(st.lastFailure, st.lastSuccess) }

  function NewestOf(newest: int, cs: seq<Call>, key: RouteKey): int
    decreases |cs|
  {
    if cs == [] then newest
    else NewestOf(if IsOutcome(cs[0], key) then Max(newest, cs[0].op.startedAt) else newest, cs[1..], key)
  }

  /** The newest admission heard of decides which evidence is larger, and a
      route whose newest evidence is a success is closed with no failures. */
  predicate Decided(st: State, verdict: int -> bool) {
    && 0 <= st.lastFailure && 0 <= st.lastSuccess
    && (Newest(st) > 0 ==> if verdict(Newest(st)) then st.lastSuccess > st.lastFailure else st.lastFailure > st.lastSuccess)
    && (st.lastSuccess > st.lastFailure ==> st.failures == 0 && st.openUntil == 0)
  }

  lemma OutcomeDecides(st: State, now: int, op: Op, verdict: int -> bool)
    requires Decided(st, verdict)
    requires !op.Allow? ==> op.startedAt > 0 && op.Succeed? == verdict(op.startedAt)
    ensures var st' := KeyStep(st, now, op);
      Decided(st', verdict) && Newest(st') == if op.Allow? then Newest(st) else Max(Newest(st), op.startedAt)
  {
  }

  lemma {:induction false} NewestEvidenceDecides(st: State, cs: seq<Call>, key: RouteKey, verdict: int -> bool)
    requires Decided(st, verdict) && Reports(cs, key, verdict)
    ensures Decided(KeyRun(st, cs, key), verdict)
    ensures Newest(KeyRun(st, cs, key)) == NewestOf(Newest(st), cs, key)
    decreases |cs|
  {
    hide KeyStep, Decided, Newest;
    if cs != [] {
      if cs[0].key == key {
        OutcomeDecides(st, cs[0].now, cs[0].op, verdict);
      }
      NewestEvidenceDecides(if cs[0].key == key then KeyStep(st, cs[0].now, cs[0].op) else st, cs[1..], key, verdict);
    }
  }

  function Delivered(cs: seq<Call>, key: RouteKey): set<int> {
    set i | 0 <= i < |cs| && IsOutcome(cs[i], key) :: cs[i].op.startedAt
  }

  lemma {:induction false} NewestIsMaximum(newest: int, cs: seq<Call>, key: RouteKey)
    ensures var r := NewestOf(newest, cs, key);
      && r in Delivered(cs, key) + {newest}
      && forall t :: t in Delivered(cs, key) + {newest} ==> t <= r
    decreases |cs|
  {
    if cs != [] {
      var rest := cs[1..];
      NewestIsMaximum(if IsOutcome(cs[0], key) then Max(newest, cs[0].op.startedAt) else newest, rest, key);
      assert Delivered(cs, key) == Delivered(rest, key) + (if IsOutcome(cs[0], key) then {cs[0].op.startedAt} else {}) by {
        assert forall i :: 0 <= i < |rest| ==> rest[i] == cs[i + 1];
        forall t | t in Delivered(cs, key)
          ensures t in Delivered(rest, key) + (if IsOutcome(cs[0], key) then {cs[0].op.startedAt} else {})
        {
          var i :| 0 <= i < |cs| && IsOutcome(cs[i], key) && cs[i].op.startedAt == t;
          assert i > 0 ==> rest[i - 1] == cs[i];
        }
      }
    }
  }

  /** Two runs that hear the same outcomes in different orders, at different
      times and interleaved with different admissions agree on the newest
      evidence and on whether it is a success, which closes the route. */
  lemma CompletionOrderIsIrrelevant(st: State, cs: seq<Call>, ds: seq<Call>, key: RouteKey, verdict: int -> bool)
    requires Decided(st, verdict) && Reports(cs, key, verdict) && Reports(ds, key, verdict)
    requires Delivered(cs, key) == Delivered(ds, key)
    ensures var x, y := KeyRun(st, cs, key), KeyRun(st, ds, key);
      && Newest(x) == Newest(y)
      && (x.lastSuccess > x.lastFailure <==> y.lastSuccess > y.lastFailure)
      && (Newest(x) > 0 && verdict(Newest(x)) ==> x.openUntil == y.openUntil == 0 && x.failures == y.failures == 0)
  {
    NewestEvidenceDecides(st, cs, key, verdict);
    NewestEvidenceDecides(st, ds, key, verdict);
    NewestIsMaximum(Newest(st), cs, key);
    NewestIsMaximum(Newest(st), ds, key);
  }

  /** An outcome that is stale where it arrives: a success not newer than the
      newest failure, or a failure not newer than the newest success. */
  predicate Stale(st: State, c: Call, key: RouteKey) {
    IsOutcome(c, key) && c.op.startedAt > 0
    && if c.op.Succeed? then c.op.startedAt <= st.lastFailure else c.op.startedAt <= st.lastSuccess
  }

  lemma {:induction false} RunJoined(st: State, cs: seq<Call>, ds: seq<Call>, key: RouteKey)
    ensures KeyRun(st, cs + ds, key) == KeyRun(KeyRun(st, cs, key), ds, key)
    decreases |cs|
  {
    hide KeyStep;
    if cs == [] {
      assert cs + ds == ds;
    } else {
      assert (cs + ds)[1..] == cs[1..] + ds;
      RunJoined(if cs[0].key == key then KeyStep(st, cs[0].now, cs[0].op) else st, cs[1..], ds, key);
    }
  }

  lemma StaleStep(st: State, c: Call, key: RouteKey)
    requires Stale(st, c, key)
    ensures KeyStep(st, c.now, c.op) == st
  {
  }

  /** A stale outcome leaves no trace: the run goes on exactly as if it had
      never arrived. An older success neither closes the route nor hides a newer
      failure, an older failure never opens it. */
  lemma StaleOutcomesLeaveNoTrace(st: State, cs: seq<Call>, c: Call, ds: seq<Call>, key: RouteKey)
    requires Stale(KeyRun(st, cs, key), c, key)
    ensures KeyRun(st, cs + [c] + ds, key) == KeyRun(st, cs + ds, key)
  {
    hide KeyStep, Stale;
    var mid := KeyRun(st, cs, key);
    RunJoined(st, cs + [c], ds, key);
    RunJoined(st, cs, [c], key);
    RunJoined(st, cs, ds, key);
    StaleStep(mid, c, key);
    StaleIsForKey(mid, c, key);
    var one := [c];
    assert one[1..] == [];
    assert KeyRun(mid, one, key) == KeyRun(KeyStep(mid, c.now, c.op), [], key);
  }

  lemma StaleIsForKey(st: State, c: Call, key: RouteKey)
    requires Stale(st, c, key)
    ensures c.key == key
  {
  }

  /** While the route is open no call moves the end of its cooldown, unless a
      success newer than every failure arrives. */
  lemma {:induction false} CooldownIsNotExtended(st: State, cs: seq<Call>, key: RouteKey)
    requires st.lastFailure > 0
    requires forall i :: 0 <= i < |cs| ==> cs[i].now < st.openUntil
    requires forall i :: 0 <= i < |cs| && cs[i].key == key && cs[i].op.Succeed? ==> 0 < cs[i].op.startedAt <= st.lastFailure
    ensures var r := KeyRun(st, cs, key);
      r.openUntil == st.openUntil && r.failures == st.failures && r.lastAdmission == st.lastAdmission
    decreases |cs|
  {
    if cs != [] {
      CooldownIsNotExtended(if cs[0].key == key then KeyStep(st, cs[0].now, cs[0].op) else st, cs[1..], key);
    }
  }

  // --- Admissions --------------------------------------------------------------------------

  /** Admission times handed out for the key, in order. */
  function Admissions(st: State, cs: seq<Call>, key: RouteKey): seq<int>
    decreases |cs|
  {
    if cs == [] then []
    else if cs[0].key != key then Admissions(st, cs[1..], key)
    else
      var rest := Admissions(KeyStep(st, cs[0].now, cs[0].op), cs[1..], key);
      if cs[0].op.Allow? && AllowState(st, cs[0].now, cs[0].op.ttl).1.Admitted?
      then [AllowState(st, cs[0].now, cs[0].op.ttl).1.at] + rest else rest
  }

  predicate StrictlyIncreasing(s: seq<int>) { forall i, j :: 0 <= i < j < |s| ==> s[i] < s[j] }

  predicate PositiveClock(cs: seq<Call>) { forall i :: 0 <= i < |cs| ==> cs[i].now > 0 }

  lemma {:induction false} AdmissionsIncrease(st: State, cs: seq<Call>, key: RouteKey)
    requires st.lastAdmission >= 0 && PositiveClock(cs)
    ensures var a := Admissions(st, cs, key);
      StrictlyIncreasing(a) && (forall i :: 0 <= i < |a| ==> a[i] > st.lastAdmission)
    decreases |cs|
  {
    if cs != [] {
      AdmissionsIncrease(if cs[0].key == key then KeyStep(st, cs[0].now, cs[0].op) else st, cs[1..], key);
    }
  }

  // --- The table with pruning --------------------------------------------------------------------

  /** Admission times the pruned table hands out for the key, in order. */
  function TableAdmissions(b: Table, cs: seq<Call>, key: RouteKey): seq<int>
    decreases |cs|
  {
    if cs == [] then []
    else
      var rest := TableAdmissions(Step(b, cs[0]), cs[1..], key);
      var st := StateOf(b.states, key);
      if cs[0].key == key && cs[0].op.Allow? && AllowState(st, cs[0].now, cs[0].op.ttl).1.Admitted?
      then [AllowState(st, cs[0].now, cs[0].op.ttl).1.at] + rest else rest
  }

  lemma {:induction false} AdmissionsWithinRetention(b: Table, cs: seq<Call>, key: RouteKey, deadline: int)
    requires key in b.states && deadline <= b.states[key].retainUntil
    requires forall i :: 0 <= i < |cs| ==> cs[i].now < deadline
    ensures TableAdmissions(b, cs, key) == Admissions(b.states[key], cs, key)
    decreases |cs|
  {
    hide Step, KeyStep;
    if cs != [] {
      StepWithinRetention(b, cs[0], key);
      AdmissionsWithinRetention(Step(b, cs[0]), cs[1..], key, deadline);
    }
  }

  /** In the pruned table, from an admission on and inside its retention: later
      admissions of the route strictly increase, and the newest evidence heard of
      decides, in whatever order outcomes arrive and whatever other routes do. */
  lemma TableFollowsEvidence(b: Table, c: Call, later: seq<Call>, verdict: int -> bool)
    requires c.op.Allow? && AllowState(StateOf(b.states, c.key), c.now, c.op.ttl).1.Admitted?
    requires c.now > 0 && StateOf(b.states, c.key).lastAdmission >= 0 && PositiveClock(later)
    requires forall i :: 0 <= i < |later| ==> later[i].now < c.now + c.op.ttl
    requires Decided(StateOf(b.states, c.key), verdict) && Reports(later, c.key, verdict)
    ensures var admitted := AllowState(StateOf(b.states, c.key), c.now, c.op.ttl).1.at;
      var b' := Run(Step(b, c), later);
      && StrictlyIncreasing([admitted] + TableAdmissions(Step(b, c), later, c.key))
      && c.key in b'.states && Decided(b'.states[c.key], verdict)
      && Newest(b'.states[c.key]) == NewestOf(Newest(StateOf(b.states, c.key)), later, c.key)
  {
    hide Run, Decided, Reports, KeyRun, Admissions, TableAdmissions, NewestOf, Newest;
    var st := KeyStep(StateOf(b.states, c.key), c.now, c.op);
    AdmissionRetainsRoute(b, c, later);
    OutcomeDecides(StateOf(b.states, c.key), c.now, c.op, verdict);
    NewestEvidenceDecides(st, later, c.key, verdict);
    AdmissionsWithinRetention(Step(b, c), later, c.key, c.now + c.op.ttl);
    AdmissionsIncrease(st, later, c.key);
  }

  // --- The breaker as it runs ------------------------------------------------------------------

  class LocalBreaker {
    var states: map<RouteKey, State>
    var operations: nat

    function View(): Table
      reads this
    {
      Table(states, operations)
    }

    constructor ()
      ensures View() == Table(map[], 0)
    {
      states, operations := map[], 0;
    }

    method AllowAttempt(key: RouteKey, now: int, ttl: int) returns (r: Admission)
      modifies this
      ensures View() == Step(old(View()), Call(now, key, Allow(ttl)))
      ensures r == AllowState(StateOf(old(states), key), now, ttl).1
    {
      var state := StateOf(states, key);
      if state.openUntil > now {
        return Denied;
      }
      var at := now;
      if state.lastAdmission != 0 && at <= state.lastAdmission {
        at := state.lastAdmission + 1;
      }
      state := state.(lastAdmission := at);
      if now + ttl > state.retainUntil {
        state := state.(retainUntil := now + ttl);
      }
      states := states[key := state];
      return Admitted(at);
    }

    // Every 256th outcome walks the table, in any order.
    method PruneStates(now: int)
      modifies this
      ensures View() == Prune(old(View()), now)
    {
      operations := operations + 1;
      if operations % PRUNE_EVERY != 0 {
        return;
      }
      var remaining := states.Keys;
      while remaining != {}
        invariant remaining <= states.Keys && operations == old(operations) + 1
        invariant PruneAll(states, now) == PruneAll(old(states), now)
        invariant forall k :: k in states && k !in remaining ==> !Prunable(states[k], now)
      {
        var key :| key in remaining;
        remaining := remaining - {key};
        if Prunable(states[key], now) {
          states := states - {key};
        }
      }
      assert states == PruneAll(states, now);
    }

    method FailAttempt(key: RouteKey, now: int, startedAt: int, threshold: int, cooldown: int)
      modifies this
      ensures View() == Step(old(View()), Call(now, key, Fail(startedAt, threshold, cooldown)))
    {
      PruneStates(now);
      var at := if startedAt == 0 then now else startedAt;
      var state := StateOf(states, key);
      if state.lastSuccess != 0 && at <= state.lastSuccess {
        return;
      }
      if at > state.lastFailure {
        state := state.(lastFailure := at);
      }
      if state.openUntil > now {
        Store(key, state);
        return;
      }
      state := state.(failures := state.failures + 1);
      if state.failures >= (if threshold <= 0 then 1 else threshold) {
        state := state.(openUntil := now + (if cooldown <= 0 then SECOND else cooldown), failures := 0);
      }
      Store(key, state);
    }

    method SuccessAttempt(key: RouteKey, now: int, startedAt: int)
      modifies this
      ensures View() == Step(old(View()), Call(now, key, Succeed(startedAt)))
    {
      PruneStates(now);
      var at := if startedAt == 0 then now else startedAt;
      var state := StateOf(states, key);
      if state.lastFailure != 0 && at <= state.lastFailure {
        return;
      }
      state := state.(failures := 0, openUntil := 0);
      if at > state.lastSuccess {
        state := state.(lastSuccess := at);
      }
      Store(key, state);
    }

    // Writing back an unchanged state is not observable.
    method Store(key: RouteKey, state: State)
      modifies this`states
      ensures states == if state == StateOf(old(states), key) then old(states) else old(states)[key := state]
    {
      if state != StateOf(states, key) {
        states := states[key := state];
      }
    }
  }
}
