/** The Redis circuit breaker (store/redis.go) and its agreement with the local
    one. Redis keeps admission times in microseconds and cooldowns in
    milliseconds; the local breaker keeps both in nanoseconds. */
module RedisBreaker {
  import L = Breaker

  const MS: int := 1_000_000

  // The fields of a breaker hash; a missing field reads as zero.
  datatype Hash = Hash(failures: nat, openUntilMs: int, lastAdmissionUs: int, lastFailureUs: int, lastSuccessUs: int)

  const NO_HASH: Hash := Hash(0, 0, 0, 0, 0)

  function NowMs(nowUs: int): int { nowUs / 1000 }

  function AllowScript(h: Hash, nowUs: int): (Hash, L.Admission) {
    if h.openUntilMs > NowMs(nowUs) then (h, L.Denied)
    else
      var at := if nowUs <= h.lastAdmissionUs then h.lastAdmissionUs + 1 else nowUs;
      (h.(lastAdmissionUs := at), L.Admitted(at))
  }

  function FailScript(h: Hash, nowUs: int, startedAtUs: int, threshold: int, cooldownMs: int): Hash {
    var at := if startedAtUs <= 0 then nowUs else startedAtUs;
    var limit := if threshold <= 0 then 1 else threshold;
    var pause := if cooldownMs <= 0 then 1000 else cooldownMs;
    if h.lastSuccessUs > 0 && at <= h.lastSuccessUs then h
    else
      var failure := if at > h.lastFailureUs then at else h.lastFailureUs;
      if h.openUntilMs > NowMs(nowUs) then h.(lastFailureUs := failure)
      else if h.failures + 1 >= limit
      then h.(failures := 0, openUntilMs := NowMs(nowUs) + pause, lastFailureUs := failure)
      else h.(failures := h.failures + 1, lastFailureUs := failure)
  }

  function SuccessScript(h: Hash, nowUs: int, startedAtUs: int): Hash {
    var at := if startedAtUs <= 0 then nowUs else startedAtUs;
    if h.lastFailureUs > 0 && at <= h.lastFailureUs then h
    else h.(failures := 0, openUntilMs := 0, lastSuccessUs := if at > h.lastSuccessUs then at else h.lastSuccessUs)
  }

  // --- The same calls on both breakers -----------------------------------------------------

  /** A call on a whole-millisecond clock. An outcome names its attempt by the
      position of its admission; attempts never admitted have none. */
  datatype Op =
    | Allow(ttl: int)
    | Fail(attempt: nat, threshold: int, cooldownMs: int)
    | Succeed(attempt: nat)

  datatype Call = Call(ms: int, op: Op)

  // Both breakers of one route, with the admission times each has handed out.
  datatype Pair = Pair(local: L.State, redis: Hash, localTimes: seq<int>, redisTimes: seq<int>)

  const START: Pair := Pair(L.FRESH, NO_HASH, [], [])

  function PairStep(p: Pair, c: Call): Pair {
    match c.op
    case Allow(ttl) =>
      var (st, a) := L.AllowState(p.local, c.ms * MS, ttl);
      var (h, b) := AllowScript(p.redis, c.ms * 1000);
      Pair(st, h, if a.Admitted? then p.localTimes + [a.at] else p.localTimes,
           if b.Admitted? then p.redisTimes + [b.at] else p.redisTimes)
    case Fail(i, threshold, cooldownMs) =>
      if i >= |p.localTimes| || i >= |p.redisTimes| then p
      else p.(local := L.FailState(p.local, c.ms * MS, p.localTimes[i], threshold, cooldownMs * MS),
              redis := FailScript(p.redis, c.ms * 1000, p.redisTimes[i], threshold, cooldownMs))
    case Succeed(i) =>
      if i >= |p.localTimes| || i >= |p.redisTimes| then p
      else p.(local := L.SuccessState(p.local, c.ms * MS, p.localTimes[i]),
              redis := SuccessScript(p.redis, c.ms * 1000, p.redisTimes[i]))
  }

  /** What the two breakers answer to the call. */
  function Answers(p: Pair, c: Call): (bool, bool) {
    if !c.op.Allow? then (true, true)
    else (L.AllowState(p.local, c.ms * MS, c.op.ttl).1.Admitted?, AllowScript(p.redis, c.ms * 1000).1.Admitted?)
  }

  function LocalAnswers(p: Pair, cs: seq<Call>): seq<bool>
    decreases |cs|
  {
    if cs == [] then [] else [Answers(p, cs[0]).0] + LocalAnswers(PairStep(p, cs[0]), cs[1..])
  }

  function RedisAnswers(p: Pair, cs: seq<Call>): seq<bool>
    decreases |cs|
  {
    if cs == [] then [] else [Answers(p, cs[0]).1] + RedisAnswers(PairStep(p, cs[0]), cs[1..])
  }

  // --- Agreement -----------------------------------------------------------------------------

  /** Both times belong to the same admission, or neither is set. */
  predicate SameAttempt(p: Pair, local: int, redis: int) {
    || (local == 0 && redis == 0)
    || exists i :: 0 <= i < |p.localTimes| && i < |p.redisTimes| && p.localTimes[i] == local && p.redisTimes[i] == redis
  }

  predicate Times(s: seq<int>, last: int) {
    && L.StrictlyIncreasing(s)
    && (forall i :: 0 <= i < |s| ==> 0 < s[i] <= last)
    && (s == [] ==> last == 0) && (s != [] ==> last == s[|s| - 1])
  }

  predicate Agree(p: Pair)
  {
    && |p.localTimes| == |p.redisTimes|
    && Times(p.localTimes, p.local.lastAdmission) && Times(p.redisTimes, p.redis.lastAdmissionUs)
    && p.local.failures == p.redis.failures
    && p.local.openUntil == p.redis.openUntilMs * MS
    && SameAttempt(p, p.local.lastFailure, p.redis.lastFailureUs)
    && SameAttempt(p, p.local.lastSuccess, p.redis.lastSuccessUs)
  }

  /** Order between admissions is the same on both clocks, although ties are
      broken by a nanosecond on one and by a microsecond on the other. */
  lemma SameOrder(p: Pair, i: nat, local: int, redis: int)
    requires Agree(p) && i < |p.localTimes| && SameAttempt(p, local, redis)
    ensures p.localTimes[i] <= local <==> p.redisTimes[i] <= redis
    ensures p.localTimes[i] > 0 && p.redisTimes[i] > 0 && (local != 0 <==> redis > 0)
  {
    if local != 0 {
      var j :| 0 <= j < |p.localTimes| && p.localTimes[j] == local && p.redisTimes[j] == redis;
      assert i < j || i == j || j < i;
    }
  }

  lemma NextTime(s: seq<int>, last: int, at: int)
    requires Times(s, last) && at > last
    ensures Times(s + [at], at)
  {
  }

  lemma StillSame(p: Pair, q: Pair, local: int, redis: int)
    requires |p.localTimes| == |p.redisTimes| && SameAttempt(p, local, redis)
    requires |p.localTimes| <= |q.localTimes| && |p.localTimes| <= |q.redisTimes|
    requires q.localTimes[..|p.localTimes|] == p.localTimes && q.redisTimes[..|p.localTimes|] == p.redisTimes
    ensures SameAttempt(q, local, redis)
  {
    if local != 0 || redis != 0 {
      var j :| 0 <= j < |p.localTimes| && p.localTimes[j] == local && p.redisTimes[j] == redis;
      assert q.localTimes[j] == p.localTimes[j] && q.redisTimes[j] == p.redisTimes[j];
    }
  }

  lemma SameAnswers(p: Pair, c: Call)
    requires Agree(p) && c.ms > 0
    ensures Answers(p, c).0 == Answers(p, c).1
  {
  }

  lemma AllowAgrees(p: Pair, c: Call)
    requires Agree(p) && c.ms > 0 && c.op.Allow?
    ensures Agree(PairStep(p, c))
  {
    SameAnswers(p, c);
    if Answers(p, c).0 {
      var q := PairStep(p, c);
      NextTime(p.localTimes, p.local.lastAdmission, q.local.lastAdmission);
      NextTime(p.redisTimes, p.redis.lastAdmissionUs, q.redis.lastAdmissionUs);
      StillSame(p, q, p.local.lastFailure, p.redis.lastFailureUs);
      StillSame(p, q, p.local.lastSuccess, p.redis.lastSuccessUs);
    }
  }

  /** The outcome of an admitted attempt compares alike with the evidence on both sides. */
  lemma OutcomeOrder(p: Pair, i: nat)
    requires Agree(p) && i < |p.localTimes|
    ensures p.localTimes[i] > 0 && p.redisTimes[i] > 0 && SameAttempt(p, p.localTimes[i], p.redisTimes[i])
    ensures p.localTimes[i] <= p.local.lastFailure <==> p.redisTimes[i] <= p.redis.lastFailureUs
    ensures p.localTimes[i] <= p.local.lastSuccess <==> p.redisTimes[i] <= p.redis.lastSuccessUs
    ensures (p.local.lastFailure != 0 <==> p.redis.lastFailureUs > 0) && (p.local.lastSuccess != 0 <==> p.redis.lastSuccessUs > 0)
  {
    SameOrder(p, i, p.local.lastFailure, p.redis.lastFailureUs);
    SameOrder(p, i, p.local.lastSuccess, p.redis.lastSuccessUs);
  }

  lemma SameTimes(p: Pair, q: Pair, local: int, redis: int)
    requires q.localTimes == p.localTimes && q.redisTimes == p.redisTimes
    ensures SameAttempt(p, local, redis) == SameAttempt(q, local, redis)
  {
  }

  lemma FailAgrees(p: Pair, c: Call)
    requires Agree(p) && c.ms > 0 && c.op.Fail?
    ensures Agree(PairStep(p, c))
  {
    hide SameAttempt, Times;
    var i := c.op.attempt;
    if i < |p.localTimes| {
      var q := PairStep(p, c);
      OutcomeOrder(p, i);
      SameTimes(p, q, q.local.lastFailure, q.redis.lastFailureUs);
      SameTimes(p, q, q.local.lastSuccess, q.redis.lastSuccessUs);
    }
  }

  lemma SucceedAgrees(p: Pair, c: Call)
    requires Agree(p) && c.ms > 0 && c.op.Succeed?
    ensures Agree(PairStep(p, c))
  {
    hide SameAttempt, Times;
    var i := c.op.attempt;
    if i < |p.localTimes| {
      var q := PairStep(p, c);
      OutcomeOrder(p, i);
      SameTimes(p, q, q.local.lastFailure, q.redis.lastFailureUs);
      SameTimes(p, q, q.local.lastSuccess, q.redis.lastSuccessUs);
    }
  }

  /** Driven by the same calls, the two breakers admit and deny the same
      attempts, in every run. */
  lemma {:induction false} BreakersAgree(p: Pair, cs: seq<Call>)
    requires Agree(p) && forall i :: 0 <= i < |cs| ==> cs[i].ms > 0
    ensures LocalAnswers(p, cs) == RedisAnswers(p, cs)
    decreases |cs|
  {
    hide PairStep, Agree, Answers;
    if cs != [] {
      SameAnswers(p, cs[0]);
      match cs[0].op {
        case Allow(_) => AllowAgrees(p, cs[0]);
        case Fail(_, _, _) => FailAgrees(p, cs[0]);
        case Succeed(_) => SucceedAgrees(p, cs[0]);
      }
      BreakersAgree(PairStep(p, cs[0]), cs[1..]);
    }
  }

  lemma FreshBreakersAgree(cs: seq<Call>)
    requires forall i :: 0 <= i < |cs| ==> cs[i].ms > 0
    ensures LocalAnswers(START, cs) == RedisAnswers(START, cs)
  {
    BreakersAgree(START, cs);
  }

  // --- The scripts as they run: reads and writes of single hash fields ------------------------

  class BreakerHash {
    var failures: nat
    var openUntilMs: int
    var lastAdmissionUs: int
    var lastFailureUs: int
    var lastSuccessUs: int

    function View(): Hash
      reads this
    {
      Hash(failures, openUntilMs, lastAdmissionUs, lastFailureUs, lastSuccessUs)
    }

    constructor ()
      ensures View() == NO_HASH
    {
      failures, openUntilMs, lastAdmissionUs, lastFailureUs, lastSuccessUs := 0, 0, 0, 0, 0;
    }

    method Allow(nowUs: int) returns (r: L.Admission)
      modifies this`lastAdmissionUs
      ensures (View(), r) == AllowScript(old(View()), nowUs)
    {
      if openUntilMs > NowMs(nowUs) {
        return L.Denied;
      }
      var at := nowUs;
      if at <= lastAdmissionUs {
        at := lastAdmissionUs + 1;
      }
      lastAdmissionUs := at;
      return L.Admitted(at);
    }

    method Fail(nowUs: int, startedAtUs: int, threshold: int, cooldownMs: int)
      modifies this`failures, this`openUntilMs, this`lastFailureUs
      ensures View() == FailScript(old(View()), nowUs, startedAtUs, threshold, cooldownMs)
    {
      var at := if startedAtUs <= 0 then nowUs else startedAtUs;
      if lastSuccessUs > 0 && at <= lastSuccessUs {
        return;
      }
      if at > lastFailureUs {
        lastFailureUs := at;
      }
      if openUntilMs > NowMs(nowUs) {
        return;
      }
      failures := failures + 1;
      if failures >= (if threshold <= 0 then 1 else threshold) {
        openUntilMs := NowMs(nowUs) + (if cooldownMs <= 0 then 1000 else cooldownMs);
        failures := 0;
      }
    }

    method Success(nowUs: int, startedAtUs: int)
      modifies this`failures, this`openUntilMs, this`lastSuccessUs
      ensures View() == SuccessScript(old(View()), nowUs, startedAtUs)
    {
      var at := if startedAtUs <= 0 then nowUs else startedAtUs;
      if lastFailureUs > 0 && at <= lastFailureUs {
        return;
      }
      if at > lastSuccessUs {
        lastSuccessUs := at;
      }
      failures, openUntilMs := 0, 0;
    }
  }
}
