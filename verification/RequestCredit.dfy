/** The per-request credit machine (policy/quota.go): every attempt is reserved
    before dispatch and later released or reconciled; reservation that was not
    used becomes credit for the next attempt. */
module RequestCredit {
  import opened QuotaTypes

  // Go's int64 subtraction wraps around.
  function Wrap(x: int): (r: int64)
    requires 2 * MIN_INT64 <= x <= 2 * MAX_INT64 + 1
    ensures MIN_INT64 <= x <= MAX_INT64 ==> r == x
    ensures x > MAX_INT64 ==> r < 0
  {
    if x > MAX_INT64 then x - 0x1_0000_0000_0000_0000
    else if x < MIN_INT64 then x + 0x1_0000_0000_0000_0000
    else x
  }

  function Least(a: int64, b: int64): (r: int64) { if a <= b then a else b }
  function AtLeastZero(a: int64): (r: int64) { if a >= 0 then a else 0 }

  /** Takes what it can from the credit and returns what is left to top up,
      with the credit that remains. */
  function Consume(want: EstimatedUsage, available: EstimatedUsage): (r: (EstimatedUsage, EstimatedUsage))
    ensures 0 <= r.0.spend && 0 <= r.1.spend && 0 <= r.1.input && r.1.output == 0
  {
    var wantTokens, availableTokens := EstimatedTokens(want), EstimatedTokens(available);
    var used := Least(wantTokens, availableTokens);
    var appliedTokens: int64 := wantTokens - used;
    var appliedInput := Least(want.input, appliedTokens);
    var usedSpend := Least(AtLeastZero(want.spend), AtLeastZero(available.spend));
    (EstimatedUsage(appliedInput, Wrap(appliedTokens - appliedInput), AtLeastZero(Wrap(want.spend - usedSpend))),
     EstimatedUsage(availableTokens - used, 0, AtLeastZero(Wrap(available.spend - usedSpend))))
  }

  /** What the credit covers of a wanted estimate. */
  function CoveredTokens(want: EstimatedUsage, available: EstimatedUsage): int {
    Min(EstimatedTokens(want), EstimatedTokens(available))
  }

  function CoveredSpend(want: EstimatedUsage, available: EstimatedUsage): int {
    Min(Max(want.spend, 0), Max(available.spend, 0))
  }

  /** Spend splits exactly into credit and top-up, and no credit is lost. */
  lemma ConsumeSplitsSpend(want: EstimatedUsage, available: EstimatedUsage)
    ensures var (applied, remaining) := Consume(want, available);
      && applied.spend + CoveredSpend(want, available) == Max(want.spend, 0)
      && remaining.spend + CoveredSpend(want, available) == Max(available.spend, 0)
      && EstimatedTokens(remaining) + CoveredTokens(want, available) == EstimatedTokens(available)
  {
  }

  /** Tokens split exactly into credit and top-up precisely when the wanted
      input is not negative. (At the least int64 a fully covered estimate slips
      through: its negation wraps onto itself.) */
  lemma ConsumeSplitsTokens(want: EstimatedUsage, available: EstimatedUsage)
    ensures EstimatedTokens(Consume(want, available).0) + CoveredTokens(want, available) == EstimatedTokens(want)
      <==> want.input >= 0 || (want.input == MIN_INT64 && EstimatedTokens(want) <= EstimatedTokens(available))
  {
  }

  /** A negative input with a large output tops up nothing at all: the request
      is admitted with no tokens held for it. */
  lemma NegativeInputHoldsNothing(available: EstimatedUsage)
    requires EstimatedTokens(available) == 0
    ensures var want := EstimatedUsage(-1, MAX_INT64, 0);
      EstimatedTokens(want) == MAX_INT64 && EstimatedTokens(Consume(want, available).0) == 0
  {
  }

  // --- Credit state -----------------------------------------------------------------

  datatype Credit = Credit(reserve: EstimatedUsage, credit: EstimatedUsage, attempts: map<Id, EstimatedUsage>)

  const NO_CREDIT: Credit := Credit(NO_ESTIMATE, NO_ESTIMATE, map[])

  function Plus(a: EstimatedUsage, b: EstimatedUsage): EstimatedUsage {
    EstimatedUsage(SaturatingSum(a.input, b.input), SaturatingSum(a.output, b.output), SaturatingSum(a.spend, b.spend))
  }

  predicate AnyUsage(d: EstimatedUsage) { EstimatedTokens(d) > 0 || d.spend > 0 }

  function ReserveDelta(c: Credit, want: EstimatedUsage): EstimatedUsage { Consume(want, c.credit).0 }

  function Reserved(c: Credit, attempt: Id, want: EstimatedUsage): Credit {
    Credit(Plus(c.reserve, ReserveDelta(c, want)), Consume(want, c.credit).1, c.attempts[attempt := want])
  }

  function Released(c: Credit, attempt: Id): Credit {
    if attempt !in c.attempts then c
    else c.(credit := Plus(c.credit, c.attempts[attempt]), attempts := c.attempts - {attempt})
  }

  /** What an attempt used beyond its estimate; tokens are folded into the input. */
  function Overage(estimate: EstimatedUsage, actual: ActualUsage): EstimatedUsage {
    var est, act := EstimatedTokens(estimate), ActualTokens(actual);
    EstimatedUsage(if act > est then act - est else 0, 0,
                   if actual.spend > estimate.spend then Wrap(actual.spend - estimate.spend) else 0)
  }

  function Unused(estimate: EstimatedUsage, actual: ActualUsage): EstimatedUsage {
    var est, act := EstimatedTokens(estimate), ActualTokens(actual);
    EstimatedUsage(if est > act then est - act else 0, 0,
                   if estimate.spend > actual.spend then Wrap(estimate.spend - actual.spend) else 0)
  }

  function Reconciled(c: Credit, attempt: Id, actual: ActualUsage): Credit
    requires attempt in c.attempts
  {
    var over, unused := Overage(c.attempts[attempt], actual), Unused(c.attempts[attempt], actual);
    Credit(if AnyUsage(over) then Plus(c.reserve, over) else c.reserve,
           EstimatedUsage(if unused.input > 0 then SaturatingSum(c.credit.input, unused.input) else c.credit.input,
                          c.credit.output,
                          if unused.spend > 0 then SaturatingSum(c.credit.spend, unused.spend) else c.credit.spend),
           c.attempts - {attempt})
  }

  /** The top-up that settlement asks for before it commits: exactly what brings
      the reservation up to the actual usage. */
  function SettlementDelta(reserve: EstimatedUsage, actual: ActualUsage): (r: EstimatedUsage)
    ensures r.output == 0
    ensures EstimatedTokens(reserve) + r.input == Max(EstimatedTokens(reserve), ActualTokens(actual))
    ensures 0 <= reserve.spend ==> reserve.spend + r.spend == Max(reserve.spend, actual.spend)
    ensures AnyUsage(r) ==> EstimatedTokens(reserve) < ActualTokens(actual) || reserve.spend < actual.spend
  {
    Overage(reserve, actual)
  }

  // --- Reservation lifetime -----------------------------------------------------------

  // Timeout and tries of one candidate route; None for a missing route.
  datatype Candidate = Candidate(timeout: int64, tries: int64)

  const SETTLEMENT_BUFFER: int64 := 10 * SECOND

  function EffectiveTimeout(timeout: int64): (r: int64)
    ensures r > 0 && (timeout > 0 ==> r == timeout) && (timeout <= 0 ==> r == 30_000_000_000)
  {
    if timeout <= 0 then 30 * SECOND else timeout
  }

  predicate PositiveTries(cs: seq<Option<Candidate>>) {
    forall i :: 0 <= i < |cs| && cs[i].Some? ==> cs[i].value.tries >= 1
  }

  /** The time all candidates may take one after the other. */
  function TimeNeeded(cs: seq<Option<Candidate>>): int {
    if cs == [] then 0
    else TimeNeeded(cs[..|cs| - 1])
         + (var c := cs[|cs| - 1]; if c.None? then 0 else EffectiveTimeout(c.value.timeout) * c.value.tries)
  }

  lemma ProductBelow(a: int, b: int, n: int)
    requires b >= 1 && n >= 0
    ensures a > n / b <==> a * b > n
  {
    assert n == b * (n / b) + n % b;
    if a > n / b {
      assert b * a >= b * (n / b + 1) by { MulMonotone(b, n / b + 1, a); }
    } else {
      MulMonotone(b, a, n / b);
    }
  }

  lemma MulMonotone(b: int, x: int, y: int)
    requires b >= 1 && x <= y
    ensures b * x <= b * y
  {
  }

  lemma {:induction false} TimeNeededGrows(cs: seq<Option<Candidate>>, i: nat)
    requires PositiveTries(cs) && i <= |cs|
    ensures 0 <= TimeNeeded(cs[..i]) <= TimeNeeded(cs)
    decreases |cs|
  {
    if i < |cs| {
      var prefix := cs[..|cs| - 1];
      TimeNeededGrows(prefix, i);
      assert prefix[..i] == cs[..i];
      CandidateTime(cs[|cs| - 1]);
    } else {
      assert cs[..i] == cs;
      if cs != [] {
        var prefix := cs[..|cs| - 1];
        TimeNeededGrows(prefix, |prefix|);
        assert prefix[..|prefix|] == prefix;
        CandidateTime(cs[|cs| - 1]);
      }
    }
  }

  lemma CandidateTime(c: Option<Candidate>)
    requires c.Some? ==> c.value.tries >= 1
    ensures c.Some? ==> EffectiveTimeout(c.value.timeout) * c.value.tries > 0
  {
    if c.Some? {
      MulMonotone(c.value.tries, 1, EffectiveTimeout(c.value.timeout));
    }
  }

  /** A reservation outlives every candidate tried in turn plus the settlement
      buffer, with the sum capped at MaxInt64 and never formed beyond it. */
  method ReservationLifetime(cs: seq<Option<Candidate>>, configured: int64) returns (ttl: int64)
    requires PositiveTries(cs)
    ensures ttl == Max(configured, Min(MAX_INT64, 10_000_000_000 + TimeNeeded(cs)))
  {
    var required: int64 := SETTLEMENT_BUFFER;
    assert cs[..0] == [];
    var i := 0;
    while i < |cs|
      invariant 0 <= i <= |cs|
      invariant SETTLEMENT_BUFFER <= required
      invariant required == SETTLEMENT_BUFFER + TimeNeeded(cs[..i])
    {
      assert cs[..i + 1][..i] == cs[..i];
      TimeNeededGrows(cs, i + 1);
      if cs[i].Some? {
        var timeout, tries := EffectiveTimeout(cs[i].value.timeout), cs[i].value.tries;
        CandidateTime(cs[i]);
        ProductBelow(timeout, tries, MAX_INT64 - required);
        if timeout > (MAX_INT64 - required) / tries {
          return MAX_INT64;
        }
        required := required + timeout * tries;
      }
      i := i + 1;
    }
    assert cs[..|cs|] == cs;
    if configured < required {
      return required;
    }
    return configured;
  }
}
