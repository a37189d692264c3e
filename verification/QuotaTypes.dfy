/** Values shared by the quota stores: usage records, limits, accounting keys
    and calendar buckets (gateway/types.go, gateway/config.go, store/store.go). */
module QuotaTypes {

  const MAX_INT64: int := 0x7FFF_FFFF_FFFF_FFFF
  const MIN_INT64: int := -0x8000_0000_0000_0000
  const MAX_QUOTA: int := 99_999_999_999_999

  type int64 = x: int | MIN_INT64 <= x <= MAX_INT64

  const SECOND: int := 1_000_000_000
  const MINUTE: int := 60 * SECOND
  const HOUR: int := 60 * MINUTE
  const DAY: int := 24 * HOUR

  // Request IDs are opaque; 0 stands for the empty string.
  type Id = nat

  datatype Option<+T> = None | Some(value: T) {
    function GetOr(default: T): T { if Some? then value else default }
  }

  function Min(a: int, b: int): int { if a <= b then a else b }
  function Max(a: int, b: int): int { if a >= b then a else b }

  datatype ScopeRef = ScopeRef(kind: string, id: string)

  datatype LimitSpec = LimitSpec(
    rpm: int64, tpm: int64, maxParallel: int64, maxSpend: int64, softSpend: int64,
    daily: int64, monthly: int64, budgetDuration: int64,
    maxInputTokens: int64, maxOutputTokens: int64,
    modelAllowlist: seq<string>, providerAllowlist: seq<string>)

  datatype ScopedLimit = ScopedLimit(ref: ScopeRef, limits: LimitSpec)

  datatype EstimatedUsage = EstimatedUsage(input: int64, output: int64, spend: int64)
  datatype ActualUsage = ActualUsage(input: int64, output: int64, spend: int64)

  const NO_ESTIMATE: EstimatedUsage := EstimatedUsage(0, 0, 0)

  /** Adds two counts, reading negative counts as zero and stopping at MaxInt64. */
  function SaturatingSum(first: int64, second: int64): (r: int64)
    ensures r == Min(MAX_INT64, Max(first, 0) + Max(second, 0))
  {
    var a: int64 := if first < 0 then 0 else first;
    var b: int64 := if second < 0 then 0 else second;
    if a > MAX_INT64 - b then MAX_INT64 else a + b
  }

  function EstimatedTokens(u: EstimatedUsage): int64 { SaturatingSum(u.input, u.output) }
  function ActualTokens(u: ActualUsage): int64 { SaturatingSum(u.input, u.output) }

  /** Non-negative fields whose token total does not saturate. */
  predicate NormalEstimate(u: EstimatedUsage) {
    0 <= u.input && 0 <= u.output && 0 <= u.spend && u.input + u.output <= MAX_INT64
  }

  predicate NormalActual(u: ActualUsage) {
    0 <= u.input && 0 <= u.output && 0 <= u.spend && u.input + u.output <= MAX_INT64
  }

  /** Clamps negative fields and folds an overflowing total into the input. */
  function NormalizeEstimate(u: EstimatedUsage): (r: EstimatedUsage)
    ensures NormalEstimate(r)
    ensures EstimatedTokens(r) == EstimatedTokens(u)
    ensures r.spend == Max(u.spend, 0)
    ensures NormalEstimate(u) ==> r == u
  {
    var input: int64 := if u.input < 0 then 0 else u.input;
    var output: int64 := if u.output < 0 then 0 else u.output;
    var spend: int64 := if u.spend < 0 then 0 else u.spend;
    if input > MAX_INT64 - output
    then EstimatedUsage(MAX_INT64, 0, spend)
    else EstimatedUsage(input, output, spend)
  }

  function NormalizeActual(u: ActualUsage): (r: ActualUsage)
    ensures NormalActual(r)
    ensures ActualTokens(r) == ActualTokens(u)
    ensures r.spend == Max(u.spend, 0)
    ensures NormalActual(u) ==> r == u
  {
    var input: int64 := if u.input < 0 then 0 else u.input;
    var output: int64 := if u.output < 0 then 0 else u.output;
    var spend: int64 := if u.spend < 0 then 0 else u.spend;
    if input > MAX_INT64 - output
    then ActualUsage(MAX_INT64, 0, spend)
    else ActualUsage(input, output, spend)
  }

  /** A clock reading: Unix nanoseconds, with the UTC calendar month and the
      first instant of the next one as the time library reports them. */
  datatype Instant = Instant(ns: int, month: int, nextMonth: int)

  datatype Bucket = Forever | Window(period: int, start: int)

  /** The accounting keys of one scope; NoKey is the empty key string. */
  datatype Key =
    | NoKey
    | Active
    | Rpm(minute: int)
    | Tpm(minute: int)
    | SpendUsed(bucket: Bucket)
    | SpendHeld(bucket: Bucket)
    | DayUsed(day: int)
    | DayHeld(day: int)
    | MonthUsed(month: int)
    | MonthHeld(month: int)

  datatype QuotaKeys = QuotaKeys(
    active: Key, rpm: Key, tpm: Key, spendUsed: Key, spendHeld: Key,
    dayUsed: Key, dayHeld: Key, monthUsed: Key, monthHeld: Key)

  // Zero stands for "no expiry".
  datatype QuotaExpiries = QuotaExpiries(spendUsed: int, dayUsed: int, monthUsed: int)

  datatype Scope = Scope(ref: ScopeRef, limit: LimitSpec, keys: QuotaKeys, expires: QuotaExpiries)

  // Go's remainder takes the sign of the dividend.
  function GoRemainder(a: int, b: int): int
    requires b > 0
  {
    if a >= 0 then a % b else -((-a) % b)
  }

  /** Start of the fixed spend window that contains the instant: windows are
      aligned to the Unix epoch, also before it. */
  function BudgetBucketStart(period: int, ns: int): (start: int)
    requires period > 0
    ensures start <= ns < start + period
    ensures start % period == 0
  {
    var r := GoRemainder(ns, period);
    var r' := if r < 0 then r + period else r;
    RemainderIsModulo(ns, period);
    AlignedDown(ns, period);
    ns - r'
  }

  lemma MultipleBound(b: int, d: int)
    requires b > 0
    ensures d >= 1 ==> b * d >= b
    ensures d <= -1 ==> b * d <= -b
  {
  }

  lemma UniqueModulo(a: int, b: int, q: int, m: int)
    requires b > 0 && 0 <= m < b && a == b * q + m
    ensures a % b == m
  {
    assert a == b * (a / b) + a % b;
    assert b * (q - a / b) == a % b - m;
    MultipleBound(b, q - a / b);
  }

  lemma AlignedDown(a: int, b: int)
    requires b > 0
    ensures (a - a % b) % b == 0
  {
    UniqueModulo(a - a % b, b, a / b, 0);
  }

  lemma RemainderIsModulo(a: int, b: int)
    requires b > 0
    ensures var r := GoRemainder(a, b); (if r < 0 then r + b else r) == a % b
  {
    if a < 0 {
      var q, m := (-a) / b, (-a) % b;
      assert -a == b * q + m;
      if m == 0 {
        UniqueModulo(a, b, -q, 0);
      } else {
        assert b * (-q - 1) == b * (-q) - b;
        UniqueModulo(a, b, -q - 1, b - m);
      }
    }
  }

  function BudgetBucket(period: int, ns: int): Bucket {
    if period <= 0 then Forever else Window(period, BudgetBucketStart(period, ns))
  }

  function KeysForScope(limit: LimitSpec, now: Instant): QuotaKeys {
    var spends := limit.maxSpend > 0 || limit.softSpend > 0;
    var bucket := BudgetBucket(limit.budgetDuration, now.ns);
    QuotaKeys(
      if limit.maxParallel > 0 then Active else NoKey,
      if limit.rpm > 0 then Rpm(now.ns / MINUTE) else NoKey,
      if limit.tpm > 0 then Tpm(now.ns / MINUTE) else NoKey,
      if spends then SpendUsed(bucket) else NoKey,
      if spends then SpendHeld(bucket) else NoKey,
      if limit.daily > 0 then DayUsed(now.ns / DAY) else NoKey,
      if limit.daily > 0 then DayHeld(now.ns / DAY) else NoKey,
      if limit.monthly > 0 then MonthUsed(now.month) else NoKey,
      if limit.monthly > 0 then MonthHeld(now.month) else NoKey)
  }

  function ExpiriesForLimit(limit: LimitSpec, now: Instant): QuotaExpiries {
    QuotaExpiries(
      if limit.budgetDuration > 0
      then BudgetBucketStart(limit.budgetDuration, now.ns) + limit.budgetDuration + HOUR else 0,
      if limit.daily > 0 then (now.ns / DAY + 1) * DAY + HOUR else 0,
      if limit.monthly > 0 then now.nextMonth + HOUR else 0)
  }

  function ResolveScopes(scopes: seq<ScopedLimit>, now: Instant): (r: seq<Scope>)
    ensures |r| == |scopes|
    ensures forall i :: 0 <= i < |scopes| ==>
      && r[i].ref == scopes[i].ref && r[i].limit == scopes[i].limits && ScopeMatchesLimit(r[i])
      && r[i].keys == KeysForScope(scopes[i].limits, now) && r[i].expires == ExpiriesForLimit(scopes[i].limits, now)
  {
    seq(|scopes|, i requires 0 <= i < |scopes| =>
      Scope(scopes[i].ref, scopes[i].limits,
            KeysForScope(scopes[i].limits, now), ExpiriesForLimit(scopes[i].limits, now)))
  }

  lemma SameMultiple(a: int, b: int, ns: int, period: int)
    requires period > 0 && a % period == 0 && b % period == 0 && a <= ns < a + period
    ensures a == b <==> b <= ns < b + period
  {
    assert a == period * (a / period) && b == period * (b / period);
    assert b - a == period * (b / period - a / period);
    MultipleBound(period, b / period - a / period);
  }

  /** The second instant lies in the spend window of the first. */
  predicate SharesWindow(period: int, a: int, b: int)
    requires period > 0
  {
    BudgetBucketStart(period, a) <= b < BudgetBucketStart(period, a) + period
  }

  /** Two instants share a spend window exactly if each lies in the other's. */
  lemma SameWindow(period: int, a: int, b: int)
    requires period > 0
    ensures BudgetBucket(period, a) == BudgetBucket(period, b) <==> SharesWindow(period, a, b)
  {
    SameMultiple(BudgetBucketStart(period, b), BudgetBucketStart(period, a), b, period);
  }

  /** Keys name the minute, day, month and window of the instant: two calls
      under a limit share a counter exactly if they fall into the same one. */
  lemma KeysNameTheInstant(limit: LimitSpec, a: Instant, b: Instant)
    ensures var x, y := KeysForScope(limit, a), KeysForScope(limit, b);
      && x.active == y.active
      && (limit.rpm > 0 ==> (x.rpm == y.rpm <==> a.ns / MINUTE == b.ns / MINUTE))
      && (limit.tpm > 0 ==> (x.tpm == y.tpm <==> a.ns / MINUTE == b.ns / MINUTE))
      && (limit.daily > 0 ==> (x.dayHeld == y.dayHeld <==> a.ns / DAY == b.ns / DAY))
      && (limit.monthly > 0 ==> (x.monthHeld == y.monthHeld <==> a.month == b.month))
      && (limit.maxSpend > 0 || limit.softSpend > 0 ==>
            (x.spendHeld == y.spendHeld <==> limit.budgetDuration <= 0 || SharesWindow(limit.budgetDuration, a.ns, b.ns)))
      && (x.dayUsed == y.dayUsed <==> x.dayHeld == y.dayHeld)
      && (x.monthUsed == y.monthUsed <==> x.monthHeld == y.monthHeld)
      && (x.spendUsed == y.spendUsed <==> x.spendHeld == y.spendHeld)
  {
    hide BudgetBucketStart;
    if limit.budgetDuration > 0 {
      SameWindow(limit.budgetDuration, a.ns, b.ns);
    }
  }

  /** Used counters outlive their bucket by the grace period. */
  lemma ExpiriesOutliveBuckets(limit: LimitSpec, now: Instant)
    requires now.ns < now.nextMonth
    ensures var x := ExpiriesForLimit(limit, now);
      && (limit.budgetDuration > 0 ==>
            now.ns + HOUR < x.spendUsed && x.spendUsed == BudgetBucketStart(limit.budgetDuration, now.ns) + limit.budgetDuration + HOUR)
      && (limit.daily > 0 ==> now.ns + HOUR < x.dayUsed && (x.dayUsed - HOUR) % DAY == 0 && x.dayUsed - HOUR <= now.ns + DAY)
      && (limit.monthly > 0 ==> now.ns + HOUR < x.monthUsed)
  {
  }

  /** A key is present exactly when its limit is configured, and each key has
      the kind its field names. */
  predicate ScopeMatchesLimit(s: Scope) {
    && s.keys.active == (if s.limit.maxParallel > 0 then Active else NoKey)
    && (if s.limit.rpm > 0 then s.keys.rpm.Rpm? else s.keys.rpm == NoKey)
    && (if s.limit.tpm > 0 then s.keys.tpm.Tpm? else s.keys.tpm == NoKey)
    && (if s.limit.maxSpend > 0 || s.limit.softSpend > 0
        then s.keys.spendUsed.SpendUsed? && s.keys.spendHeld == SpendHeld(s.keys.spendUsed.bucket)
        else s.keys.spendUsed == s.keys.spendHeld == NoKey)
    && (if s.limit.daily > 0
        then s.keys.dayUsed.DayUsed? && s.keys.dayHeld == DayHeld(s.keys.dayUsed.day)
        else s.keys.dayUsed == s.keys.dayHeld == NoKey)
    && (if s.limit.monthly > 0
        then s.keys.monthUsed.MonthUsed? && s.keys.monthHeld == MonthHeld(s.keys.monthUsed.month)
        else s.keys.monthUsed == s.keys.monthHeld == NoKey)
  }

  predicate DistinctRefs(scopes: seq<Scope>) {
    forall i, j :: 0 <= i < j < |scopes| ==> scopes[i].ref != scopes[j].ref
  }

  /** Keys that count what live reservations hold. */
  predicate IsHeld(k: Key) { k.Active? || k.SpendHeld? || k.DayHeld? || k.MonthHeld? }

  /** What one reservation holding `tokens` and `spend` puts on key k through
      the keys of one of its scopes. */
  function KeyHold(active: Key, spendHeld: Key, dayHeld: Key, monthHeld: Key,
                   tokens: int, spend: int, k: Key): int
  {
    match k
    case Active => if active == k then 1 else 0
    case SpendHeld(_) => if spendHeld == k then spend else 0
    case DayHeld(_) => if dayHeld == k then tokens else 0
    case MonthHeld(_) => if monthHeld == k then tokens else 0
    case _ => 0
  }

  /** The configured limit that a held counter is checked against. */
  function KeyLimit(limit: LimitSpec, k: Key): int {
    match k
    case Active => limit.maxParallel
    case SpendHeld(_) => limit.maxSpend
    case DayHeld(_) => limit.daily
    case MonthHeld(_) => limit.monthly
    case _ => 0
  }

  /** The counter of committed usage that shares a budget with a held counter. */
  function UsedKey(k: Key): Key {
    match k
    case SpendHeld(b) => SpendUsed(b)
    case DayHeld(d) => DayUsed(d)
    case MonthHeld(m) => MonthUsed(m)
    case _ => NoKey
  }
}
