/** Usage of one provider attempt and the per-request accumulator
    (gateway/usage.go). A nil detail record is None; a nil map and an empty map
    are the same value. Pricing is an opaque non-negative function of usage. */
module AttemptUsage {
  import opened QuotaTypes
  import opened MapSums

  type Count = x: int | 0 <= x <= MAX_INT64

  datatype Details = Details(
    text: int64, audio: int64, reasoning: int64, tool: int64, cached: int64, byModality: map<string, int64>)

  datatype Usage = Usage(
    input: int64, output: int64, total: int64, cacheRead: int64, cacheWrite: int64,
    inputDetails: Option<Details>, outputDetails: Option<Details>, providerDetails: map<string, int64>)

  const NO_DETAILS: Details := Details(0, 0, 0, 0, 0, map[])
  const NO_USAGE: Usage := Usage(0, 0, 0, 0, 0, None, None, map[])

  function NonNegative(x: int64): (r: int64) { if x < 0 then 0 else x }
  function Larger(x: int64, y: int64): (r: int64) { if x >= y then x else y }

  function Positive(m: map<string, int64>): map<string, int64> {
    map k | k in m && m[k] > 0 :: m[k]
  }

  function CountOf(m: map<string, int64>, k: string): int64 { if k in m then m[k] else 0 }

  function Overlay(base: map<string, int64>, top: map<string, int64>): map<string, int64> { base + top }

  // --- Normalization ------------------------------------------------------------

  function NormalizeDetails(d: Option<Details>): (r: Option<Details>)
    ensures NormalDetails(r)
    ensures NormalDetails(d) ==> r == d
  {
    if d.None? then None
    else
      var n := Details(NonNegative(d.value.text), NonNegative(d.value.audio), NonNegative(d.value.reasoning),
                       NonNegative(d.value.tool), NonNegative(d.value.cached), Positive(d.value.byModality));
      assert NormalDetails(d) ==> n.byModality == d.value.byModality;
      if n.text == n.audio == n.reasoning == n.tool == n.cached == 0 && |n.byModality| == 0 then None else Some(n)
  }

  predicate NormalDetails(d: Option<Details>) {
    d.Some? ==>
      && 0 <= d.value.text && 0 <= d.value.audio && 0 <= d.value.reasoning && 0 <= d.value.tool && 0 <= d.value.cached
      && (forall k :: k in d.value.byModality ==> d.value.byModality[k] > 0)
      && d.value != NO_DETAILS
  }

  /** What normalization settles on: no negative count, a total that is the
      saturating sum of its parts, cached input reported as cache reads. */
  predicate Normal(u: Usage) {
    && 0 <= u.input && 0 <= u.output && 0 <= u.cacheRead && 0 <= u.cacheWrite
    && u.total == SaturatingSum(u.input, u.output)
    && NormalDetails(u.inputDetails) && NormalDetails(u.outputDetails)
    && (u.cacheRead == 0 && u.inputDetails.Some? ==> u.inputDetails.value.cached == 0)
    && forall k :: k in u.providerDetails ==> u.providerDetails[k] > 0
  }

  function NormalizeTokens(input: int64, output: int64, total: int64): (r: (int64, int64, int64))
    requires 0 <= input && 0 <= output && 0 <= total
    ensures r.2 == SaturatingSum(r.0, r.1)
    ensures r.2 == Max(total, SaturatingSum(input, output))
    ensures r.0 >= input && r.1 >= output
    ensures total == SaturatingSum(input, output) ==> r == (input, output, total)
  {
    var i: int64 := if input == 0 && total > output then total - output else input;
    var o: int64 := if output == 0 && total > i then total - i else output;
    var sum := SaturatingSum(i, o);
    var o': int64 := if total > sum then SaturatingSum(o, total - sum) else o;
    var sum' := SaturatingSum(i, o');
    (i, o', if total < sum' then sum' else total)
  }

  /** The normalized total is exactly the larger of the reported total and the
      reported parts: nothing reported is lost and nothing is made up. */
  function Normalize(u: Usage): (r: Usage)
    ensures Normal(r)
    ensures r.input >= u.input && r.output >= u.output && r.total >= u.total
    ensures r.total == Max(Max(u.total, 0), SaturatingSum(u.input, u.output))
    ensures Normal(u) ==> r == u
  {
    var (input, output, total) := NormalizeTokens(NonNegative(u.input), NonNegative(u.output), NonNegative(u.total));
    var inputDetails := NormalizeDetails(u.inputDetails);
    var cacheRead := NonNegative(u.cacheRead);
    assert Normal(u) ==> Positive(u.providerDetails) == u.providerDetails;
    Usage(input, output, total,
          if cacheRead == 0 && inputDetails.Some? then inputDetails.value.cached else cacheRead,
          NonNegative(u.cacheWrite), inputDetails, NormalizeDetails(u.outputDetails), Positive(u.providerDetails))
  }

  lemma NormalizeIdempotent(u: Usage)
    ensures Normalize(Normalize(u)) == Normalize(u)
  {
    assert Normal(Normalize(u));
  }

  // --- Reconciliation -------------------------------------------------------------

  function RestoreMap(current: map<string, int64>, reported: map<string, int64>, fallback: map<string, int64>): map<string, int64> {
    map k | k in current.Keys + reported.Keys
        && (if k in reported && reported[k] < 0 then CountOf(fallback, k) > 0 else k in current)
      :: if k in reported && reported[k] < 0 then CountOf(fallback, k) else current[k]
  }

  function RestoreCount(current: int64, reported: int64, fallback: int64): int64 {
    if reported < 0 then fallback else current
  }

  /** Malformed detail counters come back from the fallback; a missing fallback
      leaves the (already clamped) counter alone. */
  function RestoreDetails(current: Option<Details>, reported: Option<Details>, fallback: Option<Details>): Option<Details> {
    if reported.None? then current
    else
      var rep := reported.value;
      var cur := NormalizeDetails(current).GetOr(NO_DETAILS);
      var fb := NormalizeDetails(fallback);
      var fall := fb.GetOr(cur);
      NormalizeDetails(Some(Details(
        RestoreCount(cur.text, rep.text, fall.text), RestoreCount(cur.audio, rep.audio, fall.audio),
        RestoreCount(cur.reasoning, rep.reasoning, fall.reasoning), RestoreCount(cur.tool, rep.tool, fall.tool),
        RestoreCount(cur.cached, rep.cached, fall.cached),
        RestoreMap(cur.byModality, rep.byModality, fb.GetOr(NO_DETAILS).byModality))))
  }

  function RestoreAuxiliary(usage: Usage, reported: Usage, fallback: Usage): Usage {
    Normalize(usage.(
      cacheRead := RestoreCount(usage.cacheRead, reported.cacheRead, fallback.cacheRead),
      cacheWrite := RestoreCount(usage.cacheWrite, reported.cacheWrite, fallback.cacheWrite),
      inputDetails := RestoreDetails(usage.inputDetails, reported.inputDetails, fallback.inputDetails),
      outputDetails := RestoreDetails(usage.outputDetails, reported.outputDetails, fallback.outputDetails),
      providerDetails := RestoreMap(usage.providerDetails, reported.providerDetails, fallback.providerDetails)))
  }

  function OverlayCount(base: int64, reported: int64): int64 { if reported > 0 then reported else base }

  function OverlayDetails(base: Option<Details>, reported: Option<Details>): Option<Details> {
    if reported.None? then base
    else
      var b, rep := base.GetOr(NO_DETAILS), reported.value;
      Some(Details(OverlayCount(b.text, rep.text), OverlayCount(b.audio, rep.audio),
                   OverlayCount(b.reasoning, rep.reasoning), OverlayCount(b.tool, rep.tool),
                   OverlayCount(b.cached, rep.cached), Overlay(b.byModality, rep.byModality)))
  }

  function OverlayPositive(base: Usage, reported: Usage): Usage {
    base.(cacheRead := OverlayCount(base.cacheRead, reported.cacheRead),
          cacheWrite := OverlayCount(base.cacheWrite, reported.cacheWrite),
          inputDetails := OverlayDetails(base.inputDetails, reported.inputDetails),
          outputDetails := OverlayDetails(base.outputDetails, reported.outputDetails),
          providerDetails := Overlay(base.providerDetails, reported.providerDetails))
  }

  predicate WellFormedTokens(u: Usage) { 0 <= u.input && 0 <= u.output && 0 <= u.total }
  predicate HasPositiveTokens(u: Usage) { u.input > 0 || u.output > 0 || u.total > 0 }

  /** Provider usage with malformed or wholly missing token counts filled from
      the estimate: a reported count is never charged below what was reported,
      a malformed one never below the estimate. */
  function ReconcileReported(reported: Usage, fallback: Usage): (r: Usage)
    ensures Normal(r)
    ensures r.input >= reported.input && r.output >= reported.output && r.total >= reported.total
    ensures reported.input < 0 || !HasPositiveTokens(reported) ==> r.input >= Normalize(fallback).input >= fallback.input
    ensures reported.output < 0 || !HasPositiveTokens(reported) ==> r.output >= Normalize(fallback).output >= fallback.output
    ensures reported.total < 0 || !HasPositiveTokens(reported) ==> r.total >= Normalize(fallback).total >= fallback.total
    ensures WellFormedTokens(reported) && HasPositiveTokens(reported) ==>
      r.total == Max(reported.total, SaturatingSum(reported.input, reported.output))
  {
    var rep, fall := Normalize(reported), Normalize(fallback);
    if HasPositiveTokens(reported) && WellFormedTokens(reported) then RestoreAuxiliary(rep, reported, fall)
    else
      var tokens :=
        if !HasPositiveTokens(reported) then fall
        else fall.(input := if reported.input < 0 then fall.input else rep.input,
                   output := if reported.output < 0 then fall.output else rep.output,
                   total := if reported.total < 0 then fall.total else rep.total);
      Normalize(OverlayPositive(tokens, rep))
  }

  /** Positive auxiliary counters of the provider stand as reported, malformed
      ones come from the estimate. */
  lemma CacheCountersStand(reported: Usage, fallback: Usage)
    ensures var r := ReconcileReported(reported, fallback);
      && (reported.cacheRead > 0 ==> r.cacheRead == reported.cacheRead)
      && (reported.cacheWrite > 0 ==> r.cacheWrite == reported.cacheWrite)
      && (reported.cacheWrite < 0 ==> r.cacheWrite == Normalize(fallback).cacheWrite)
  {
    hide NormalizeDetails, NormalDetails, RestoreDetails, OverlayDetails, NormalizeTokens, Positive, RestoreMap, Overlay;
  }

  // Cached input tokens a record puts into its details.
  function CachedIn(d: Option<Details>): int64 { if d.Some? then d.value.cached else 0 }

  lemma NormalizedReads(u: Usage)
    ensures CachedIn(NormalizeDetails(u.inputDetails)) == Max(CachedIn(u.inputDetails), 0)
    ensures Normalize(u).inputDetails == NormalizeDetails(u.inputDetails)
    ensures Normalize(u).cacheRead == if u.cacheRead > 0 then u.cacheRead else Max(CachedIn(u.inputDetails), 0)
  {
    hide Positive, NormalizeTokens;
  }

  lemma RestoredCached(reported: Option<Details>, fallback: Option<Details>)
    ensures CachedIn(RestoreDetails(NormalizeDetails(reported), reported, NormalizeDetails(fallback)))
         == if CachedIn(reported) < 0 then Max(CachedIn(fallback), 0) else CachedIn(reported)
    ensures CachedIn(OverlayDetails(NormalizeDetails(fallback), NormalizeDetails(reported)))
         == if CachedIn(reported) > 0 then CachedIn(reported) else Max(CachedIn(fallback), 0)
  {
    hide Positive, RestoreMap, Overlay;
  }

  /** A malformed count of cache reads comes from the estimate, unless the
      report details cached input. */
  lemma MalformedCacheReads(reported: Usage, fallback: Usage)
    requires reported.cacheRead < 0
    ensures var r, estimated, detailed := ReconcileReported(reported, fallback).cacheRead, Normalize(fallback).cacheRead, CachedIn(reported.inputDetails);
      && (detailed <= 0 ==> r == estimated)
      && (detailed > 0 ==> r > 0 && (r == detailed || r == estimated))
  {
    hide Normalize, RestoreDetails, OverlayDetails, NormalizeDetails, RestoreMap, Overlay;
    var rep, fall := Normalize(reported), Normalize(fallback);
    NormalizedReads(reported);
    NormalizedReads(fallback);
    RestoredCached(reported.inputDetails, fallback.inputDetails);
    if HasPositiveTokens(reported) && WellFormedTokens(reported) {
      NormalizedReads(rep.(
        cacheRead := RestoreCount(rep.cacheRead, reported.cacheRead, fall.cacheRead),
        cacheWrite := RestoreCount(rep.cacheWrite, reported.cacheWrite, fall.cacheWrite),
        inputDetails := RestoreDetails(rep.inputDetails, reported.inputDetails, fall.inputDetails),
        outputDetails := RestoreDetails(rep.outputDetails, reported.outputDetails, fall.outputDetails),
        providerDetails := RestoreMap(rep.providerDetails, reported.providerDetails, fall.providerDetails)));
    } else {
      var tokens :=
        if !HasPositiveTokens(reported) then fall
        else fall.(input := if reported.input < 0 then fall.input else rep.input,
                   output := if reported.output < 0 then fall.output else rep.output,
                   total := if reported.total < 0 then fall.total else rep.total);
      NormalizedReads(OverlayPositive(tokens, rep));
    }
  }

  lemma RestoredUnit(reported: map<string, int64>, fallback: map<string, int64>, unit: string)
    ensures CountOf(Positive(RestoreMap(Positive(reported), reported, Positive(fallback))), unit) ==
      Max(CountOf(if CountOf(reported, unit) < 0 then fallback else reported, unit), 0)
  {
  }

  lemma OverlaidUnit(reported: map<string, int64>, fallback: map<string, int64>, unit: string)
    ensures CountOf(Positive(Overlay(Positive(fallback), Positive(reported))), unit) ==
      Max(CountOf(if CountOf(reported, unit) <= 0 then fallback else reported, unit), 0)
  {
  }

  lemma ProviderUnitsStand(reported: Usage, fallback: Usage, unit: string)
    ensures var r, n := CountOf(ReconcileReported(reported, fallback).providerDetails, unit), CountOf(reported.providerDetails, unit);
      && (n > 0 ==> r == n)
      && (n < 0 ==> r == Max(CountOf(fallback.providerDetails, unit), 0))
  {
    hide NormalizeDetails, NormalDetails, RestoreDetails, OverlayDetails, NormalizeTokens, Positive, RestoreMap, Overlay, CountOf;
    RestoredUnit(reported.providerDetails, fallback.providerDetails, unit);
    OverlaidUnit(reported.providerDetails, fallback.providerDetails, unit);
  }

  // --- Charges --------------------------------------------------------------------

  function LargerMap(a: map<string, int64>, b: map<string, int64>): map<string, int64> {
    map k | k in a.Keys + b.Keys :: if k in b then Larger(CountOf(a, k), b[k]) else a[k]
  }

  function LargerDetails(actual: Option<Details>, estimate: Option<Details>): Option<Details> {
    var a, e := NormalizeDetails(actual), NormalizeDetails(estimate);
    if e.None? then a
    else if a.None? then e
    else Some(Details(Larger(a.value.text, e.value.text), Larger(a.value.audio, e.value.audio),
                      Larger(a.value.reasoning, e.value.reasoning), Larger(a.value.tool, e.value.tool),
                      Larger(a.value.cached, e.value.cached), LargerMap(a.value.byModality, e.value.byModality)))
  }

  function RetainEstimated(usage: Usage, estimate: Usage): (r: Usage)
    ensures Normal(r)
    ensures r.input >= usage.input && r.output >= usage.output && r.total >= usage.total
    ensures WellFormedTokens(usage) && usage.total == SaturatingSum(usage.input, usage.output) ==>
      r.input == usage.input && r.output == usage.output
  {
    hide LargerDetails, LargerMap, NormalDetails, NormalizeDetails;
    Normalize(usage.(
      cacheRead := Larger(usage.cacheRead, estimate.cacheRead),
      cacheWrite := Larger(usage.cacheWrite, estimate.cacheWrite),
      inputDetails := LargerDetails(usage.inputDetails, estimate.inputDetails),
      outputDetails := LargerDetails(usage.outputDetails, estimate.outputDetails),
      providerDetails := LargerMap(usage.providerDetails, estimate.providerDetails)))
  }

  /** Usage billed for a finished attempt; a partial (aborted) attempt is billed
      the estimate in every dimension the provider left out. */
  function Billable(reported: Usage, estimate: Usage, partial: bool): (r: Usage)
    ensures Normal(r)
    ensures r.input >= reported.input && r.output >= reported.output && r.total >= reported.total
    ensures partial && Normal(estimate) ==>
      (r.input > 0 || estimate.input == 0) && (r.output > 0 || estimate.output == 0)
    ensures partial && Normal(estimate) && ReconcileReported(reported, estimate).input == 0 ==> r.input == estimate.input
    ensures partial && Normal(estimate) && ReconcileReported(reported, estimate).output == 0 ==> r.output == estimate.output
  {
    hide RetainEstimated, ReconcileReported, Normalize, NormalizeTokens;
    var n := ReconcileReported(reported, estimate);
    if !partial then n
    else
      var input := if n.input == 0 then estimate.input else n.input;
      var output := if n.output == 0 then estimate.output else n.output;
      RetainEstimated(n.(input := input, output := output, total := SaturatingSum(input, output)), estimate)
  }

  lemma RetainedUnit(usage: map<string, int64>, estimate: map<string, int64>, unit: string)
    ensures CountOf(Positive(LargerMap(usage, estimate)), unit) >= CountOf(estimate, unit)
    ensures CountOf(Positive(LargerMap(usage, estimate)), unit) >= CountOf(usage, unit)
  {
  }

  /** A partial attempt is billed at least the estimate in every cache and
      provider counter. */
  lemma PartialKeepsEstimatedCounters(reported: Usage, estimate: Usage, unit: string)
    ensures var r := Billable(reported, estimate, true);
      && r.cacheRead >= estimate.cacheRead && r.cacheWrite >= estimate.cacheWrite
      && CountOf(r.providerDetails, unit) >= CountOf(estimate.providerDetails, unit)
  {
    hide ReconcileReported, LargerDetails, LargerMap, Positive, CountOf, NormalDetails, NormalizeDetails, NormalizeTokens;
    RetainedUnit(ReconcileReported(reported, estimate).providerDetails, estimate.providerDetails, unit);
  }

  lemma SilentAttemptReconciles(estimate: Usage)
    requires Normal(estimate)
    ensures ReconcileReported(NO_USAGE, estimate) == estimate
  {
    assert Normal(NO_USAGE);
    assert Overlay(estimate.providerDetails, map[]) == estimate.providerDetails;
  }

  /** An attempt that fails without reporting anything is billed its estimate. */
  lemma SilentAttemptBilledEstimate(estimate: Usage, partial: bool)
    requires Normal(estimate)
    ensures Billable(NO_USAGE, estimate, partial).input == estimate.input
    ensures Billable(NO_USAGE, estimate, partial).output == estimate.output
  {
    hide ReconcileReported, Normalize, RetainEstimated;
    SilentAttemptReconciles(estimate);
  }

  datatype Pricing = Pricing(spend: Usage -> Count)

  function Charge(p: Pricing, u: Usage): (r: ActualUsage)
    ensures NonNegativeCharge(r)
    ensures r.input >= u.input && r.output >= u.output
    ensures Normal(u) ==> r == ActualUsage(u.input, u.output, p.spend(u))
  {
    var n := Normalize(u);
    ActualUsage(n.input, n.output, p.spend(n))
  }

  predicate NonNegativeCharge(c: ActualUsage) { 0 <= c.input && 0 <= c.output && 0 <= c.spend }

  // --- Accumulator ------------------------------------------------------------------

  datatype Entry = Entry(estimate: Usage, pricing: Pricing, charge: ActualUsage, final: bool)
  type Entries = map<Id, Entry>

  function Begin(s: Entries, id: Id, estimate: Usage, pricing: Pricing): Entries {
    if id == 0 || id in s then s
    else s[id := Entry(Normalize(estimate), pricing, Charge(pricing, Normalize(estimate)), false)]
  }

  function Cancel(s: Entries, id: Id): Entries {
    if id in s && !s[id].final then s - {id} else s
  }

  function Complete(s: Entries, id: Id, reported: Usage, partial: bool): Entries {
    if id !in s || s[id].final then s
    else s[id := s[id].(charge := Charge(s[id].pricing, Billable(reported, s[id].estimate, partial)), final := true)]
  }

  /** Every charge is non-negative and an attempt still running is charged its estimate. */
  predicate Accumulated(s: Entries) {
    forall id :: id in s ==>
      && id != 0 && Normal(s[id].estimate) && NonNegativeCharge(s[id].charge)
      && (!s[id].final ==> s[id].charge == Charge(s[id].pricing, s[id].estimate))
  }

  datatype UsageCall =
    | BeginCall(id: Id, estimate: Usage, pricing: Pricing)
    | CancelCall(id: Id)
    | CompleteCall(id: Id, reported: Usage, partial: bool)

  function UsageStep(s: Entries, c: UsageCall): Entries {
    match c
    case BeginCall(id, estimate, pricing) => Begin(s, id, estimate, pricing)
    case CancelCall(id) => Cancel(s, id)
    case CompleteCall(id, reported, partial) => Complete(s, id, reported, partial)
  }

  function UsageRun(s: Entries, cs: seq<UsageCall>): Entries
    decreases |cs|
  {
    if cs == [] then s else UsageRun(UsageStep(s, cs[0]), cs[1..])
  }

  lemma StepAccumulates(s: Entries, c: UsageCall)
    requires Accumulated(s)
    ensures Accumulated(UsageStep(s, c))
  {
    hide Normalize, Normal, Billable, Charge;
  }

  lemma BeginAdds(s: Entries, id: Id, estimate: Usage, pricing: Pricing)
    requires id != 0 && id !in s
    ensures var e := Begin(s, id, estimate, pricing);
      e.Keys == s.Keys + {id} && (forall i :: i in s ==> e[i] == s[i]) && !e[id].final
  {
    hide Normalize, Normal, Charge;
  }

  lemma {:induction false} RunAccumulates(s: Entries, cs: seq<UsageCall>)
    requires Accumulated(s)
    ensures Accumulated(UsageRun(s, cs))
    decreases |cs|
  {
    hide Accumulated, UsageStep;
    if cs != [] {
      StepAccumulates(s, cs[0]);
      RunAccumulates(UsageStep(s, cs[0]), cs[1..]);
    }
  }

  lemma {:induction false} FinalEntriesStay(s: Entries, cs: seq<UsageCall>, id: Id)
    requires id in s && s[id].final
    ensures id in UsageRun(s, cs) && UsageRun(s, cs)[id] == s[id]
    decreases |cs|
  {
    if cs != [] {
      FinalEntriesStay(UsageStep(s, cs[0]), cs[1..], id);
    }
  }

  /** The first completion of an attempt fixes its charge: whatever calls come
      later, the charge is what that completion reported, never less. */
  lemma FirstCompletionDecides(s: Entries, id: Id, reported: Usage, partial: bool, later: seq<UsageCall>)
    requires id in s && !s[id].final
    ensures var r := UsageRun(Complete(s, id, reported, partial), later);
      && id in r && r[id].final
      && r[id].charge == Charge(s[id].pricing, Billable(reported, s[id].estimate, partial))
      && r[id].charge.input >= reported.input && r[id].charge.output >= reported.output
  {
    FinalEntriesStay(Complete(s, id, reported, partial), later, id);
  }

  function InputCharges(s: Entries): map<Id, int> { map id | id in s :: s[id].charge.input }
  function OutputCharges(s: Entries): map<Id, int> { map id | id in s :: s[id].charge.output }
  function SpendCharges(s: Entries): map<Id, int> { map id | id in s :: s[id].charge.spend }

  /** The request total: each dimension is the exact sum of the charges, capped
      at MaxInt64, so no order of visiting the entries matters. */
  ghost predicate IsTotal(s: Entries, t: ActualUsage) {
    && t.input == Min(MAX_INT64, Sum(InputCharges(s)))
    && t.output == Min(MAX_INT64, Sum(OutputCharges(s)))
    && t.spend == Min(MAX_INT64, Sum(SpendCharges(s)))
  }

  lemma ChargesOfOneMore(s: Entries, id: Id)
    requires id in s
    ensures Sum(InputCharges(s)) == Sum(InputCharges(s - {id})) + s[id].charge.input
    ensures Sum(OutputCharges(s)) == Sum(OutputCharges(s - {id})) + s[id].charge.output
    ensures Sum(SpendCharges(s)) == Sum(SpendCharges(s - {id})) + s[id].charge.spend
  {
    assert InputCharges(s) - {id} == InputCharges(s - {id});
    assert OutputCharges(s) - {id} == OutputCharges(s - {id});
    assert SpendCharges(s) - {id} == SpendCharges(s - {id});
    SumRemove(InputCharges(s), id);
    SumRemove(OutputCharges(s), id);
    SumRemove(SpendCharges(s), id);
  }

  lemma NoCharges(s: Entries)
    requires s == map[]
    ensures IsTotal(s, ActualUsage(0, 0, 0))
  {
  }

  lemma ChargesNonNegative(s: Entries)
    requires Accumulated(s)
    ensures Sum(InputCharges(s)) >= 0 && Sum(OutputCharges(s)) >= 0 && Sum(SpendCharges(s)) >= 0
  {
    hide Normalize, Normal, Charge, Sum;
    SumNonNegative(InputCharges(s));
    SumNonNegative(OutputCharges(s));
    SumNonNegative(SpendCharges(s));
  }

  lemma TotalOfOneMore(s: Entries, id: Id, t: ActualUsage)
    requires id in s && Accumulated(s) && IsTotal(s - {id}, t)
    ensures IsTotal(s, ActualUsage(SaturatingSum(t.input, s[id].charge.input), SaturatingSum(t.output, s[id].charge.output),
                                   SaturatingSum(t.spend, s[id].charge.spend)))
  {
    hide Normalize, Normal, Charge, Sum, InputCharges, OutputCharges, SpendCharges;
    ChargesOfOneMore(s, id);
    ChargesNonNegative(s - {id});
  }

  class AttemptUsageAccumulator {
    var entries: Entries

    constructor ()
      ensures entries == map[]
    {
      entries := map[];
    }

    method BeginAttempt(id: Id, estimate: Usage, pricing: Pricing)
      modifies this
      ensures entries == Begin(old(entries), id, estimate, pricing)
    {
      if id == 0 || id in entries {
        return;
      }
      var normal := Normalize(estimate);
      entries := entries[id := Entry(normal, pricing, Charge(pricing, normal), false)];
    }

    method CancelAttempt(id: Id)
      modifies this
      ensures entries == Cancel(old(entries), id)
    {
      if id in entries && !entries[id].final {
        entries := entries - {id};
      }
    }

    method CompleteAttempt(id: Id, reported: Usage, partial: bool)
      modifies this
      ensures entries == Complete(old(entries), id, reported, partial)
    {
      if id !in entries || entries[id].final {
        return;
      }
      var entry := entries[id];
      entry := entry.(charge := Charge(entry.pricing, Billable(reported, entry.estimate, partial)), final := true);
      entries := entries[id := entry];
    }

    // The loop picks the entries in any order.
    method Total() returns (total: ActualUsage)
      requires Accumulated(entries)
      ensures IsTotal(entries, total)
    {
      hide IsTotal, Normal, Charge;
      total := ActualUsage(0, 0, 0);
      NoCharges(map[]);
      var remaining := entries.Keys;
      ghost var visited: Entries := map[];
      while remaining != {}
        invariant remaining <= entries.Keys
        invariant visited == entries - remaining
        invariant IsTotal(visited, total)
      {
        var id :| id in remaining;
        var charge := entries[id].charge;
        remaining := remaining - {id};
        ghost var seen := visited;
        visited := entries - remaining;
        assert visited - {id} == seen;
        TotalOfOneMore(visited, id, total);
        total := ActualUsage(SaturatingSum(total.input, charge.input), SaturatingSum(total.output, charge.output),
                             SaturatingSum(total.spend, charge.spend));
      }
      assert visited == entries;
    }
  }
}
