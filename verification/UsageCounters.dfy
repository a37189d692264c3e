/** Usage read counter by counter: what merging snapshots, reconciling a report
    with its estimate and billing a partial attempt do to each counter of a usage
    record (proxy/stream.go, gateway/usage.go). */
module UsageCounters {
  import opened QuotaTypes
  import opened AttemptUsage
  import opened UsageMerge

  datatype Part = Text | Audio | Reasoning | Tool | Cached | Modality(name: string)

  /** Every counter of a usage record except the total, which depends on others. */
  datatype Slot = Input | Output | CacheRead | CacheWrite | InputPart(part: Part) | OutputPart(part: Part) | Unit(name: string)

  function PartOf(d: Option<Details>, p: Part): int64 {
    if d.None? then 0
    else
      match p
      case Text => d.value.text
      case Audio => d.value.audio
      case Reasoning => d.value.reasoning
      case Tool => d.value.tool
      case Cached => d.value.cached
      case Modality(name) => CountOf(d.value.byModality, name)
  }

  function At(u: Usage, s: Slot): int64 {
    match s
    case Input => u.input
    case Output => u.output
    case CacheRead => u.cacheRead
    case CacheWrite => u.cacheWrite
    case InputPart(p) => PartOf(u.inputDetails, p)
    case OutputPart(p) => PartOf(u.outputDetails, p)
    case Unit(name) => CountOf(u.providerDetails, name)
  }

  // --- Merging snapshots -----------------------------------------------------------------------------

  /** The value of a counter once a set of readings is in: -1 if one of them was
      malformed, otherwise the largest. */
  predicate Settles(v: int64, us: seq<Usage>, s: Slot) {
    if exists i :: 0 <= i < |us| && At(us[i], s) < 0 then v == -1
    else
      && v >= 0 && (forall i :: 0 <= i < |us| ==> At(us[i], s) <= v)
      && (v > 0 ==> exists i :: 0 <= i < |us| && At(us[i], s) == v)
  }

  lemma DetailsMergeAt(d: Option<Details>, a: Option<Details>, p: Part)
    requires PartOf(d, p) >= -1
    ensures PartOf(MergeDetails(d, a), p) == Counter(PartOf(d, p), PartOf(a, p))
  {
    hide MergeMap;
    if p.Modality? && a.Some? {
      MergeMapAt(d.GetOr(NO_DETAILS).byModality, a.value.byModality, p.name);
    }
  }

  lemma MergeAt(d: Usage, a: Usage, s: Slot)
    requires At(d, s) >= -1
    ensures At(Merge(d, a), s) == Counter(At(d, s), At(a, s))
  {
    hide MergeDetails, MergeMap, MergeTotal, PartOf;
    NothingReported(s);
    match s
    case InputPart(p) => DetailsMergeAt(d.inputDetails, a.inputDetails, p);
    case OutputPart(p) => DetailsMergeAt(d.outputDetails, a.outputDetails, p);
    case Unit(name) => MergeMapAt(d.providerDetails, a.providerDetails, name);
    case _ =>
  }

  lemma NothingReported(s: Slot)
    ensures At(NO_USAGE, s) == 0
  {
  }

  lemma SettledStep(v: int64, us: seq<Usage>, a: Usage, s: Slot)
    requires Settles(v, us, s)
    ensures Settles(Counter(v, At(a, s)), us + [a], s)
  {
    hide At;
    var more := us + [a];
    assert forall i :: 0 <= i < |us| ==> more[i] == us[i];
    assert more[|us|] == a;
    if i :| 0 <= i < |us| && At(us[i], s) < 0 {
      assert At(more[i], s) < 0;
    }
    var v' := Counter(v, At(a, s));
    if i :| 0 <= i < |us| && At(us[i], s) == v {
      assert At(more[i], s) == v;
    }
  }

  lemma {:induction false} SettledAfter(d: Usage, before: seq<Usage>, us: seq<Usage>, s: Slot)
    requires Settles(At(d, s), before, s)
    ensures Settles(At(MergeAll(d, us), s), before + us, s)
    decreases |us|
  {
    hide Settles, At, Merge;
    if us == [] {
      assert before + us == before;
    } else {
      SettledRange(At(d, s), before, s);
      MergeAt(d, us[0], s);
      SettledStep(At(d, s), before, us[0], s);
      assert before + us == before + [us[0]] + us[1..];
      SettledAfter(Merge(d, us[0]), before + [us[0]], us[1..], s);
    }
  }

  lemma SettledRange(v: int64, us: seq<Usage>, s: Slot)
    requires Settles(v, us, s)
    ensures v >= -1
  {
  }

  /** Every counter of the merged usage, in the details and per provider unit
      too, is the largest one reported, or -1 if one was malformed. */
  lemma EveryCounterSettles(us: seq<Usage>, s: Slot)
    ensures Settles(At(MergeAll(NO_USAGE, us), s), us, s)
  {
    NothingReported(s);
    assert [] + us == us;
    SettledAfter(NO_USAGE, [], us, s);
  }

  // --- Reconciling a report with its estimate ---------------------------------------------------------

  /** The provider's token counts can be used as they are. */
  predicate Usable(u: Usage) {
    (u.input > 0 || u.output > 0 || u.total > 0) && 0 <= u.input && 0 <= u.output && 0 <= u.total
  }

  /** What a reported counter becomes beside its estimate. */
  function Reconciled(n: int64, estimate: int64, usable: bool): int {
    if n > 0 then n else if n < 0 || !usable then Max(estimate, 0) else 0
  }

  lemma NormalizedPart(d: Option<Details>, p: Part)
    ensures PartOf(NormalizeDetails(d), p) == Max(PartOf(d, p), 0)
  {
    if d.Some? && p.Modality? {
      PositiveEntry(d.value.byModality, p.name);
    }
  }

  lemma PositiveEntry(m: map<string, int64>, k: string)
    ensures CountOf(Positive(m), k) == Max(CountOf(m, k), 0)
    ensures |Positive(m)| == 0 ==> CountOf(m, k) <= 0
  {
    assert k in m && m[k] > 0 ==> k in Positive(m);
  }

  lemma RestoredPart(reported: Option<Details>, estimate: Option<Details>, p: Part)
    ensures PartOf(RestoreDetails(NormalizeDetails(reported), reported, NormalizeDetails(estimate)), p)
         == Reconciled(PartOf(reported, p), PartOf(estimate, p), true)
  {
    hide Positive, RestoreMap, NormalizeDetails;
    if reported.None? {
      NormalizedPart(reported, p);
    } else {
      var cur, fb := NormalizeDetails(NormalizeDetails(reported)), NormalizeDetails(NormalizeDetails(estimate));
      NormalTwice(reported, p);
      NormalTwice(estimate, p);
      var rep, c := reported.value, cur.GetOr(NO_DETAILS);
      var fall := fb.GetOr(c);
      NormalizedPart(Some(Details(
        RestoreCount(c.text, rep.text, fall.text), RestoreCount(c.audio, rep.audio, fall.audio),
        RestoreCount(c.reasoning, rep.reasoning, fall.reasoning), RestoreCount(c.tool, rep.tool, fall.tool),
        RestoreCount(c.cached, rep.cached, fall.cached),
        RestoreMap(c.byModality, rep.byModality, fb.GetOr(NO_DETAILS).byModality))), p);
      if p.Modality? {
        RestoredEntry(c.byModality, rep.byModality, fb.GetOr(NO_DETAILS).byModality, p.name);
      }
    }
  }

  lemma NormalTwice(d: Option<Details>, p: Part)
    ensures PartOf(NormalizeDetails(NormalizeDetails(d)), p) == Max(PartOf(d, p), 0)
  {
    hide Positive, NormalizeDetails;
    NormalizedPart(d, p);
    NormalizedPart(NormalizeDetails(d), p);
  }

  lemma RestoredEntry(current: map<string, int64>, reported: map<string, int64>, fallback: map<string, int64>, k: string)
    ensures CountOf(RestoreMap(current, reported, fallback), k)
         == if CountOf(reported, k) < 0 then Max(CountOf(fallback, k), 0) else CountOf(current, k)
  {
  }

  lemma OverlaidPart(reported: Option<Details>, estimate: Option<Details>, p: Part)
    ensures PartOf(OverlayDetails(NormalizeDetails(estimate), NormalizeDetails(reported)), p)
         == Reconciled(PartOf(reported, p), PartOf(estimate, p), false)
  {
    hide Positive, Overlay, NormalizeDetails;
    NormalizedPart(reported, p);
    NormalizedPart(estimate, p);
    var rep, base := NormalizeDetails(reported), NormalizeDetails(estimate);
    if p.Modality? && rep.Some? {
      OverlaidEntry(base.GetOr(NO_DETAILS).byModality, rep.value.byModality, p.name);
    }
  }

  lemma OverlaidEntry(base: map<string, int64>, top: map<string, int64>, k: string)
    ensures CountOf(Overlay(base, top), k) == if k in top then top[k] else CountOf(base, k)
  {
  }

  /** The counters that have no say in one another: all but tokens and cache reads. */
  predicate Separate(s: Slot) { s.CacheWrite? || s.InputPart? || s.OutputPart? || s.Unit? }

  lemma NormalizedAt(u: Usage, s: Slot)
    requires Separate(s)
    ensures At(Normalize(u), s) == Max(At(u, s), 0)
  {
    hide NormalizeTokens, NormalizeDetails, NormalDetails, Positive, PartOf, CountOf;
    match s
    case InputPart(p) => NormalizedPart(u.inputDetails, p);
    case OutputPart(p) => NormalizedPart(u.outputDetails, p);
    case Unit(name) => PositiveEntry(u.providerDetails, name);
    case CacheWrite =>
  }

  lemma UsableReportStands(reported: Usage, estimate: Usage, s: Slot)
    requires Separate(s)
    ensures At(RestoreAuxiliary(Normalize(reported), reported, Normalize(estimate)), s)
         == Reconciled(At(reported, s), At(estimate, s), true)
  {
    hide NormalizeTokens, Positive, RestoreMap, RestoreDetails, NormalDetails, NormalizeDetails, PartOf, CountOf;
    RestoredPart(reported.inputDetails, estimate.inputDetails, PartIn(s));
    RestoredPart(reported.outputDetails, estimate.outputDetails, PartIn(s));
    NormalizedPart(RestoreDetails(NormalizeDetails(reported.inputDetails), reported.inputDetails, NormalizeDetails(estimate.inputDetails)), PartIn(s));
    NormalizedPart(RestoreDetails(NormalizeDetails(reported.outputDetails), reported.outputDetails, NormalizeDetails(estimate.outputDetails)), PartIn(s));
    if s.Unit? {
      RestoredUnit(reported.providerDetails, estimate.providerDetails, s.name);
      UnitCounts(reported.providerDetails, estimate.providerDetails, s.name);
    }
  }

  function PartIn(s: Slot): Part { if s.InputPart? || s.OutputPart? then s.part else Text }

  lemma UnitCounts(reported: map<string, int64>, estimate: map<string, int64>, k: string)
    ensures CountOf(if CountOf(reported, k) < 0 then estimate else reported, k)
         == if CountOf(reported, k) < 0 then CountOf(estimate, k) else CountOf(reported, k)
  {
  }

  lemma UnusableReportOverlaid(tokens: Usage, reported: Usage, estimate: Usage, s: Slot)
    requires Separate(s)
    requires tokens.cacheWrite == Normalize(estimate).cacheWrite
    requires tokens.inputDetails == Normalize(estimate).inputDetails && tokens.outputDetails == Normalize(estimate).outputDetails
    requires tokens.providerDetails == Normalize(estimate).providerDetails
    ensures At(Normalize(OverlayPositive(tokens, Normalize(reported))), s)
         == Reconciled(At(reported, s), At(estimate, s), false)
  {
    hide NormalizeTokens, Positive, Overlay, OverlayDetails, NormalDetails, NormalizeDetails, PartOf, CountOf;
    OverlaidPart(reported.inputDetails, estimate.inputDetails, PartIn(s));
    OverlaidPart(reported.outputDetails, estimate.outputDetails, PartIn(s));
    NormalizedAt(OverlayPositive(tokens, Normalize(reported)), s);
    if s.Unit? {
      OverlaidEntry(Positive(estimate.providerDetails), Positive(reported.providerDetails), s.name);
      UnitOverlaid(reported.providerDetails, estimate.providerDetails, s.name);
    }
  }

  lemma UnitOverlaid(reported: map<string, int64>, estimate: map<string, int64>, k: string)
    ensures CountOf(Overlay(Positive(estimate), Positive(reported)), k)
         == Reconciled(CountOf(reported, k), CountOf(estimate, k), false)
  {
    assert k in Positive(reported) <==> k in reported && reported[k] > 0;
  }

  /** Counter by counter, exactly: a positive report stands, a malformed one
      comes from the estimate, and a missing one comes from the estimate exactly if
      the token counts could not be used either. */
  lemma CountersReconcile(reported: Usage, estimate: Usage, s: Slot)
    requires Separate(s)
    ensures At(ReconcileReported(reported, estimate), s) == Reconciled(At(reported, s), At(estimate, s), Usable(reported))
  {
    hide Normalize, RestoreAuxiliary, OverlayPositive, At, Reconciled;
    var rep, fall := Normalize(reported), Normalize(estimate);
    if Usable(reported) {
      UsableReportStands(reported, estimate, s);
    } else {
      var tokens :=
        if !HasPositiveTokens(reported) then fall
        else fall.(input := if reported.input < 0 then fall.input else rep.input,
                   output := if reported.output < 0 then fall.output else rep.output,
                   total := if reported.total < 0 then fall.total else rep.total);
      UnusableReportOverlaid(tokens, reported, estimate, s);
    }
  }

  /** Malformed token counts: each comes from the estimate alone, and the total
      covers what the three say and no more. */
  lemma MalformedTokens(reported: Usage, estimate: Usage)
    requires !Usable(reported)
    ensures var r, rep, fall := ReconcileReported(reported, estimate), Normalize(reported), Normalize(estimate);
      var none := reported.input <= 0 && reported.output <= 0 && reported.total <= 0;
      r.total == Max(if none || reported.total < 0 then fall.total else rep.total,
                     SaturatingSum(if none || reported.input < 0 then fall.input else rep.input,
                                   if none || reported.output < 0 then fall.output else rep.output))
  {
    hide NormalizeTokens, NormalizeDetails, NormalDetails, Positive, OverlayDetails, Overlay;
  }

  // --- Partial attempts -------------------------------------------------------------------------------------

  lemma LargerPart(actual: Option<Details>, estimate: Option<Details>, p: Part)
    ensures PartOf(LargerDetails(actual, estimate), p) == Max(Max(PartOf(actual, p), PartOf(estimate, p)), 0)
  {
    hide NormalizeDetails, LargerMap, CountOf;
    NormalizedPart(actual, p);
    NormalizedPart(estimate, p);
    var a, e := NormalizeDetails(actual), NormalizeDetails(estimate);
    if p.Modality? && a.Some? && e.Some? {
      LargerEntry(a.value.byModality, e.value.byModality, p.name);
    }
  }

  lemma LargerEntry(a: map<string, int64>, b: map<string, int64>, k: string)
    ensures Max(CountOf(LargerMap(a, b), k), 0) == Max(Max(CountOf(a, k), CountOf(b, k)), 0)
    ensures CountOf(a, k) >= 0 ==> CountOf(LargerMap(a, b), k) == Max(CountOf(a, k), CountOf(b, k))
  {
  }

  /** A partial attempt is billed, counter by counter, exactly the larger of
      what it reported and what was estimated. */
  lemma PartialBillsLarger(reported: Usage, estimate: Usage, s: Slot)
    requires Separate(s)
    ensures At(Billable(reported, estimate, true), s)
         == Max(Max(At(ReconcileReported(reported, estimate), s), At(estimate, s)), 0)
  {
    hide ReconcileReported, Normalize, LargerDetails, LargerMap, PartOf, CountOf;
    var n := ReconcileReported(reported, estimate);
    var input := if n.input == 0 then estimate.input else n.input;
    var output := if n.output == 0 then estimate.output else n.output;
    var u := n.(input := input, output := output, total := SaturatingSum(input, output));
    var retained := u.(
      cacheRead := Larger(u.cacheRead, estimate.cacheRead),
      cacheWrite := Larger(u.cacheWrite, estimate.cacheWrite),
      inputDetails := LargerDetails(u.inputDetails, estimate.inputDetails),
      outputDetails := LargerDetails(u.outputDetails, estimate.outputDetails),
      providerDetails := LargerMap(u.providerDetails, estimate.providerDetails));
    NormalizedAt(retained, s);
    LargerPart(u.inputDetails, estimate.inputDetails, PartIn(s));
    LargerPart(u.outputDetails, estimate.outputDetails, PartIn(s));
    if s.Unit? {
      LargerEntry(u.providerDetails, estimate.providerDetails, s.name);
    }
  }

  lemma OutputOnly(reported: Usage, estimate: Usage)
    requires reported.input == 0 && reported.output > 0 && reported.total == reported.output
    ensures ReconcileReported(reported, estimate).input == 0 && ReconcileReported(reported, estimate).output == reported.output
  {
    hide OverlayPositive, NormalizeTokens, NormalizeDetails, NormalDetails, RestoreDetails, RestoreMap, Positive;
  }

  /** An attempt whose provider reported output and no input: completed, it is
      charged what was reported; cut short, it is charged its estimated input. */
  lemma CutShortIsChargedEstimatedInput(s: Entries, id: Id, reported: Usage)
    requires Accumulated(s) && id in s && !s[id].final
    requires reported.input == 0 && reported.output > 0 && reported.total == reported.output
    ensures Complete(s, id, reported, true)[id].charge.input == s[id].estimate.input
    ensures Complete(s, id, reported, false)[id].charge.input == 0
    ensures Complete(s, id, reported, false)[id].charge.output == reported.output
  {
    hide ReconcileReported, RetainEstimated, Normalize, Normal;
    OutputOnly(reported, s[id].estimate);
    WholeIsReconciled(reported, s[id].estimate);
    assert Normal(Billable(reported, s[id].estimate, true)) && Normal(Billable(reported, s[id].estimate, false));
  }

  lemma WholeIsReconciled(reported: Usage, estimate: Usage)
    ensures Billable(reported, estimate, false) == ReconcileReported(reported, estimate)
  {
    hide ReconcileReported, RetainEstimated;
  }
}
