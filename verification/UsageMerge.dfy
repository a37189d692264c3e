/** Merging the cumulative usage snapshots of a stream (proxy/stream.go). */
module UsageMerge {
  import opened QuotaTypes
  import opened AttemptUsage

  // A negative value is malformed and stays visible as -1.
  function Counter(current: int64, reported: int64): (r: int64)
    ensures (current < 0 || reported < 0) <==> r < 0
    ensures 0 <= current && 0 <= reported ==> r == Max(current, reported)
    ensures r < 0 ==> r == -1
  {
    if current < 0 || reported < 0 then -1 else if current >= reported then current else reported
  }

  function MergeMap(dst: map<string, int64>, src: map<string, int64>): map<string, int64> {
    map k | k in dst.Keys + src.Keys :: if k in src then Counter(CountOf(dst, k), src[k]) else dst[k]
  }

  function MergeDetails(dst: Option<Details>, src: Option<Details>): Option<Details> {
    if src.None? then dst
    else
      var d, s := dst.GetOr(NO_DETAILS), src.value;
      Some(Details(Counter(d.text, s.text), Counter(d.audio, s.audio), Counter(d.reasoning, s.reasoning),
                   Counter(d.tool, s.tool), Counter(d.cached, s.cached), MergeMap(d.byModality, s.byModality)))
  }

  function MergeTotal(input: int64, output: int64, total: int64): int64 {
    var sum := SaturatingSum(input, output);
    if 0 <= input && 0 <= output && 0 <= total < sum then sum else total
  }

  function Merge(dst: Usage, src: Usage): Usage {
    if src == NO_USAGE then dst
    else
      var input, output := Counter(dst.input, src.input), Counter(dst.output, src.output);
      Usage(input, output, MergeTotal(input, output, Counter(dst.total, src.total)),
            Counter(dst.cacheRead, src.cacheRead), Counter(dst.cacheWrite, src.cacheWrite),
            MergeDetails(dst.inputDetails, src.inputDetails), MergeDetails(dst.outputDetails, src.outputDetails),
            MergeMap(dst.providerDetails, src.providerDetails))
  }

  function MergeAll(dst: Usage, srcs: seq<Usage>): Usage
    decreases |srcs|
  {
    if srcs == [] then dst else MergeAll(Merge(dst, srcs[0]), srcs[1..])
  }

  // --- Laws of one merge ------------------------------------------------------------------------

  lemma MergeMapAt(d: map<string, int64>, a: map<string, int64>, k: string)
    ensures k in MergeMap(d, a) <==> k in d || k in a
    ensures CountOf(MergeMap(d, a), k) == if k in a then Counter(CountOf(d, k), a[k]) else CountOf(d, k)
  {
  }

  lemma MapsCommuteAt(d: map<string, int64>, a: map<string, int64>, b: map<string, int64>, k: string)
    ensures k in MergeMap(MergeMap(d, a), b) <==> k in MergeMap(MergeMap(d, b), a)
    ensures CountOf(MergeMap(MergeMap(d, a), b), k) == CountOf(MergeMap(MergeMap(d, b), a), k)
    ensures k in MergeMap(MergeMap(d, a), a) <==> k in MergeMap(d, a)
    ensures CountOf(MergeMap(MergeMap(d, a), a), k) == CountOf(MergeMap(d, a), k)
  {
    hide MergeMap;
    MergeMapAt(d, a, k);
    MergeMapAt(d, b, k);
    MergeMapAt(MergeMap(d, a), b, k);
    MergeMapAt(MergeMap(d, b), a, k);
    MergeMapAt(MergeMap(d, a), a, k);
  }

  lemma SameCounts(x: map<string, int64>, y: map<string, int64>)
    requires forall k :: (k in x <==> k in y) && CountOf(x, k) == CountOf(y, k)
    ensures x == y
  {
    forall k | k in x
      ensures k in y && x[k] == y[k]
    {
      assert CountOf(x, k) == CountOf(y, k);
    }
  }

  lemma MapsCommute(d: map<string, int64>, a: map<string, int64>, b: map<string, int64>)
    ensures MergeMap(MergeMap(d, a), b) == MergeMap(MergeMap(d, b), a)
    ensures MergeMap(MergeMap(d, a), a) == MergeMap(d, a)
  {
    hide MergeMap, CountOf;
    forall k
      ensures k in MergeMap(MergeMap(d, a), b) <==> k in MergeMap(MergeMap(d, b), a)
      ensures CountOf(MergeMap(MergeMap(d, a), b), k) == CountOf(MergeMap(MergeMap(d, b), a), k)
      ensures k in MergeMap(MergeMap(d, a), a) <==> k in MergeMap(d, a)
      ensures CountOf(MergeMap(MergeMap(d, a), a), k) == CountOf(MergeMap(d, a), k)
    {
      MapsCommuteAt(d, a, b, k);
    }
    SameCounts(MergeMap(MergeMap(d, a), b), MergeMap(MergeMap(d, b), a));
    SameCounts(MergeMap(MergeMap(d, a), a), MergeMap(d, a));
  }

  lemma DetailsCommute(d: Option<Details>, a: Option<Details>, b: Option<Details>)
    ensures MergeDetails(MergeDetails(d, a), b) == MergeDetails(MergeDetails(d, b), a)
    ensures MergeDetails(MergeDetails(d, a), a) == MergeDetails(d, a)
  {
    hide MergeMap;
    if a.Some? && b.Some? {
      MapsCommute(d.GetOr(NO_DETAILS).byModality, a.value.byModality, b.value.byModality);
    }
    if a.Some? {
      MapsCommute(d.GetOr(NO_DETAILS).byModality, a.value.byModality, a.value.byModality);
    }
  }

  // --- Everything but the total -------------------------------------------------------------------

  /** The record without its total. */
  function Rest(u: Usage): Usage { u.(total := 0) }

  predicate SameRest(x: Usage, y: Usage) { Rest(x) == Rest(y) }

  /** Merges commute and absorb repetition in every field but the total, for all
      snapshots, malformed or not. */
  lemma RestCommutes(d: Usage, a: Usage, b: Usage)
    ensures SameRest(Merge(Merge(d, a), b), Merge(Merge(d, b), a))
    ensures SameRest(Merge(Merge(d, a), a), Merge(d, a))
  {
    hide MergeDetails, MergeMap, MergeTotal;
    DetailsCommute(d.inputDetails, a.inputDetails, b.inputDetails);
    DetailsCommute(d.outputDetails, a.outputDetails, b.outputDetails);
    MapsCommute(d.providerDetails, a.providerDetails, b.providerDetails);
  }

  lemma RestOfMerge(x: Usage, y: Usage, a: Usage)
    requires SameRest(x, y)
    ensures SameRest(Merge(x, a), Merge(y, a))
  {
    hide MergeDetails, MergeMap, MergeTotal;
  }

  lemma {:induction false} RestOfMerges(x: Usage, y: Usage, us: seq<Usage>)
    requires SameRest(x, y)
    ensures SameRest(MergeAll(x, us), MergeAll(y, us))
    decreases |us|
  {
    hide Merge, SameRest;
    if us != [] {
      RestOfMerge(x, y, us[0]);
      RestOfMerges(Merge(x, us[0]), Merge(y, us[0]), us[1..]);
    }
  }

  lemma SameTrans(x: Usage, y: Usage, z: Usage)
    requires SameRest(x, y) && SameRest(y, z)
    ensures SameRest(x, z) && SameRest(y, x)
  {
  }

  lemma {:induction false} MergePasses(d: Usage, us: seq<Usage>, a: Usage)
    ensures SameRest(MergeAll(Merge(d, a), us), Merge(MergeAll(d, us), a))
    decreases |us|
  {
    if us != [] {
      hide Merge, SameRest;
      RestCommutes(d, a, us[0]);
      RestOfMerges(Merge(Merge(d, a), us[0]), Merge(Merge(d, us[0]), a), us[1..]);
      MergePasses(Merge(d, us[0]), us[1..], a);
      SameTrans(MergeAll(Merge(Merge(d, a), us[0]), us[1..]), MergeAll(Merge(Merge(d, us[0]), a), us[1..]),
                Merge(MergeAll(Merge(d, us[0]), us[1..]), a));
    }
  }

  lemma {:induction false} SeenSnapshotAbsorbed(d: Usage, us: seq<Usage>, a: Usage)
    requires a in us
    ensures SameRest(Merge(MergeAll(d, us), a), MergeAll(d, us))
    decreases |us|
  {
    hide Merge, SameRest;
    if us[0] == a {
      var rest := MergeAll(d, us[1..]);
      MergePasses(d, us[1..], a);
      RestOfMerge(MergeAll(d, us), Merge(rest, a), a);
      RestCommutes(rest, a, a);
      SameTrans(Merge(MergeAll(d, us), a), Merge(Merge(rest, a), a), Merge(rest, a));
      SameTrans(MergeAll(d, us), Merge(rest, a), Merge(rest, a)) by { RestReflexive(Merge(rest, a)); }
      SameTrans(Merge(MergeAll(d, us), a), Merge(rest, a), MergeAll(d, us));
    } else {
      SeenSnapshotAbsorbed(Merge(d, us[0]), us[1..], a);
    }
  }

  lemma RestReflexive(x: Usage)
    ensures SameRest(x, x)
  {
  }

  lemma {:induction false} SeenSnapshotsAbsorbed(d: Usage, us: seq<Usage>, vs: seq<Usage>)
    requires forall v :: v in vs ==> v in us
    ensures SameRest(MergeAll(MergeAll(d, us), vs), MergeAll(d, us))
    decreases |vs|
  {
    hide Merge, SameRest;
    var all := MergeAll(d, us);
    if vs == [] {
      RestReflexive(all);
    } else {
      assert vs[0] in vs;
      SeenSnapshotAbsorbed(d, us, vs[0]);
      RestOfMerges(Merge(all, vs[0]), all, vs[1..]);
      SeenSnapshotsAbsorbed(d, us, vs[1..]);
      SameTrans(MergeAll(Merge(all, vs[0]), vs[1..]), MergeAll(all, vs[1..]), all);
    }
  }

  lemma {:induction false} SnapshotsCommute(d: Usage, us: seq<Usage>, vs: seq<Usage>)
    ensures SameRest(MergeAll(MergeAll(d, us), vs), MergeAll(MergeAll(d, vs), us))
    decreases |us|
  {
    hide Merge, SameRest;
    if us == [] {
      RestReflexive(MergeAll(d, vs));
    } else {
      SnapshotsCommute(Merge(d, us[0]), us[1..], vs);
      MergePasses(d, vs, us[0]);
      RestOfMerges(MergeAll(Merge(d, us[0]), vs), Merge(MergeAll(d, vs), us[0]), us[1..]);
      SameTrans(MergeAll(MergeAll(d, us), vs), MergeAll(MergeAll(Merge(d, us[0]), vs), us[1..]), MergeAll(MergeAll(d, vs), us));
    }
  }

  /** The same snapshots, in any order and any number. */
  ghost predicate SameSnapshots(us: seq<Usage>, vs: seq<Usage>) { forall u :: u in us <==> u in vs }

  /** Every field but the total depends only on which snapshots arrived, for
      all snapshots. */
  lemma RestDependsOnlyOnTheSet(d: Usage, us: seq<Usage>, vs: seq<Usage>)
    requires SameSnapshots(us, vs)
    ensures SameRest(MergeAll(d, us), MergeAll(d, vs))
  {
    hide MergeAll, SameRest;
    SeenSnapshotsAbsorbed(d, us, vs);
    SeenSnapshotsAbsorbed(d, vs, us);
    SnapshotsCommute(d, us, vs);
    var uv, vu := MergeAll(MergeAll(d, us), vs), MergeAll(MergeAll(d, vs), us);
    SameTrans(uv, MergeAll(d, us), MergeAll(d, us)) by { RestReflexive(MergeAll(d, us)); }
    SameTrans(MergeAll(d, us), uv, vu);
    SameTrans(MergeAll(d, us), vu, MergeAll(d, vs));
  }

  // --- The total -------------------------------------------------------------------------------------

  /** Malformed input or output: from then on the sum is no longer filled in. */
  predicate Bad(u: Usage) { u.input < 0 || u.output < 0 }

  function GoodInput(u: Usage): int { if Bad(u) then 0 else u.input }
  function GoodOutput(u: Usage): int { if Bad(u) then 0 else u.output }
  function ReportedTotal(u: Usage): int { u.total }

  function Largest(us: seq<Usage>, f: Usage -> int): (r: int)
    ensures r >= 0
    decreases |us|
  {
    if us == [] then 0 else Max(f(us[0]), Largest(us[1..], f))
  }

  lemma {:induction false} LargestBounds(us: seq<Usage>, f: Usage -> int, u: Usage)
    requires u in us
    ensures f(u) <= Largest(us, f)
    decreases |us|
  {
    if us[0] != u {
      LargestBounds(us[1..], f, u);
    }
  }

  lemma {:induction false} LargestAtMost(us: seq<Usage>, f: Usage -> int, bound: int)
    requires bound >= 0 && forall u :: u in us ==> f(u) <= bound
    ensures Largest(us, f) <= bound
    decreases |us|
  {
    if us != [] {
      assert us[0] in us;
      LargestAtMost(us[1..], f, bound);
    }
  }

  lemma LargestOfMore(us: seq<Usage>, vs: seq<Usage>, f: Usage -> int)
    requires forall u :: u in us ==> u in vs
    ensures Largest(us, f) <= Largest(vs, f)
  {
    forall u | u in us
      ensures f(u) <= Largest(vs, f)
    {
      LargestBounds(vs, f, u);
    }
    LargestAtMost(us, f, Largest(vs, f));
  }

  /** The saturated sum of the largest well-formed parts. */
  function GoodSum(us: seq<Usage>): int { Min(MAX_INT64, Largest(us, GoodInput) + Largest(us, GoodOutput)) }

  predicate TotalsWellFormed(us: seq<Usage>) { forall i :: 0 <= i < |us| ==> us[i].total >= 0 }
  predicate NoneBad(us: seq<Usage>) { forall i :: 0 <= i < |us| ==> !Bad(us[i]) }

  lemma TokensOfMerge(d: Usage, a: Usage)
    requires d.total >= 0 && a.total >= 0
    ensures var r := Merge(d, a);
      && r.total >= d.total && r.total >= a.total
      && (Bad(d) || Bad(a) ==> Bad(r) && r.total == Max(d.total, a.total))
      && (!Bad(d) && !Bad(a) ==>
            && !Bad(r) && r.input == Max(d.input, a.input) && r.output == Max(d.output, a.output)
            && r.total == if a == NO_USAGE then d.total else Max(Max(d.total, a.total), Min(MAX_INT64, r.input + r.output)))
  {
    hide MergeDetails, MergeMap;
  }

  lemma {:induction false} TotalOnlyGrows(d: Usage, us: seq<Usage>)
    requires d.total >= 0 && TotalsWellFormed(us)
    ensures MergeAll(d, us).total >= Max(d.total, Largest(us, ReportedTotal))
    decreases |us|
  {
    hide Merge;
    if us != [] {
      TokensOfMerge(d, us[0]);
      TotalOnlyGrows(Merge(d, us[0]), us[1..]);
    }
  }

  // Once a malformed part has been merged, totals are only compared.
  lemma {:induction false} TotalAfterBad(d: Usage, us: seq<Usage>)
    requires d.total >= 0 && TotalsWellFormed(us) && Bad(d)
    ensures MergeAll(d, us).total == Max(d.total, Largest(us, ReportedTotal))
    decreases |us|
  {
    hide Merge;
    if us != [] {
      TokensOfMerge(d, us[0]);
      TotalAfterBad(Merge(d, us[0]), us[1..]);
    }
  }

  function SumFrom(d: Usage, us: seq<Usage>): int {
    Min(MAX_INT64, Max(d.input, Largest(us, GoodInput)) + Max(d.output, Largest(us, GoodOutput)))
  }

  lemma {:induction false} TotalAtMost(d: Usage, us: seq<Usage>)
    requires d.total >= 0 && TotalsWellFormed(us) && !Bad(d)
    ensures MergeAll(d, us).total <= Max(Max(d.total, Largest(us, ReportedTotal)), SumFrom(d, us))
    decreases |us|
  {
    hide Merge;
    if us != [] {
      var a := us[0];
      TokensOfMerge(d, a);
      if Bad(a) {
        TotalAfterBad(Merge(d, a), us[1..]);
      } else {
        TotalAtMost(Merge(d, a), us[1..]);
      }
    }
  }

  predicate Empty(u: Usage) { u == NO_USAGE }

  predicate AllEmpty(us: seq<Usage>) { forall i :: 0 <= i < |us| ==> Empty(us[i]) }

  /** With no malformed part the total is the larger of the largest total and
      the saturated sum of the largest parts. */
  lemma {:induction false} TotalOfGood(d: Usage, us: seq<Usage>)
    requires d.total >= 0 && TotalsWellFormed(us) && !Bad(d) && NoneBad(us)
    ensures MergeAll(d, us).total
         == if AllEmpty(us) then d.total else Max(Max(d.total, Largest(us, ReportedTotal)), SumFrom(d, us))
    decreases |us|
  {
    hide Merge, AllEmpty;
    if us == [] {
      NoSnapshots();
    } else {
      var a, rest := us[0], us[1..];
      EmptyParts(us);
      if Empty(a) {
        NothingMerged(d);
        TotalOfGood(d, rest);
      } else {
        TokensOfMerge(d, a);
        TotalOfGood(Merge(d, a), rest);
        if AllEmpty(rest) {
          LargestOfEmpty(rest);
        }
      }
    }
  }

  lemma NoSnapshots()
    ensures AllEmpty([])
  {
  }

  lemma NothingMerged(d: Usage)
    ensures Merge(d, NO_USAGE) == d
  {
  }

  lemma EmptyParts(us: seq<Usage>)
    requires us != []
    ensures AllEmpty(us) <==> Empty(us[0]) && AllEmpty(us[1..])
  {
    hide Empty;
    assert forall i :: 0 < i < |us| ==> us[i] == us[1..][i - 1];
  }

  lemma {:induction false} LargestOfEmpty(us: seq<Usage>)
    requires AllEmpty(us)
    ensures Largest(us, ReportedTotal) == Largest(us, GoodInput) == Largest(us, GoodOutput) == 0
    decreases |us|
  {
    if us != [] {
      LargestOfEmpty(us[1..]);
    }
  }

  predicate AllWellFormed(us: seq<Usage>) { forall i :: 0 <= i < |us| ==> WellFormedTokens(us[i]) }

  lemma SameLargest(us: seq<Usage>, vs: seq<Usage>, f: Usage -> int)
    requires SameSnapshots(us, vs)
    ensures Largest(us, f) == Largest(vs, f)
  {
    LargestOfMore(us, vs, f);
    LargestOfMore(vs, us, f);
  }

  lemma SameWellFormed(us: seq<Usage>, vs: seq<Usage>)
    requires SameSnapshots(us, vs)
    ensures TotalsWellFormed(us) == TotalsWellFormed(vs) && NoneBad(us) == NoneBad(vs) && AllEmpty(us) == AllEmpty(vs)
  {
    assert TotalsWellFormed(us) <==> forall u :: u in us ==> u.total >= 0;
    assert TotalsWellFormed(vs) <==> forall u :: u in vs ==> u.total >= 0;
    assert NoneBad(us) <==> forall u :: u in us ==> !Bad(u);
    assert NoneBad(vs) <==> forall u :: u in vs ==> !Bad(u);
    assert AllEmpty(us) <==> forall u :: u in us ==> Empty(u);
    assert AllEmpty(vs) <==> forall u :: u in vs ==> Empty(u);
  }

  lemma SameRestAndTotal(x: Usage, y: Usage)
    requires SameRest(x, y) && x.total == y.total
    ensures x == y
  {
    assert x == Rest(x).(total := x.total) && y == Rest(y).(total := y.total);
  }

  /** Well-formed snapshots: the merged usage depends only on which snapshots
      arrived, not on their order or on how often each arrived. */
  lemma OnlyTheSetOfSnapshotsMatters(d: Usage, us: seq<Usage>, vs: seq<Usage>)
    requires WellFormedTokens(d) && AllWellFormed(us) && AllWellFormed(vs) && SameSnapshots(us, vs)
    ensures MergeAll(d, us) == MergeAll(d, vs)
  {
    hide MergeAll, SameRest, SameSnapshots;
    RestDependsOnlyOnTheSet(d, us, vs);
    SameWellFormed(us, vs);
    SameLargest(us, vs, ReportedTotal);
    SameLargest(us, vs, GoodInput);
    SameLargest(us, vs, GoodOutput);
    TotalOfGood(d, us);
    TotalOfGood(d, vs);
    SameRestAndTotal(MergeAll(d, us), MergeAll(d, vs));
  }

  // --- Exactly when the total is settled ---------------------------------------------------------------

  /** Every order and repetition of the snapshots gives a fresh tracker the same total. */
  ghost predicate TotalSettled(us: seq<Usage>) {
    forall vs, ws :: SameSnapshots(us, vs) && SameSnapshots(us, ws) ==>
      MergeAll(NO_USAGE, vs).total == MergeAll(NO_USAGE, ws).total
  }

  /** Some total is malformed, or no part is, or the well-formed parts add up
      to no more than the largest total (as they do when there are none). */
  predicate TotalCondition(us: seq<Usage>) {
    !TotalsWellFormed(us) || NoneBad(us) || GoodSum(us) <= Largest(us, ReportedTotal)
  }

  lemma {:induction false} MalformedTotal(d: Usage, us: seq<Usage>)
    requires d.total == -1 || (d.total >= 0 && !TotalsWellFormed(us))
    ensures MergeAll(d, us).total == -1
    decreases |us|
  {
    hide MergeDetails, MergeMap;
    if us != [] {
      var rest := us[1..];
      assert forall i :: 0 < i < |us| ==> us[i] == rest[i - 1];
      assert Merge(d, us[0]).total == -1 || Merge(d, us[0]).total >= 0;
      MalformedTotal(Merge(d, us[0]), rest);
    }
  }

  lemma ConditionSettles(us: seq<Usage>, vs: seq<Usage>)
    requires SameSnapshots(us, vs) && TotalCondition(us)
    ensures MergeAll(NO_USAGE, us).total == MergeAll(NO_USAGE, vs).total
  {
    hide MergeAll, SameSnapshots;
    SameWellFormed(us, vs);
    SameLargest(us, vs, ReportedTotal);
    SameLargest(us, vs, GoodInput);
    SameLargest(us, vs, GoodOutput);
    if !TotalsWellFormed(us) {
      MalformedTotal(NO_USAGE, us);
      MalformedTotal(NO_USAGE, vs);
    } else if NoneBad(us) {
      TotalOfGood(NO_USAGE, us);
      TotalOfGood(NO_USAGE, vs);
    } else {
      TotalOnlyGrows(NO_USAGE, us);
      TotalOnlyGrows(NO_USAGE, vs);
      TotalAtMost(NO_USAGE, us);
      TotalAtMost(NO_USAGE, vs);
    }
  }

  function Goods(us: seq<Usage>): seq<Usage>
    decreases |us|
  {
    if us == [] then [] else if Bad(us[0]) then Goods(us[1..]) else [us[0]] + Goods(us[1..])
  }

  lemma {:induction false} GoodsOf(us: seq<Usage>)
    ensures NoneBad(Goods(us)) && (forall u :: u in Goods(us) ==> u in us)
    ensures Largest(Goods(us), GoodInput) == Largest(us, GoodInput)
    ensures Largest(Goods(us), GoodOutput) == Largest(us, GoodOutput)
    decreases |us|
  {
    if us != [] {
      GoodsOf(us[1..]);
      if !Bad(us[0]) {
        assert Goods(us)[1..] == Goods(us[1..]);
      }
    }
  }

  lemma {:induction false} MergeJoined(d: Usage, us: seq<Usage>, vs: seq<Usage>)
    ensures MergeAll(d, us + vs) == MergeAll(MergeAll(d, us), vs)
    decreases |us|
  {
    hide Merge;
    if us == [] {
      assert us + vs == vs;
    } else {
      assert (us + vs)[1..] == us[1..] + vs;
      MergeJoined(Merge(d, us[0]), us[1..], vs);
    }
  }

  // The malformed snapshot first: no sum is ever filled in.
  lemma BadFirst(us: seq<Usage>, b: Usage)
    requires TotalsWellFormed(us) && b in us && Bad(b)
    ensures SameSnapshots(us, [b] + us)
    ensures MergeAll(NO_USAGE, [b] + us).total == Largest(us, ReportedTotal)
  {
    hide Merge;
    LargestBounds(us, ReportedTotal, b);
    assert b.total >= 0;
    TokensOfMerge(NO_USAGE, b);
    assert ([b] + us)[1..] == us;
    TotalAfterBad(Merge(NO_USAGE, b), us);
  }

  // The well-formed snapshots first: their sum is filled in and stays.
  lemma GoodsFirst(us: seq<Usage>)
    requires TotalsWellFormed(us)
    ensures SameSnapshots(us, Goods(us) + us)
    ensures MergeAll(NO_USAGE, Goods(us) + us).total >= GoodSum(us)
  {
    hide MergeAll;
    var gs := Goods(us);
    GoodsOf(us);
    forall i | 0 <= i < |gs|
      ensures gs[i].total >= 0
    {
      assert gs[i] in us;
    }
    TotalOfGood(NO_USAGE, gs);
    if AllEmpty(gs) {
      LargestOfEmpty(gs);
    }
    TotalOnlyGrows(NO_USAGE, gs);
    TotalOnlyGrows(MergeAll(NO_USAGE, gs), us);
    MergeJoined(NO_USAGE, gs, us);
  }

  /** The total of a stream is independent of order and repetition of its
      snapshots if and only if some total is malformed, or no input or output
      is, or the well-formed parts do not add up past the largest total. */
  lemma TotalSettledIff(us: seq<Usage>)
    ensures TotalSettled(us) <==> TotalCondition(us)
  {
    if TotalCondition(us) {
      forall vs, ws | SameSnapshots(us, vs) && SameSnapshots(us, ws)
        ensures MergeAll(NO_USAGE, vs).total == MergeAll(NO_USAGE, ws).total
      {
        ConditionSettles(us, vs);
        ConditionSettles(us, ws);
      }
    } else {
      var i :| 0 <= i < |us| && Bad(us[i]);
      BadFirst(us, us[i]);
      GoodsFirst(us);
      assert SameSnapshots(us, [us[i]] + us) && SameSnapshots(us, Goods(us) + us);
    }
  }

  /** The condition for two snapshots: both totals are well formed and exactly
      one of them is malformed in a part whose sum would exceed both totals. */
  lemma TwoSnapshots(a: Usage, b: Usage)
    ensures TotalSettled([a, b]) <==>
      || a.total < 0 || b.total < 0 || (Bad(a) <==> Bad(b))
      || (var good := if Bad(a) then b else a; SaturatingSum(good.input, good.output) <= Max(a.total, b.total))
  {
    TotalSettledIff([a, b]);
    var us := [a, b];
    assert us[0] == a && us[1] == b && us[1..] == [b] && [b][1..] == [];
    forall f: Usage -> int
      ensures Largest(us, f) == Max(f(a), Max(f(b), 0))
    {
      assert Largest([b], f) == Max(f(b), 0);
    }
    assert TotalsWellFormed(us) <==> a.total >= 0 && b.total >= 0;
    assert NoneBad(us) <==> !Bad(a) && !Bad(b);
  }

  /** A pair whose total does depend on the order. */
  lemma MalformedMergeDependsOnOrder()
    ensures var a := NO_USAGE.(input := 5, output := 5);
      var b := NO_USAGE.(input := -1);
      MergeAll(NO_USAGE, [a, b]).total == 10 && MergeAll(NO_USAGE, [b, a]).total == 0
  {
    var a, b := NO_USAGE.(input := 5, output := 5), NO_USAGE.(input := -1);
    assert [a, b][1..] == [b] && [b, a][1..] == [a] && [a][1..] == [] && [b][1..] == [];
    assert MergeAll(Merge(NO_USAGE, a), [b]) == Merge(Merge(NO_USAGE, a), b);
    assert MergeAll(Merge(NO_USAGE, b), [a]) == Merge(Merge(NO_USAGE, b), a);
  }

  /** A malformed counter stays visible whatever is merged before or after it. */
  lemma {:induction false} MalformedStaysVisible(d: Usage, us: seq<Usage>)
    ensures MergeAll(d, us).input < 0 <==> d.input < 0 || exists i :: 0 <= i < |us| && us[i].input < 0
    ensures MergeAll(d, us).output < 0 <==> d.output < 0 || exists i :: 0 <= i < |us| && us[i].output < 0
    ensures MergeAll(d, us).total < 0 <==> d.total < 0 || exists i :: 0 <= i < |us| && us[i].total < 0
    decreases |us|
  {
    if us != [] {
      var rest := us[1..];
      MergeSigns(d, us[0]);
      MalformedStaysVisible(Merge(d, us[0]), rest);
      assert forall i :: 0 <= i < |rest| ==> rest[i] == us[i + 1];
      assert forall i :: 0 < i < |us| ==> us[i] == rest[i - 1];
    }
  }

  lemma MergeSigns(d: Usage, a: Usage)
    ensures var r := Merge(d, a);
      && (r.input < 0 <==> d.input < 0 || a.input < 0)
      && (r.output < 0 <==> d.output < 0 || a.output < 0)
      && (r.total < 0 <==> d.total < 0 || a.total < 0)
  {
    hide MergeDetails, MergeMap;
  }
}
