/** Weighted routing (gateway/gateway.go) and its model index
    (gateway/config.go). Names and models are opaque and ordered, so numbers
    stand for them; the hash of a request is an arbitrary 64-bit value, and the
    order in which Go visits the route map is the order of a sequence. */
module Routing {
  import opened QuotaTypes

  const MAX_UINT64: nat := 0xFFFF_FFFF_FFFF_FFFF

  datatype Route = Route(name: nat, model: nat, priority: int64, weight: int64)

  // --- Sorting (a library call in the source) -----------------------------------------------------

  predicate Before(a: Route, b: Route, byPriority: bool) {
    if byPriority && a.priority != b.priority then a.priority > b.priority else a.name < b.name
  }

  // Goes behind everything it is not before, so equal elements keep their order.
  function Insert(sorted: seq<Route>, r: Route, byPriority: bool): seq<Route>
    decreases |sorted|
  {
    if sorted != [] && Before(r, sorted[|sorted| - 1], byPriority)
    then Insert(sorted[..|sorted| - 1], r, byPriority) + [sorted[|sorted| - 1]]
    else sorted + [r]
  }

  function Sort(rs: seq<Route>, byPriority: bool): seq<Route>
    decreases |rs|
  {
    if rs == [] then [] else Insert(Sort(rs[..|rs| - 1], byPriority), rs[|rs| - 1], byPriority)
  }

  predicate Ordered(rs: seq<Route>, byPriority: bool) {
    forall i, j :: 0 <= i < j < |rs| ==> !Before(rs[j], rs[i], byPriority)
  }

  lemma {:induction false} InsertContents(sorted: seq<Route>, r: Route, byPriority: bool)
    ensures multiset(Insert(sorted, r, byPriority)) == multiset(sorted) + multiset{r}
    decreases |sorted|
  {
    if sorted != [] {
      assert sorted == sorted[..|sorted| - 1] + [sorted[|sorted| - 1]];
      if Before(r, sorted[|sorted| - 1], byPriority) {
        InsertContents(sorted[..|sorted| - 1], r, byPriority);
      }
    }
  }

  predicate MayFollow(last: Route, rs: seq<Route>, byPriority: bool) {
    forall i :: 0 <= i < |rs| ==> !Before(last, rs[i], byPriority)
  }

  lemma AppendOrdered(sorted: seq<Route>, last: Route, byPriority: bool)
    requires Ordered(sorted, byPriority) && MayFollow(last, sorted, byPriority)
    ensures Ordered(sorted + [last], byPriority)
  {
    hide Before;
  }

  lemma LastIsGreatest(sorted: seq<Route>, r: Route, byPriority: bool)
    requires Ordered(sorted, byPriority) && sorted != [] && !Before(r, sorted[|sorted| - 1], byPriority)
    ensures MayFollow(r, sorted, byPriority)
  {
  }

  lemma InsertBounded(sorted: seq<Route>, r: Route, last: Route, byPriority: bool)
    requires !Before(last, r, byPriority) && MayFollow(last, sorted, byPriority)
    ensures MayFollow(last, Insert(sorted, r, byPriority), byPriority)
  {
    hide Before, Insert;
    InsertContents(sorted, r, byPriority);
    var out := Insert(sorted, r, byPriority);
    forall i | 0 <= i < |out|
      ensures !Before(last, out[i], byPriority)
    {
      assert out[i] in multiset(out);
      assert out[i] == r || out[i] in sorted;
    }
  }

  lemma {:induction false} InsertOrdered(sorted: seq<Route>, r: Route, byPriority: bool)
    requires Ordered(sorted, byPriority)
    ensures Ordered(Insert(sorted, r, byPriority), byPriority)
    decreases |sorted|
  {
    if sorted == [] {
      assert Insert(sorted, r, byPriority) == [r];
    } else {
      var init, last := sorted[..|sorted| - 1], sorted[|sorted| - 1];
      if Before(r, last, byPriority) {
        assert !Before(last, r, byPriority);
        InsertOrdered(init, r, byPriority);
        InsertBounded(init, r, last, byPriority);
        AppendOrdered(Insert(init, r, byPriority), last, byPriority);
      } else {
        LastIsGreatest(sorted, r, byPriority);
        AppendOrdered(sorted, r, byPriority);
      }
    }
  }

  lemma {:induction false} SortContents(rs: seq<Route>, byPriority: bool)
    ensures multiset(Sort(rs, byPriority)) == multiset(rs)
    ensures Ordered(Sort(rs, byPriority), byPriority)
    decreases |rs|
  {
    if rs != [] {
      var init := rs[..|rs| - 1];
      assert rs == init + [rs[|rs| - 1]];
      SortContents(init, byPriority);
      InsertContents(Sort(init, byPriority), rs[|rs| - 1], byPriority);
      InsertOrdered(Sort(init, byPriority), rs[|rs| - 1], byPriority);
    }
  }

  predicate DistinctNames(rs: seq<Route>) {
    forall i, j :: 0 <= i < j < |rs| ==> rs[i].name != rs[j].name
  }

  lemma SameNameSameRoute(rs: seq<Route>, a: Route, b: Route)
    requires DistinctNames(rs) && a in rs && b in rs && a.name == b.name
    ensures a == b
  {
    var i :| 0 <= i < |rs| && rs[i] == a;
    var j :| 0 <= j < |rs| && rs[j] == b;
    assert i < j || j < i || i == j;
  }

  lemma FirstIsLeast(ys: seq<Route>, x: Route, byPriority: bool)
    requires Ordered(ys, byPriority) && x in ys
    ensures x == ys[0] || !Before(x, ys[0], byPriority)
  {
    var i :| 0 <= i < |ys| && ys[i] == x;
  }

  lemma WithoutFirst(xs: seq<Route>, byPriority: bool)
    requires xs != [] && Ordered(xs, byPriority)
    ensures multiset(xs[1..]) == multiset(xs) - multiset{xs[0]}
    ensures Ordered(xs[1..], byPriority)
    ensures forall x :: x in xs[1..] ==> x in xs
  {
    assert xs == [xs[0]] + xs[1..];
  }

  lemma SameElements(xs: seq<Route>, ys: seq<Route>)
    requires multiset(xs) == multiset(ys)
    ensures |xs| == |ys| && forall x :: x in xs <==> x in ys
  {
    assert |multiset(xs)| == |xs| && |multiset(ys)| == |ys|;
    forall x
      ensures x in xs <==> x in ys
    {
      assert x in xs <==> x in multiset(xs);
      assert x in ys <==> x in multiset(ys);
    }
  }

  lemma SameFirst(xs: seq<Route>, ys: seq<Route>, pool: seq<Route>, byPriority: bool)
    requires Ordered(xs, byPriority) && Ordered(ys, byPriority) && multiset(xs) == multiset(ys) && xs != []
    requires DistinctNames(pool) && forall x :: x in xs ==> x in pool
    ensures ys != [] && xs[0] == ys[0]
  {
    hide Ordered, DistinctNames;
    SameElements(xs, ys);
    var x, y := xs[0], ys[0];
    assert x in xs && y in ys;
    FirstIsLeast(ys, x, byPriority);
    FirstIsLeast(xs, y, byPriority);
    SameNameSameRoute(pool, x, if x.name == y.name then y else x);
  }

  /** With distinct names there is only one way to order the same routes. */
  lemma {:induction false} OrderIsUnique(xs: seq<Route>, ys: seq<Route>, pool: seq<Route>, byPriority: bool)
    requires Ordered(xs, byPriority) && Ordered(ys, byPriority) && multiset(xs) == multiset(ys)
    requires DistinctNames(pool) && forall x :: x in xs ==> x in pool
    ensures xs == ys
    decreases |xs|
  {
    hide Ordered, DistinctNames, Before;
    if xs == [] {
      SameElements(xs, ys);
    } else {
      SameFirst(xs, ys, pool, byPriority);
      WithoutFirst(xs, byPriority);
      WithoutFirst(ys, byPriority);
      OrderIsUnique(xs[1..], ys[1..], pool, byPriority);
      assert xs == [xs[0]] + xs[1..] && ys == [ys[0]] + ys[1..];
    }
  }

  // --- The model index ------------------------------------------------------------------------------

  // A nil route is None.
  function OfModel(visit: seq<Option<Route>>, model: nat): seq<Route>
    decreases |visit|
  {
    if visit == [] then []
    else
      var before, last := OfModel(visit[..|visit| - 1], model), visit[|visit| - 1];
      if last.Some? && last.value.model == model then before + [last.value] else before
  }

  /** A full scan of the routes in any visiting order. */
  function Scan(visit: seq<Option<Route>>, model: nat): seq<Route> { Sort(OfModel(visit, model), false) }

  type Index = map<nat, seq<Route>>

  function Lookup(index: Index, model: nat): seq<Route> { if model in index then index[model] else [] }

  method CollectByModel(visit: seq<Option<Route>>) returns (lists: Index)
    ensures forall m :: Lookup(lists, m) == OfModel(visit, m)
    ensures forall m :: m in lists <==> OfModel(visit, m) != []
  {
    lists := map[];
    for i := 0 to |visit|
      invariant forall m :: Lookup(lists, m) == OfModel(visit[..i], m)
      invariant forall m :: m in lists <==> OfModel(visit[..i], m) != []
    {
      assert visit[..i + 1][..i] == visit[..i] && visit[..i + 1][i] == visit[i];
      if visit[i].Some? {
        var route := visit[i].value;
        lists := lists[route.model := Lookup(lists, route.model) + [route]];
      }
    }
    assert visit[..|visit|] == visit;
  }

  // Sorts the lists of the index, in any order of models.
  method SortLists(lists: Index) returns (index: Index)
    ensures index.Keys == lists.Keys && forall m :: m in lists ==> index[m] == Sort(lists[m], false)
  {
    hide Sort;
    index := lists;
    var remaining := lists.Keys;
    while remaining != {}
      invariant remaining <= index.Keys == lists.Keys
      invariant forall m :: m in index ==> index[m] == if m in remaining then lists[m] else Sort(lists[m], false)
    {
      var model :| model in remaining;
      index := index[model := Sort(index[model], false)];
      remaining := remaining - {model};
    }
  }

  /** The rebuilt index answers every model as a scan of the routes would. */
  method RebuildCatalog(visit: seq<Option<Route>>) returns (index: Index)
    ensures forall m :: Lookup(index, m) == Scan(visit, m)
    ensures forall m :: m in index <==> OfModel(visit, m) != []
  {
    var lists := CollectByModel(visit);
    index := SortLists(lists);
    forall m
      ensures Lookup(index, m) == Scan(visit, m)
    {
      assert Lookup(lists, m) == OfModel(visit, m);
    }
  }

  function RoutesOf(visit: seq<Option<Route>>): seq<Route>
    decreases |visit|
  {
    if visit == [] then []
    else
      var before, last := RoutesOf(visit[..|visit| - 1]), visit[|visit| - 1];
      if last.Some? then before + [last.value] else before
  }

  lemma {:induction false} OfModelCount(visit: seq<Option<Route>>, model: nat, r: Route)
    ensures multiset(OfModel(visit, model))[r] == if r.model == model then multiset(RoutesOf(visit))[r] else 0
    decreases |visit|
  {
    if visit != [] {
      OfModelCount(visit[..|visit| - 1], model, r);
    }
  }

  lemma OfModelSame(v: seq<Option<Route>>, w: seq<Option<Route>>, model: nat)
    requires multiset(RoutesOf(v)) == multiset(RoutesOf(w))
    ensures multiset(OfModel(v, model)) == multiset(OfModel(w, model))
  {
    forall r: Route
      ensures multiset(OfModel(v, model))[r] == multiset(OfModel(w, model))[r]
    {
      OfModelCount(v, model, r);
      OfModelCount(w, model, r);
    }
  }

  /** With distinct names, the index built in one visiting order gives exactly
      what a scan in any other visiting order gives. */
  lemma IndexMatchesScan(v: seq<Option<Route>>, w: seq<Option<Route>>, model: nat)
    requires multiset(RoutesOf(v)) == multiset(RoutesOf(w)) && DistinctNames(RoutesOf(v))
    ensures Scan(v, model) == Scan(w, model)
  {
    OfModelSame(v, w, model);
    SortContents(OfModel(v, model), false);
    SortContents(OfModel(w, model), false);
    forall x | x in Scan(v, model)
      ensures x in RoutesOf(v)
    {
      assert x in multiset(Scan(v, model));
      OfModelCount(v, model, x);
      assert x in multiset(RoutesOf(v));
    }
    OrderIsUnique(Scan(v, model), Scan(w, model), RoutesOf(v), false);
  }

  // --- Weighted rotation ------------------------------------------------------------------------------

  function Weight(r: Route): nat { if r.weight <= 0 then 0 else r.weight }

  /** Weight of the first routes of a group. */
  function Offset(group: seq<Route>, i: nat): nat
    requires i <= |group|
  {
    if i == 0 then 0 else Offset(group, i - 1) + Weight(group[i - 1])
  }

  function Total(group: seq<Route>): nat { Offset(group, |group|) }

  function Capped(n: nat): nat { if n > MAX_UINT64 then MAX_UINT64 else n }

  /** The first route whose running weight passes the target. */
  function Pick(group: seq<Route>, target: nat, i: nat): (r: nat)
    requires i <= |group|
    ensures group != [] ==> r < |group|
    decreases |group| - i
  {
    if i == |group| then 0
    else if Weight(group[i]) > 0 && target < Capped(Offset(group, i + 1)) then i
    else Pick(group, target, i + 1)
  }

  function Rotate(group: seq<Route>, hash: nat): seq<Route> {
    if |group| <= 1 || Total(group) == 0 then group
    else
      var pick := Pick(group, hash % Capped(Total(group)), 0);
      group[pick..] + group[..pick]
  }

  lemma {:induction false} OffsetGrows(group: seq<Route>, i: nat, j: nat)
    requires i <= j <= |group|
    ensures Offset(group, i) <= Offset(group, j)
    decreases j - i
  {
    if i < j {
      OffsetGrows(group, i, j - 1);
    }
  }

  // Running weight as the source adds it up.
  function Reach(group: seq<Route>, i: nat): nat
    requires i <= |group|
  {
    Capped(Offset(group, i))
  }

  lemma ReachGrows(group: seq<Route>, i: nat, j: nat)
    requires i <= j <= |group|
    ensures Reach(group, i) <= Reach(group, j)
  {
    OffsetGrows(group, i, j);
  }

  lemma {:induction false} PickedLater(group: seq<Route>, target: nat, from: nat)
    requires from <= |group| && Reach(group, from) <= target < Reach(group, |group|)
    ensures Pick(group, target, from) >= from
    decreases |group| - from
  {
    if from < |group| {
      ReachGrows(group, from + 1, |group|);
      if target >= Reach(group, from + 1) {
        PickedLater(group, target, from + 1);
      }
    }
  }

  /** A target picks route i exactly when it falls into the slice of the total
      that its weight adds. */
  lemma {:induction false} PickedBySlice(group: seq<Route>, target: nat, i: nat, from: nat)
    requires from <= i < |group| && Reach(group, from) <= target < Reach(group, |group|)
    ensures Pick(group, target, from) == i <==> Reach(group, i) <= target < Reach(group, i + 1)
    decreases |group| - from
  {
    ReachGrows(group, from + 1, |group|);
    if from < i {
      ReachGrows(group, from + 1, i);
      if target >= Reach(group, from + 1) {
        PickedBySlice(group, target, i, from + 1);
      }
    } else if target >= Reach(group, i + 1) {
      PickedLater(group, target, i + 1);
    }
  }

  /** The hash modulo the total falls into the slice that route i adds to the
      running weights. */
  predicate InSlice(group: seq<Route>, hash: nat, i: nat)
    requires i < |group| && Total(group) > 0
  {
    Reach(group, i) <= hash % Reach(group, |group|) < Reach(group, i + 1)
  }

  predicate NoTwoAlike(rs: seq<Route>) { forall i, j :: 0 <= i < j < |rs| ==> rs[i] != rs[j] }

  /** What a weighted rotation is: the group as it stands if no weight is
      positive, and otherwise the group from the route on whose slice the hash
      falls into. There is such a route, and it is the one that comes first. */
  predicate StartsBySlice(out: seq<Route>, group: seq<Route>, hash: nat) {
    if Total(group) == 0 then out == group
    else
      && (exists i :: 0 <= i < |group| && InSlice(group, hash, i))
      && (forall i :: 0 <= i < |group| && InSlice(group, hash, i) ==> out == group[i..] + group[..i])
      && (NoTwoAlike(group) ==> forall i :: 0 <= i < |group| ==> ((out[..1] == [group[i]]) <==> InSlice(group, hash, i)))
  }

  lemma PickIsInSlice(group: seq<Route>, hash: nat)
    requires |group| > 1 && Total(group) > 0
    ensures forall i :: 0 <= i < |group| ==> (InSlice(group, hash, i) <==> i == Pick(group, hash % Capped(Total(group)), 0))
  {
    forall i | 0 <= i < |group|
      ensures InSlice(group, hash, i) <==> i == Pick(group, hash % Capped(Total(group)), 0)
    {
      PickedBySlice(group, hash % Capped(Total(group)), i, 0);
    }
  }

  lemma RotateStartsBySlice(group: seq<Route>, hash: nat)
    ensures StartsBySlice(Rotate(group, hash), group, hash)
  {
    if Total(group) > 0 {
      if |group| > 1 {
        hide Offset, InSlice, Pick;
        PickIsInSlice(group, hash);
        var pick := Pick(group, hash % Capped(Total(group)), 0);
        var out := Rotate(group, hash);
        assert InSlice(group, hash, pick);
        assert out[0] == group[pick];
      } else {
        OneRoute(group, hash);
      }
    }
  }

  lemma OneRoute(group: seq<Route>, hash: nat)
    requires |group| <= 1 && Total(group) > 0
    ensures StartsBySlice(group, group, hash)
  {
    assert |group| == 1;
    assert InSlice(group, hash, 0);
    assert group == group[0..] + group[..0];
  }

  /** The weights of a group added up, stopping at 64 bits. */
  method SumWeights(group: seq<Route>) returns (total: nat)
    ensures total == Capped(Total(group))
  {
    total := 0;
    var i := 0;
    while i < |group|
      invariant 0 <= i <= |group| && total == Offset(group, i) <= MAX_UINT64
    {
      OffsetGrows(group, i + 1, |group|);
      if group[i].weight > 0 {
        if total > MAX_UINT64 - group[i].weight {
          total := MAX_UINT64;
          break;
        }
        total := total + group[i].weight;
      }
      i := i + 1;
    }
  }

  /** Running weights as the source adds them: no sum leaves 64 bits. The hash,
      reduced by the total weight, falls into the slice of the route that comes
      first. */
  method RotateWeighted(group: seq<Route>, hash: nat) returns (out: seq<Route>)
    ensures out == Rotate(group, hash)
    ensures StartsBySlice(out, group, hash)
  {
    hide StartsBySlice, InSlice, NoTwoAlike, Reach;
    RotateStartsBySlice(group, hash);
    if |group| <= 1 {
      return group;
    }
    var total := SumWeights(group);
    if total == 0 {
      return group;
    }
    var target, pick, offset := hash % total, 0, 0;
    var k := 0;
    while k < |group|
      invariant 0 <= k <= |group| && offset == Capped(Offset(group, k))
      invariant Pick(group, target, k) == Pick(group, target, 0)
    {
      if group[k].weight > 0 {
        offset := if offset > MAX_UINT64 - group[k].weight then MAX_UINT64 else offset + group[k].weight;
        if target < offset {
          pick := k;
          break;
        }
      }
      k := k + 1;
    }
    return group[pick..] + group[..pick];
  }

  function Slice(from: nat, end: nat): set<nat>
    requires from <= end
    decreases end
  {
    if from == end then {} else Slice(from, end - 1) + {end - 1}
  }

  lemma {:induction false} SliceSize(from: nat, end: nat)
    requires from <= end
    ensures |Slice(from, end)| == end - from
    ensures forall t :: (t in Slice(from, end)) <==> (from <= t < end)
    decreases end
  {
    if from < end {
      SliceSize(from, end - 1);
    }
  }

  /** The hashes below the (capped) total that put route i first. */
  function FirstFor(group: seq<Route>, i: nat): set<nat>
    requires i < |group|
  {
    set h: nat | h < Reach(group, |group|) && Rotate(group, h)[..1] == [group[i]]
  }

  lemma FirstInSlice(group: seq<Route>, h: nat, i: nat)
    requires i < |group| && NoTwoAlike(group) && h < Reach(group, |group|)
    ensures Rotate(group, h)[..1] == [group[i]] <==> Reach(group, i) <= h < Reach(group, i + 1)
  {
    hide Offset, Rotate, NoTwoAlike;
    RotateStartsBySlice(group, h);
    assert InSlice(group, h, i) <==> Reach(group, i) <= h < Reach(group, i + 1) by {
      SmallRemainder(h, Reach(group, |group|));
    }
  }

  lemma SmallRemainder(h: nat, n: nat)
    requires h < n
    ensures h % n == h
  {
  }

  lemma ShareOfHashes(group: seq<Route>, i: nat)
    requires i < |group| && NoTwoAlike(group)
    ensures |FirstFor(group, i)| == Reach(group, i + 1) - Reach(group, i)
  {
    hide Offset, Rotate, Reach, NoTwoAlike;
    ReachGrows(group, i, i + 1);
    ReachGrows(group, i + 1, |group|);
    var slice := Slice(Reach(group, i), Reach(group, i + 1));
    SliceSize(Reach(group, i), Reach(group, i + 1));
    forall h: nat
      ensures h in FirstFor(group, i) <==> h in slice
    {
      if h < Reach(group, |group|) {
        FirstInSlice(group, h, i);
      }
    }
    assert FirstFor(group, i) == slice;
  }

  /** Routes come first in exact proportion to their weights if and only if the
      weights do not saturate: then exactly weight_i of the hashes below the
      total put route i first. */
  lemma FirstInProportion(group: seq<Route>)
    requires NoTwoAlike(group)
    ensures (forall i :: 0 <= i < |group| ==> |FirstFor(group, i)| == if group[i].weight > 0 then group[i].weight else 0)
            <==> Total(group) <= MAX_UINT64
  {
    hide FirstFor;
    if Total(group) <= MAX_UINT64 {
      forall i | 0 <= i < |group|
        ensures |FirstFor(group, i)| == Weight(group[i])
      {
        OffsetGrows(group, i + 1, |group|);
        ShareOfHashes(group, i);
      }
    } else {
      var i := Crossing(group, |group|);
      ShareOfHashes(group, i);
      assert |FirstFor(group, i)| != Weight(group[i]);
    }
  }

  // The route whose weight takes the running total past 64 bits.
  lemma {:induction false} Crossing(group: seq<Route>, n: nat) returns (i: nat)
    requires n <= |group| && Offset(group, n) > MAX_UINT64
    ensures i < n && Offset(group, i) <= MAX_UINT64 < Offset(group, i + 1)
    decreases n
  {
    if Offset(group, n - 1) <= MAX_UINT64 {
      i := n - 1;
    } else {
      i := Crossing(group, n - 1);
    }
  }

  // --- Resolve ------------------------------------------------------------------------------------------

  datatype Prepared = Accepted | Rejected(explained: bool)
  datatype Resolution = Resolved(routes: seq<Route>) | Unsupported | NotFound

  function Eligible(rs: seq<Route>, prepare: Route -> Prepared): seq<Route>
    decreases |rs|
  {
    if rs == [] then []
    else
      var before, last := Eligible(rs[..|rs| - 1], prepare), rs[|rs| - 1];
      if prepare(last).Accepted? then before + [last] else before
  }

  predicate Explained(rs: seq<Route>, prepare: Route -> Prepared) {
    exists i :: 0 <= i < |rs| && prepare(rs[i]).Rejected? && prepare(rs[i]).explained
  }

  // End of the block of equal priority at the front.
  function BlockEnd(rs: seq<Route>, i: nat): (r: nat)
    requires 0 < i <= |rs|
    ensures i <= r <= |rs|
    decreases |rs| - i
  {
    if i < |rs| && rs[i].priority == rs[0].priority then BlockEnd(rs, i + 1) else i
  }

  function RotateBlocks(rs: seq<Route>, hash: nat): seq<Route>
    decreases |rs|
  {
    if rs == [] then []
    else
      var end := BlockEnd(rs, 1);
      Rotate(rs[..end], hash) + RotateBlocks(rs[end..], hash)
  }

  function ResolveAll(rs: seq<Route>, prepare: Route -> Prepared, hash: nat): Resolution {
    var candidates := Eligible(rs, prepare);
    if candidates != [] then Resolved(RotateBlocks(Sort(candidates, true), hash))
    else if Explained(rs, prepare) then Unsupported
    else NotFound
  }

  method CollectCandidates(rs: seq<Route>, prepare: Route -> Prepared) returns (candidates: seq<Route>, unsupported: bool)
    ensures candidates == Eligible(rs, prepare) && unsupported == Explained(rs, prepare)
  {
    hide Explained;
    candidates, unsupported := [], false;
    NothingExplained(prepare);
    assert rs[..0] == [];
    for i := 0 to |rs|
      invariant candidates == Eligible(rs[..i], prepare)
      invariant unsupported == Explained(rs[..i], prepare)
    {
      assert rs[..i + 1][..i] == rs[..i] && rs[..i + 1][i] == rs[i];
      ExplainedStep(rs, i, prepare);
      var p := prepare(rs[i]);
      if p.Accepted? {
        candidates := candidates + [rs[i]];
      } else if p.explained {
        unsupported := true;
      }
    }
    assert rs[..|rs|] == rs;
  }

  lemma NothingExplained(prepare: Route -> Prepared)
    ensures !Explained([], prepare)
  {
  }

  method FindBlockEnd(rs: seq<Route>) returns (end: nat)
    requires rs != []
    ensures end == BlockEnd(rs, 1)
  {
    end := 1;
    while end < |rs| && rs[end].priority == rs[0].priority
      invariant 0 < end <= |rs| && BlockEnd(rs, end) == BlockEnd(rs, 1)
    {
      end := end + 1;
    }
  }

  method OrderBlocks(sorted: seq<Route>, hash: nat) returns (ordered: seq<Route>)
    ensures ordered == RotateBlocks(sorted, hash)
  {
    hide Rotate, BlockEnd;
    ordered := [];
    var rest := sorted;
    while rest != []
      invariant ordered + RotateBlocks(rest, hash) == RotateBlocks(sorted, hash)
      decreases |rest|
    {
      var end := FindBlockEnd(rest);
      var rotated := RotateWeighted(rest[..end], hash);
      BlocksFirst(rest, hash);
      ordered, rest := ordered + rotated, rest[end..];
    }
  }

  lemma BlocksFirst(rs: seq<Route>, hash: nat)
    requires rs != []
    ensures RotateBlocks(rs, hash) == Rotate(rs[..BlockEnd(rs, 1)], hash) + RotateBlocks(rs[BlockEnd(rs, 1)..], hash)
  {
  }

  method Resolve(rs: seq<Route>, prepare: Route -> Prepared, hash: nat) returns (r: Resolution)
    ensures r == ResolveAll(rs, prepare, hash)
  {
    var candidates, unsupported := CollectCandidates(rs, prepare);
    if candidates == [] {
      return if unsupported then Unsupported else NotFound;
    }
    var ordered := OrderBlocks(Sort(candidates, true), hash);
    return Resolved(ordered);
  }

  lemma ExplainedStep(rs: seq<Route>, i: nat, prepare: Route -> Prepared)
    requires i < |rs|
    ensures Explained(rs[..i + 1], prepare)
      <==> Explained(rs[..i], prepare) || (prepare(rs[i]).Rejected? && prepare(rs[i]).explained)
  {
    var before, after := rs[..i], rs[..i + 1];
    assert forall j :: 0 <= j < i ==> before[j] == after[j];
    assert after[i] == rs[i];
    if Explained(before, prepare) {
      var j :| 0 <= j < |before| && prepare(before[j]).Rejected? && prepare(before[j]).explained;
      assert after[j] == before[j];
    }
  }

  // --- What Resolve returns -----------------------------------------------------------------------------

  predicate IsRotation(out: seq<Route>, group: seq<Route>) {
    exists k :: 0 <= k <= |group| && out == group[k..] + group[..k]
  }

  lemma RotateIsRotation(group: seq<Route>, hash: nat)
    ensures IsRotation(Rotate(group, hash), group)
    ensures |Rotate(group, hash)| == |group|
    ensures multiset(Rotate(group, hash)) == multiset(group)
  {
    if |group| <= 1 || Total(group) == 0 {
      assert group == group[0..] + group[..0];
    } else {
      var pick := Pick(group, hash % Capped(Total(group)), 0);
      assert group == group[..pick] + group[pick..];
    }
  }

  lemma Parts(first: seq<Route>, rest: seq<Route>)
    ensures (first + rest)[..|first|] == first && (first + rest)[|first|..] == rest
    ensures multiset(first + rest) == multiset(first) + multiset(rest)
  {
  }

  lemma {:induction false} RotateBlocksContents(rs: seq<Route>, hash: nat)
    ensures multiset(RotateBlocks(rs, hash)) == multiset(rs)
    decreases |rs|
  {
    if rs != [] {
      hide Rotate, BlockEnd, IsRotation, RotateBlocks;
      var end := BlockEnd(rs, 1);
      BlocksFirst(rs, hash);
      RotateIsRotation(rs[..end], hash);
      RotateBlocksContents(rs[end..], hash);
      Parts(Rotate(rs[..end], hash), RotateBlocks(rs[end..], hash));
      Parts(rs[..end], rs[end..]);
      assert rs == rs[..end] + rs[end..];
    }
  }

  predicate NonIncreasing(rs: seq<Route>) { forall i, j :: 0 <= i < j < |rs| ==> rs[i].priority >= rs[j].priority }

  lemma {:induction false} BlockHasOnePriority(rs: seq<Route>, i: nat)
    requires 0 < i <= |rs| && forall j :: 0 <= j < i ==> rs[j].priority == rs[0].priority
    ensures forall j :: 0 <= j < BlockEnd(rs, i) ==> rs[j].priority == rs[0].priority
    decreases |rs| - i
  {
    if i < |rs| && rs[i].priority == rs[0].priority {
      BlockHasOnePriority(rs, i + 1);
    }
  }

  predicate SamePriorities(a: seq<Route>, b: seq<Route>) {
    |a| == |b| && forall i :: 0 <= i < |a| ==> a[i].priority == b[i].priority
  }

  lemma JoinSamePriorities(a: seq<Route>, b: seq<Route>, c: seq<Route>, d: seq<Route>)
    requires SamePriorities(a, b) && SamePriorities(c, d)
    ensures SamePriorities(a + c, b + d)
  {
  }

  lemma RotatedBlockPriority(block: seq<Route>, hash: nat, priority: int64)
    requires forall j :: 0 <= j < |block| ==> block[j].priority == priority
    ensures SamePriorities(Rotate(block, hash), block)
  {
    hide Rotate;
    RotateIsRotation(block, hash);
    var out := Rotate(block, hash);
    var k :| 0 <= k <= |block| && out == block[k..] + block[..k];
  }

  lemma {:induction false} RotationKeepsPriorities(rs: seq<Route>, hash: nat)
    ensures SamePriorities(RotateBlocks(rs, hash), rs)
    decreases |rs|
  {
    if rs != [] {
      hide Rotate, BlockEnd, RotateBlocks, SamePriorities;
      var end := BlockEnd(rs, 1);
      var block, rest := rs[..end], rs[end..];
      BlocksFirst(rs, hash);
      BlockHasOnePriority(rs, 1);
      RotatedBlockPriority(block, hash, rs[0].priority);
      RotationKeepsPriorities(rest, hash);
      JoinSamePriorities(Rotate(block, hash), block, RotateBlocks(rest, hash), rest);
      assert rs == block + rest;
    }
  }

  lemma {:induction false} EligibleCount(rs: seq<Route>, prepare: Route -> Prepared, r: Route)
    ensures multiset(Eligible(rs, prepare))[r] == if prepare(r).Accepted? then multiset(rs)[r] else 0
    decreases |rs|
  {
    if rs != [] {
      assert rs == rs[..|rs| - 1] + [rs[|rs| - 1]];
      EligibleCount(rs[..|rs| - 1], prepare, r);
    }
  }

  lemma EligibleExists(rs: seq<Route>, prepare: Route -> Prepared)
    ensures Eligible(rs, prepare) != [] <==> exists x :: x in rs && prepare(x).Accepted?
  {
    hide Eligible;
    var candidates := Eligible(rs, prepare);
    if candidates != [] {
      var x := candidates[0];
      EligibleCount(rs, prepare, x);
      assert x in multiset(candidates);
      assert x in rs;
    }
    if x :| x in rs && prepare(x).Accepted? {
      EligibleCount(rs, prepare, x);
      assert x in multiset(rs);
      assert x in multiset(candidates);
    }
  }

  lemma OrderedIsNonIncreasing(rs: seq<Route>, out: seq<Route>)
    requires Ordered(rs, true) && SamePriorities(out, rs)
    ensures NonIncreasing(out)
  {
  }

  /** The routes of one priority, in order. */
  function OfPriority(rs: seq<Route>, priority: int64): seq<Route>
    decreases |rs|
  {
    if rs == [] then [] else (if rs[0].priority == priority then [rs[0]] else []) + OfPriority(rs[1..], priority)
  }

  lemma {:induction false} OfPriorityJoins(a: seq<Route>, b: seq<Route>, priority: int64)
    ensures OfPriority(a + b, priority) == OfPriority(a, priority) + OfPriority(b, priority)
    decreases |a|
  {
    if a == [] {
      assert a + b == b;
    } else {
      var ab := a + b;
      assert ab[0] == a[0] && ab[1..] == a[1..] + b;
      OfPriorityJoins(a[1..], b, priority);
    }
  }

  lemma {:induction false} OfPriorityAll(rs: seq<Route>, priority: int64)
    requires forall i :: 0 <= i < |rs| ==> rs[i].priority == priority
    ensures OfPriority(rs, priority) == rs
    decreases |rs|
  {
    if rs != [] {
      OfPriorityAll(rs[1..], priority);
    }
  }

  lemma {:induction false} OfPriorityNone(rs: seq<Route>, priority: int64)
    requires forall i :: 0 <= i < |rs| ==> rs[i].priority != priority
    ensures OfPriority(rs, priority) == []
    decreases |rs|
  {
    if rs != [] {
      OfPriorityNone(rs[1..], priority);
    }
  }

  lemma {:induction false} BlockIsWhole(rs: seq<Route>, i: nat)
    requires 0 < i <= |rs| && NonIncreasing(rs)
    ensures forall j :: BlockEnd(rs, i) <= j < |rs| ==> rs[j].priority != rs[0].priority
    decreases |rs| - i
  {
    if i < |rs| && rs[i].priority == rs[0].priority {
      BlockIsWhole(rs, i + 1);
    }
  }

  // One block, before and after its rotation.
  lemma BlockOfPriority(block: seq<Route>, out: seq<Route>, hash: nat, p: int64, priority: int64)
    requires out == Rotate(block, hash) && forall i :: 0 <= i < |block| ==> block[i].priority == p
    ensures OfPriority(out, priority) == if p == priority then out else []
    ensures OfPriority(block, priority) == if p == priority then block else []
  {
    hide Rotate, OfPriority;
    RotatedBlockPriority(block, hash, p);
    if p == priority {
      OfPriorityAll(block, priority);
      OfPriorityAll(out, priority);
    } else {
      OfPriorityNone(block, priority);
      OfPriorityNone(out, priority);
    }
  }

  lemma {:induction false} RotatedPriority(rs: seq<Route>, hash: nat, priority: int64)
    requires NonIncreasing(rs)
    ensures StartsBySlice(OfPriority(RotateBlocks(rs, hash), priority), OfPriority(rs, priority), hash)
    decreases |rs|
  {
    hide Rotate, BlockEnd, RotateBlocks, StartsBySlice, OfPriority;
    if rs == [] {
      NoRoutes(hash, priority);
    } else {
      var end := BlockEnd(rs, 1);
      var block, rest := rs[..end], rs[end..];
      var out, outs := Rotate(block, hash), RotateBlocks(rest, hash);
      BlocksFirst(rs, hash);
      BlockHasOnePriority(rs, 1);
      BlockOfPriority(block, out, hash, rs[0].priority, priority);
      OfPriorityJoins(out, outs, priority);
      OfPriorityJoins(block, rest, priority);
      assert rs == block + rest;
      if rs[0].priority == priority {
        BlockIsWhole(rs, 1);
        RotationKeepsPriorities(rest, hash);
        OfPriorityNone(rest, priority);
        OfPriorityNone(outs, priority);
        RotateStartsBySlice(block, hash);
        assert OfPriority(out + outs, priority) == out && OfPriority(rs, priority) == block;
      } else {
        RotatedPriority(rest, hash, priority);
        assert OfPriority(out + outs, priority) == OfPriority(outs, priority) && OfPriority(rs, priority) == OfPriority(rest, priority);
      }
    }
  }

  lemma NoRoutes(hash: nat, priority: int64)
    ensures StartsBySlice(OfPriority(RotateBlocks([], hash), priority), OfPriority([], priority), hash)
  {
  }

  /** Resolve returns every accepted route as often as it was configured and
      nothing else, in non-increasing priority, the routes of each priority
      rotated by weight from their name order. Without an accepted route it
      refuses: as unsupported exactly if some route gave a reason. */
  lemma ResolvedRoutes(rs: seq<Route>, prepare: Route -> Prepared, hash: nat)
    ensures var r := ResolveAll(rs, prepare, hash);
      var sorted := Sort(Eligible(rs, prepare), true);
      && (r.Resolved? <==> exists x :: x in rs && prepare(x).Accepted?)
      && (r.Unsupported? <==> !r.Resolved? && exists x :: x in rs && prepare(x) == Rejected(true))
      && (r.Resolved? ==>
            && (forall x :: multiset(r.routes)[x] == if prepare(x).Accepted? then multiset(rs)[x] else 0)
            && NonIncreasing(r.routes)
            && Ordered(sorted, true) && multiset(sorted) == multiset(r.routes)
            && forall p :: StartsBySlice(OfPriority(r.routes, p), OfPriority(sorted, p), hash))
  {
    hide Eligible, Sort, RotateBlocks, Ordered, NonIncreasing, SamePriorities, StartsBySlice, OfPriority;
    var candidates := Eligible(rs, prepare);
    var sorted := Sort(candidates, true);
    EligibleExists(rs, prepare);
    SortContents(candidates, true);
    RotateBlocksContents(sorted, hash);
    RotationKeepsPriorities(sorted, hash);
    OrderedIsNonIncreasing(sorted, RotateBlocks(sorted, hash));
    OrderedIsNonIncreasing(sorted, sorted) by {
      SameAsItself(sorted);
    }
    forall x: Route
      ensures multiset(candidates)[x] == if prepare(x).Accepted? then multiset(rs)[x] else 0
    {
      EligibleCount(rs, prepare, x);
    }
    forall p: int64
      ensures StartsBySlice(OfPriority(RotateBlocks(sorted, hash), p), OfPriority(sorted, p), hash)
    {
      RotatedPriority(sorted, hash, p);
    }
  }

  lemma SameAsItself(rs: seq<Route>)
    ensures SamePriorities(rs, rs)
  {
  }
}
