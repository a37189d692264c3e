/** Merging the debits of one rate batch (store/rlm.go): inactive debits are
    skipped and debits of the same key are added up, so that a batch names every
    key once. */
module RateRequests {
  import opened QuotaTypes

  datatype RateLimit = RateLimit(rate: int64, burst: int64, period: int64)
  datatype Request = Request(key: string, limit: RateLimit, n: int64)

  predicate Active(r: Request) { r.limit.rate > 0 && r.n > 0 }

  /** Active debits of the same key carry the same limit. */
  predicate Consistent(rs: seq<Request>) {
    forall i, j :: 0 <= i < |rs| && 0 <= j < |rs| && Active(rs[i]) && Active(rs[j]) && rs[i].key == rs[j].key
      ==> rs[i].limit == rs[j].limit
  }

  /** What the active debits ask of one key in total. */
  function Demand(rs: seq<Request>, key: string): int {
    if rs == [] then 0
    else
      var last := rs[|rs| - 1];
      Demand(rs[..|rs| - 1], key) + if Active(last) && last.key == key then last.n else 0
  }

  predicate DistinctKeys(rs: seq<Request>) {
    forall i, j :: 0 <= i < j < |rs| ==> rs[i].key != rs[j].key
  }

  predicate Names(rs: seq<Request>, key: string) { exists i :: 0 <= i < |rs| && Active(rs[i]) && rs[i].key == key }

  /** The keys in order of their first active debit. */
  function FirstKeys(rs: seq<Request>): seq<string> {
    if rs == [] then []
    else
      var last, before := rs[|rs| - 1], FirstKeys(rs[..|rs| - 1]);
      if Active(last) && last.key !in before then before + [last.key] else before
  }

  /** One active debit per key, in first-use order, asking for the saturated
      total of the key under the limit all its debits share. */
  ghost predicate Merges(out: seq<Request>, rs: seq<Request>) {
    && DistinctKeys(out)
    && |out| == |FirstKeys(rs)|
    && forall j :: 0 <= j < |out| ==>
         && Active(out[j]) && out[j].key == FirstKeys(rs)[j]
         && out[j].n == Min(MAX_INT64, Demand(rs, out[j].key))
         && SharesLimit(rs, out[j])
  }

  predicate SharesLimit(rs: seq<Request>, r: Request) {
    forall i :: 0 <= i < |rs| && Active(rs[i]) && rs[i].key == r.key ==> rs[i].limit == r.limit
  }

  lemma {:induction false} FirstKeysNamed(rs: seq<Request>, key: string)
    ensures key in FirstKeys(rs) <==> Names(rs, key)
  {
    if rs != [] {
      var before := rs[..|rs| - 1];
      FirstKeysNamed(before, key);
      assert forall i :: 0 <= i < |before| ==> before[i] == rs[i];
      if Names(rs, key) && !Names(before, key) {
        var i :| 0 <= i < |rs| && Active(rs[i]) && rs[i].key == key;
        assert i == |rs| - 1;
      }
    }
  }

  lemma {:induction false} DemandBounds(rs: seq<Request>, key: string)
    ensures Demand(rs, key) >= 0
    ensures !Names(rs, key) ==> Demand(rs, key) == 0
  {
    if rs != [] {
      var before := rs[..|rs| - 1];
      DemandBounds(before, key);
      assert forall i :: 0 <= i < |before| ==> before[i] == rs[i];
    }
  }

  datatype Merged = Batch(requests: seq<Request>) | Inconsistent

  lemma Extended(rs: seq<Request>, i: nat)
    requires i < |rs|
    ensures rs[..i + 1][..i] == rs[..i] && rs[..i + 1][i] == rs[i]
  {
  }

  lemma InactiveSkipped(out: seq<Request>, rs: seq<Request>, i: nat)
    requires i < |rs| && Merges(out, rs[..i]) && !Active(rs[i])
    ensures Merges(out, rs[..i + 1])
  {
    Extended(rs, i);
    forall j | 0 <= j < |out|
      ensures Demand(rs[..i + 1], out[j].key) == Demand(rs[..i], out[j].key) && SharesLimit(rs[..i + 1], out[j])
    {
      var before, after := rs[..i], rs[..i + 1];
      assert SharesLimit(before, out[j]);
      forall m | 0 <= m < i + 1 && Active(after[m]) && after[m].key == out[j].key
        ensures after[m].limit == out[j].limit
      {
        assert before[m] == after[m];
      }
    }
  }

  // A debit of a key already in the batch, under the same limit.
  lemma DebitAdded(out: seq<Request>, rs: seq<Request>, i: nat, at: nat, n: int64)
    requires i < |rs| && Merges(out, rs[..i]) && Active(rs[i])
    requires at < |out| && out[at].key == rs[i].key && out[at].limit == rs[i].limit
    requires n == Min(MAX_INT64, out[at].n + rs[i].n)
    ensures Merges(out[at := out[at].(n := n)], rs[..i + 1])
  {
    Extended(rs, i);
    var out' := out[at := out[at].(n := n)];
    var before, after := rs[..i], rs[..i + 1];
    assert out[at].key in FirstKeys(before);
    assert FirstKeys(after) == FirstKeys(before);
    forall j | 0 <= j < |out'|
      ensures out'[j].n == Min(MAX_INT64, Demand(after, out'[j].key)) && SharesLimit(after, out'[j])
    {
      assert SharesLimit(before, out[j]) && out'[j].key == out[j].key && out'[j].limit == out[j].limit;
      DemandBounds(before, out[j].key);
      assert j != at ==> out[j].key != rs[i].key;
      forall m | 0 <= m < i + 1 && Active(after[m]) && after[m].key == out'[j].key
        ensures after[m].limit == out'[j].limit
      {
        if m < i {
          assert before[m] == after[m];
        }
      }
    }
  }

  lemma KeyOpened(out: seq<Request>, rs: seq<Request>, i: nat)
    requires i < |rs| && Merges(out, rs[..i]) && Active(rs[i])
    requires forall j :: 0 <= j < |out| ==> out[j].key != rs[i].key
    ensures Merges(out + [rs[i]], rs[..i + 1])
  {
    Extended(rs, i);
    var out' := out + [rs[i]];
    var before, after := rs[..i], rs[..i + 1];
    assert rs[i].key !in FirstKeys(before);
    FirstKeysNamed(before, rs[i].key);
    DemandBounds(before, rs[i].key);
    forall j | 0 <= j < |out'|
      ensures out'[j].n == Min(MAX_INT64, Demand(after, out'[j].key)) && SharesLimit(after, out'[j])
    {
      if j < |out| {
        assert SharesLimit(before, out[j]);
      }
      forall m | 0 <= m < i + 1 && Active(after[m]) && after[m].key == out'[j].key
        ensures after[m].limit == out'[j].limit
      {
        if m < i {
          assert before[m] == after[m];
          assert Names(before, after[m].key);
        }
      }
    }
  }

  lemma MergedIsConsistent(out: seq<Request>, rs: seq<Request>)
    requires Merges(out, rs)
    ensures Consistent(rs)
  {
    forall i, j | 0 <= i < |rs| && 0 <= j < |rs| && Active(rs[i]) && Active(rs[j]) && rs[i].key == rs[j].key
      ensures rs[i].limit == rs[j].limit
    {
      FirstKeysNamed(rs, rs[i].key);
      assert Names(rs, rs[i].key);
      var m :| 0 <= m < |out| && FirstKeys(rs)[m] == rs[i].key;
      assert SharesLimit(rs, out[m]);
    }
  }

  /** The batch is refused exactly when two active debits of a key disagree on
      its limit; otherwise every key is debited once, with its total. */
  method NormalizeRequests(rs: seq<Request>) returns (r: Merged)
    ensures r.Inconsistent? <==> !Consistent(rs)
    ensures r.Batch? ==> Merges(r.requests, rs)
  {
    var normalized: seq<Request> := [];
    var indices: map<string, nat> := map[];
    for i := 0 to |rs|
      invariant Merges(normalized, rs[..i])
      invariant forall k :: k in indices ==> indices[k] < |normalized| && normalized[indices[k]].key == k
      invariant forall j :: 0 <= j < |normalized| ==> normalized[j].key in indices
    {
      var request := rs[i];
      if !Active(request) {
        InactiveSkipped(normalized, rs, i);
      } else if request.key in indices {
        var at := indices[request.key];
        if normalized[at].limit != request.limit {
          assert SharesLimit(rs[..i], normalized[at]);
          Disagreement(rs, i, normalized[at], normalized);
          return Inconsistent;
        }
        var n: int64 := if normalized[at].n > MAX_INT64 - request.n then MAX_INT64 else normalized[at].n + request.n;
        DebitAdded(normalized, rs, i, at, n);
        normalized := normalized[at := normalized[at].(n := n)];
      } else {
        KeyOpened(normalized, rs, i);
        indices := indices[request.key := |normalized|];
        normalized := normalized + [request];
      }
    }
    assert rs[..|rs|] == rs;
    MergedIsConsistent(normalized, rs);
    return Batch(normalized);
  }

  lemma Disagreement(rs: seq<Request>, i: nat, seen: Request, out: seq<Request>)
    requires i < |rs| && Active(rs[i]) && Merges(out, rs[..i]) && seen in out
    requires seen.key == rs[i].key && seen.limit != rs[i].limit
    ensures !Consistent(rs)
  {
    var j :| 0 <= j < |out| && out[j] == seen;
    FirstKeysNamed(rs[..i], seen.key);
    assert FirstKeys(rs[..i])[j] == seen.key;
    var m :| 0 <= m < i && Active(rs[..i][m]) && rs[..i][m].key == seen.key;
    assert SharesLimit(rs[..i], out[j]);
    assert rs[..i][m] == rs[m];
  }

  // --- The merged batch as a value ----------------------------------------------------------------

  /** Consistent debits can be merged. */
  lemma {:induction false} MergeExists(rs: seq<Request>, i: nat) returns (out: seq<Request>)
    requires Consistent(rs) && i <= |rs|
    ensures Merges(out, rs[..i])
    decreases i
  {
    if i == 0 {
      out := [];
    } else {
      var before := MergeExists(rs, i - 1);
      var r := rs[i - 1];
      if !Active(r) {
        InactiveSkipped(before, rs, i - 1);
        out := before;
      } else if at :| 0 <= at < |before| && before[at].key == r.key {
        SharedLimit(rs, i - 1, before, at);
        var n: int64 := Min(MAX_INT64, before[at].n + r.n);
        DebitAdded(before, rs, i - 1, at, n);
        out := before[at := before[at].(n := n)];
      } else {
        KeyOpened(before, rs, i - 1);
        out := before + [r];
      }
    }
  }

  lemma SharedLimit(rs: seq<Request>, i: nat, out: seq<Request>, at: nat)
    requires Consistent(rs) && i < |rs| && Active(rs[i]) && Merges(out, rs[..i])
    requires at < |out| && out[at].key == rs[i].key
    ensures out[at].limit == rs[i].limit
  {
    if out[at].limit != rs[i].limit {
      Disagreement(rs, i, out[at], out);
    }
  }

  /** There is only one way to merge. */
  lemma MergesUnique(a: seq<Request>, b: seq<Request>, rs: seq<Request>)
    requires Merges(a, rs) && Merges(b, rs)
    ensures a == b
  {
    forall j | 0 <= j < |a|
      ensures a[j] == b[j]
    {
      FirstKeysNamed(rs, a[j].key);
      assert FirstKeys(rs)[j] == a[j].key;
      var i :| 0 <= i < |rs| && Active(rs[i]) && rs[i].key == a[j].key;
      assert SharesLimit(rs, a[j]) && SharesLimit(rs, b[j]);
    }
  }

  ghost function MergedBatch(rs: seq<Request>): (out: seq<Request>)
    requires Consistent(rs)
    ensures Merges(out, rs)
  {
    MergeExistsFor(rs);
    var out :| Merges(out, rs);
    out
  }

  lemma MergeExistsFor(rs: seq<Request>)
    requires Consistent(rs)
    ensures exists out :: Merges(out, rs)
  {
    var out := MergeExists(rs, |rs|);
    assert rs[..|rs|] == rs;
  }
}
