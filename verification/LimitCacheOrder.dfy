/** The limit cache as a list (store/limits.go): which entries it keeps, for how
    long and in which order, stated without its map, its list surgery or the order
    in which it prunes and evicts. */
module LimitCacheOrder {
  import opened QuotaTypes
  import opened MapSums
  import opened LimitCache

  /** The members that satisfy a condition, in order. */
  function Keep(l: seq<Id>, p: Id -> bool): seq<Id>
    decreases |l|
  {
    if l == [] then [] else (if p(l[0]) then [l[0]] else []) + Keep(l[1..], p)
  }

  function Take(l: seq<Id>, n: nat): seq<Id> { if |l| <= n then l else l[..n] }

  lemma {:induction false} KeepAll(l: seq<Id>, p: Id -> bool)
    requires forall k :: k in l ==> p(k)
    ensures Keep(l, p) == l
    decreases |l|
  {
    if l != [] {
      assert l == [l[0]] + l[1..];
      KeepAll(l[1..], p);
    }
  }

  lemma {:induction false} KeepTwice(l: seq<Id>, p: Id -> bool, q: Id -> bool, r: Id -> bool)
    requires forall k :: k in l ==> (r(k) <==> p(k) && q(k))
    ensures Keep(Keep(l, p), q) == Keep(l, r)
    decreases |l|
  {
    if l != [] {
      assert l == [l[0]] + l[1..];
      KeepTwice(l[1..], p, q, r);
      var rest := Keep(l[1..], p);
      if p(l[0]) {
        assert ([l[0]] + rest)[1..] == rest;
      } else {
        assert [] + rest == rest;
      }
    }
  }

  lemma {:induction false} WithoutIsKeep(l: seq<Id>, key: Id)
    requires NoDuplicates(l)
    ensures Without(l, key) == Keep(l, k => k != key)
    decreases |l|
  {
    if l != [] {
      if l[0] == key {
        assert forall k :: k in l[1..] ==> k != key;
        KeepAll(l[1..], k => k != key);
      } else {
        WithoutIsKeep(l[1..], key);
      }
    }
  }

  // --- Pruning -------------------------------------------------------------------------------------------

  lemma {:induction false} PruneOrder(c: Cache, keys: seq<Id>, now: int)
    requires Agrees(c)
    ensures PruneKeys(c, keys, now).lru == Keep(c.lru, k => !(k in keys && k in c.entries && c.entries[k].expires <= now))
    decreases |keys|
  {
    hide Agrees, Remove, Keep;
    if keys == [] {
      KeepAll(c.lru, k => !(k in keys && k in c.entries && c.entries[k].expires <= now));
    } else {
      var last, rest := keys[|keys| - 1], keys[..|keys| - 1];
      var c1 := PruneOne(c, last, now);
      assert keys == rest + [last];
      RemoveAgrees(c, last);
      PruneOrder(c1, rest, now);
      PrunedFirst(c, last, now);
      KeepTwice(c.lru, k => !(k == last && k in c.entries && c.entries[k].expires <= now),
                k => !(k in rest && k in c1.entries && c1.entries[k].expires <= now),
                k => !(k in keys && k in c.entries && c.entries[k].expires <= now));
    }
  }

  lemma PrunedFirst(c: Cache, last: Id, now: int)
    requires Agrees(c)
    ensures var c1 := PruneOne(c, last, now);
      && c1.lru == Keep(c.lru, k => !(k == last && k in c.entries && c.entries[k].expires <= now))
      && (forall k :: k in c1.entries <==> k in c.entries && !(k == last && c.entries[k].expires <= now))
      && (forall k :: k in c1.entries ==> c1.entries[k] == c.entries[k])
  {
    hide Keep;
    if last in c.entries && c.entries[last].expires <= now {
      WithoutIsKeep(c.lru, last);
      KeepSame(c.lru, k => k != last, k => !(k == last && k in c.entries && c.entries[k].expires <= now));
    } else {
      KeepAll(c.lru, k => !(k == last && k in c.entries && c.entries[k].expires <= now));
    }
  }

  lemma {:induction false} KeepSame(l: seq<Id>, p: Id -> bool, q: Id -> bool)
    requires forall k :: k in l ==> p(k) == q(k)
    ensures Keep(l, p) == Keep(l, q)
    decreases |l|
  {
    if l != [] {
      assert l == [l[0]] + l[1..];
      KeepSame(l[1..], p, q);
    }
  }

  /** The keys whose entries have not expired, in order of use. */
  function Fresh(c: Cache, now: int): seq<Id> { Keep(c.lru, k => k in c.entries && c.entries[k].expires > now) }

  lemma PrunedIsFresh(c: Cache, now: int)
    requires Agrees(c)
    ensures PruneExpired(c, now).lru == Fresh(c, now)
  {
    hide Keep, PruneKeys;
    PruneOrder(c, c.lru, now);
    KeepSame(c.lru, k => !(k in c.lru && k in c.entries && c.entries[k].expires <= now), k => k in c.entries && c.entries[k].expires > now);
  }

  // --- Eviction ------------------------------------------------------------------------------------------

  lemma {:induction false} WithoutLast(l: seq<Id>)
    requires NoDuplicates(l) && l != []
    ensures Without(l, l[|l| - 1]) == l[..|l| - 1]
    decreases |l|
  {
    if |l| > 1 {
      assert l[1..][|l| - 2] == l[|l| - 1];
      WithoutLast(l[1..]);
      assert l[..|l| - 1] == [l[0]] + l[1..][..|l| - 2];
    }
  }

  function Members(l: seq<Id>): set<Id>
    decreases |l|
  {
    if l == [] then {} else {l[0]} + Members(l[1..])
  }

  lemma {:induction false} MembersOf(l: seq<Id>, k: Id)
    ensures k in Members(l) <==> k in l
    decreases |l|
  {
    if l != [] {
      assert l == [l[0]] + l[1..];
      MembersOf(l[1..], k);
    }
  }

  lemma {:induction false} ListSize(l: seq<Id>)
    requires NoDuplicates(l)
    ensures |Members(l)| == |l|
    decreases |l|
  {
    if l != [] {
      ListSize(l[1..]);
      MembersOf(l[1..], l[0]);
    }
  }

  lemma SizesAgree(c: Cache)
    requires Agrees(c)
    ensures |c.lru| == |c.entries|
  {
    hide Members;
    ListSize(c.lru);
    forall k
      ensures k in Members(c.lru) <==> k in c.entries.Keys
    {
      MembersOf(c.lru, k);
    }
    assert Members(c.lru) == c.entries.Keys;
  }

  lemma {:induction false} EvictOrder(c: Cache, capacity: nat)
    requires Agrees(c)
    ensures Evict(c, capacity).lru == Take(c.lru, capacity)
    decreases |c.lru|
  {
    hide Agrees, Evict, Remove, Without;
    SizesAgree(c);
    EvictOnce(c, capacity);
    if |c.entries| > capacity {
      var last := c.lru[|c.lru| - 1];
      NoneTwice(c);
      WithoutLast(c.lru);
      RemoveAgrees(c, last);
      RemovedList(c, last);
      EvictOrder(Remove(c, last), capacity);
    }
  }

  lemma EvictOnce(c: Cache, capacity: nat)
    ensures Evict(c, capacity) == if |c.entries| <= capacity || c.lru == [] then c else Evict(Remove(c, c.lru[|c.lru| - 1]), capacity)
  {
    hide Remove;
  }

  lemma NoneTwice(c: Cache)
    requires Agrees(c)
    ensures NoDuplicates(c.lru)
  {
  }

  // --- What the cache holds --------------------------------------------------------------------------------

  /** A lookup hits exactly if the key is cached and its time is not over; a hit
      answers the cached value and becomes the most recently used key. */
  lemma LookupAnswers(c: Cache, key: Id, now: int)
    requires Agrees(c)
    ensures var (c', found) := Lookup(c, key, now);
      && (found.Hit? <==> key in c.entries && now < c.entries[key].expires)
      && (found.Hit? ==>
            && found.value == c.entries[key].value && c'.entries == c.entries
            && c'.lru == [key] + Keep(c.lru, k => k != key))
      && (found.Miss? ==> c'.lru == Keep(c.lru, k => k != key) && key !in c'.entries)
  {
    hide Keep;
    WithoutIsKeep(c.lru, key);
    if key !in c.entries {
      KeepAll(c.lru, k => k != key);
    }
  }

  /** A Get asks the source exactly if the lookup misses, and remembers the
      generation it asked under. */
  lemma GetAsksSourceIffMissed(s: Store, e: Event, ttl: int, capacity: nat)
    requires e.action.BeginGet? && e.action.key != 0 && e.call !in s.calls
    ensures var s', key := Step(s, e, ttl, capacity), e.action.key;
      && s'.source == s.source && s'.cache.generation == s.cache.generation
      && s'.calls == if key in s.cache.entries && e.now < s.cache.entries[key].expires then s.calls
                     else s.calls[e.call := Fetching(key, s.cache.generation)]
  {
  }

  lemma InsertKnown(c: Cache, key: Id, entry: Cached, capacity: nat)
    ensures key in c.entries ==> Insert(c, key, entry, capacity).lru == [key] + Without(c.lru, key)
    ensures key !in c.entries ==>
      Insert(c, key, entry, capacity) == Evict(c.(entries := c.entries[key := entry], lru := [key] + c.lru), capacity)
  {
    hide Evict, Without;
  }

  lemma NewAgrees(c: Cache, key: Id, entry: Cached)
    requires Agrees(c) && key !in c.entries
    ensures Agrees(c.(entries := c.entries[key := entry], lru := [key] + c.lru))
  {
  }

  lemma InList(c: Cache, key: Id)
    requires Agrees(c)
    ensures NoDuplicates(c.lru) && (key in c.lru <==> key in c.entries)
  {
  }

  lemma InsertOrder(c: Cache, key: Id, entry: Cached, capacity: nat)
    requires Agrees(c) && |c.entries| <= capacity
    ensures Insert(c, key, entry, capacity).lru == Take([key] + Keep(c.lru, k => k != key), capacity)
  {
    hide Keep, Without, Evict, Agrees, Insert, NoDuplicates;
    InList(c, key);
    WithoutIsKeep(c.lru, key);
    InsertKnown(c, key, entry, capacity);
    if key in c.entries {
      SizesAgree(c);
      WithoutShorter(c.lru, key);
    } else {
      KeepAll(c.lru, k => k != key);
      NewAgrees(c, key, entry);
      EvictOrder(c.(entries := c.entries[key := entry], lru := [key] + c.lru), capacity);
    }
  }

  // What a publication finds after pruning.
  predicate Pruned(c: Cache, p: Cache, now: int) {
    p.lru == Fresh(c, now) && forall k :: k in p.entries ==> k in c.entries && p.entries[k] == c.entries[k]
  }

  /** What a publication leaves: its key in front, then the other keys whose time
      is not over in their order of use, as many as the capacity allows. */
  predicate Leaves(c: Cache, c': Cache, key: Id, entry: Cached, now: int, capacity: nat) {
    && c'.lru == Take([key] + Keep(c.lru, k => k in c.entries && c.entries[k].expires > now && k != key), capacity)
    && forall k :: k in c'.entries ==> if k == key then c'.entries[k] == entry else k in c.entries && c'.entries[k] == c.entries[k]
  }

  lemma PrunedFor(c: Cache, now: int)
    requires Agrees(c)
    ensures var p := PruneExpired(c, now); Agrees(p) && Pruned(c, p, now) && |p.entries| <= |c.entries| && p.generation == c.generation
  {
    hide Keep, PruneKeys, Agrees;
    PruneAgrees(c, c.lru, now);
    ShrunkSize(c, PruneExpired(c, now));
    PrunedIsFresh(c, now);
  }

  lemma InsertLeaves(c: Cache, p: Cache, key: Id, entry: Cached, now: int, capacity: nat)
    requires Agrees(p) && |p.entries| <= capacity && Pruned(c, p, now)
    ensures Leaves(c, Insert(p, key, entry, capacity), key, entry, now, capacity)
    ensures Insert(p, key, entry, capacity).generation == p.generation && Agrees(Insert(p, key, entry, capacity))
  {
    hide Keep, Insert, Agrees, Take;
    InsertOrder(p, key, entry, capacity);
    InsertAgrees(p, key, entry, capacity);
    KeepTwice(c.lru, k => k in c.entries && c.entries[k].expires > now, k => k != key,
              k => k in c.entries && c.entries[k].expires > now && k != key);
  }

  /** A write is published for its time to live, under a new generation. */
  lemma WriteIsPublished(c: Cache, key: Id, limit: LimitSpec, now: int, ttl: int, capacity: nat)
    requires Agrees(c) && |c.entries| <= capacity
    ensures var c' := PublishPut(c, key, limit, now, ttl, capacity);
      Agrees(c') && c'.generation == c.generation + 1 && Leaves(c, c', key, Cached(Some(limit), now + ttl), now, capacity)
  {
    hide PruneExpired, Insert, Agrees, Leaves, Pruned;
    var p := PruneExpired(c, now);
    PrunedFor(c, now);
    var raised := p.(generation := p.generation + 1);
    Raised(c, p, raised, now);
    InsertLeaves(c, raised, key, Cached(Some(limit), now + ttl), now, capacity);
  }

  lemma Raised(c: Cache, p: Cache, p': Cache, now: int)
    requires Agrees(p) && Pruned(c, p, now) && p'.entries == p.entries && p'.lru == p.lru
    ensures Agrees(p') && Pruned(c, p', now)
  {
  }

  /** A source read is published in the same way if no write was published since
      it began, and not at all otherwise. */
  lemma ReadIsPublishedUnlessOvertaken(c: Cache, key: Id, value: Option<LimitSpec>, generation: nat, now: int, ttl: int, capacity: nat)
    requires Agrees(c) && |c.entries| <= capacity
    ensures var c' := PublishGet(c, key, value, generation, now, ttl, capacity);
      if generation != c.generation then c' == c
      else Agrees(c') && c'.generation == c.generation && Leaves(c, c', key, Cached(value, now + ttl), now, capacity)
  {
    hide PruneExpired, Insert, Agrees, Leaves, Pruned;
    PrunedFor(c, now);
    InsertLeaves(c, PruneExpired(c, now), key, Cached(value, now + ttl), now, capacity);
  }
}
