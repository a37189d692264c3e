/** The cached quota-limit store (store/limits.go): an LRU cache with a time to
    live in front of a slower source. The lock is dropped around source calls, so
    lookups, source reads, source writes and publications of any number of calls
    interleave. */
module LimitCache {
  import opened QuotaTypes
  import opened MapSums

  // Key IDs are opaque, zero stands for the empty one; None records that the source has no limit for the key.
  datatype Cached = Cached(value: Option<LimitSpec>, expires: int)

  // `lru` lists the cached keys, most recently used first.
  datatype Cache = Cache(entries: map<Id, Cached>, lru: seq<Id>, generation: nat)

  const EMPTY_CACHE: Cache := Cache(map[], [], 0)

  // --- List and map -----------------------------------------------------------------------------

  function Without(lru: seq<Id>, key: Id): seq<Id>
    decreases |lru|
  {
    if lru == [] then [] else if lru[0] == key then lru[1..] else [lru[0]] + Without(lru[1..], key)
  }

  function Remove(c: Cache, key: Id): Cache { c.(entries := c.entries - {key}, lru := Without(c.lru, key)) }

  function Touch(c: Cache, key: Id): Cache { c.(lru := [key] + Without(c.lru, key)) }

  function Evict(c: Cache, capacity: nat): Cache
    decreases |c.lru|
  {
    if |c.entries| <= capacity || c.lru == [] then c
    else
      WithoutShorter(c.lru, c.lru[|c.lru| - 1]);
      Evict(Remove(c, c.lru[|c.lru| - 1]), capacity)
  }

  function Insert(c: Cache, key: Id, entry: Cached, capacity: nat): Cache {
    if key in c.entries then Touch(c.(entries := c.entries[key := entry]), key)
    else Evict(c.(entries := c.entries[key := entry], lru := [key] + c.lru), capacity)
  }

  // Walks the given keys from the back and removes what has expired.
  function PruneKeys(c: Cache, keys: seq<Id>, now: int): Cache
    decreases |keys|
  {
    if keys == [] then c
    else
      var last := keys[|keys| - 1];
      PruneKeys(PruneOne(c, last, now), keys[..|keys| - 1], now)
  }

  function PruneExpired(c: Cache, now: int): Cache { PruneKeys(c, c.lru, now) }

  lemma {:induction false} WithoutShorter(lru: seq<Id>, key: Id)
    ensures |Without(lru, key)| == |lru| - if key in lru then 1 else 0
    decreases |lru|
  {
    if lru != [] && lru[0] != key {
      WithoutShorter(lru[1..], key);
    }
  }

  predicate NoDuplicates(lru: seq<Id>) { forall i, j :: 0 <= i < j < |lru| ==> lru[i] != lru[j] }

  lemma {:induction false} WithoutKey(lru: seq<Id>, key: Id, k: Id)
    requires NoDuplicates(lru)
    ensures k in Without(lru, key) <==> k in lru && k != key
    decreases |lru|
  {
    if lru != [] {
      assert lru == [lru[0]] + lru[1..];
      if lru[0] != key {
        WithoutKey(lru[1..], key, k);
      }
    }
  }

  lemma {:induction false} WithoutDuplicates(lru: seq<Id>, key: Id)
    requires NoDuplicates(lru)
    ensures NoDuplicates(Without(lru, key))
    decreases |lru|
  {
    if lru != [] && lru[0] != key {
      WithoutDuplicates(lru[1..], key);
      WithoutKey(lru[1..], key, lru[0]);
      assert lru[0] !in lru[1..];
    }
  }

  lemma WithoutContents(lru: seq<Id>, key: Id)
    requires NoDuplicates(lru)
    ensures NoDuplicates(Without(lru, key))
    ensures forall k :: k in Without(lru, key) <==> k in lru && k != key
  {
    hide Without;
    WithoutDuplicates(lru, key);
    forall k
      ensures k in Without(lru, key) <==> k in lru && k != key
    {
      WithoutKey(lru, key, k);
    }
  }

  /** The list holds exactly the cached keys, each once. */
  ghost predicate Agrees(c: Cache) { NoDuplicates(c.lru) && forall k :: k in c.lru <==> k in c.entries }

  /** Every cached entry was cached before, or is the one being inserted. */
  predicate Shrunk(c: Cache, c': Cache) {
    c'.generation == c.generation && forall k :: k in c'.entries ==> k in c.entries && c'.entries[k] == c.entries[k]
  }

  lemma RemoveAgrees(c: Cache, key: Id)
    requires Agrees(c)
    ensures Agrees(Remove(c, key)) && Shrunk(c, Remove(c, key))
    ensures key in c.entries ==> |Remove(c, key).entries| == |c.entries| - 1
  {
    WithoutContents(c.lru, key);
    var smaller := c.entries - {key};
    assert smaller.Keys == c.entries.Keys - {key};
    assert |smaller| == |smaller.Keys| && |c.entries| == |c.entries.Keys|;
  }

  lemma {:induction false} EvictAgrees(c: Cache, capacity: nat)
    requires Agrees(c)
    ensures Agrees(Evict(c, capacity)) && Shrunk(c, Evict(c, capacity))
    ensures |Evict(c, capacity).entries| <= capacity
    decreases |c.lru|
  {
    hide Remove;
    if |c.entries| > capacity {
      assert c.entries.Keys != {};
      var k :| k in c.entries;
      assert k in c.lru;
      var last := c.lru[|c.lru| - 1];
      WithoutShorter(c.lru, last);
      RemoveAgrees(c, last);
      RemovedList(c, last);
      EvictAgrees(Remove(c, last), capacity);
    }
  }

  lemma RemovedList(c: Cache, key: Id)
    ensures Remove(c, key).lru == Without(c.lru, key)
  {
  }

  lemma TouchAgrees(c: Cache, key: Id)
    requires Agrees(c) && key in c.entries
    ensures Agrees(Touch(c, key))
  {
    WithoutContents(c.lru, key);
  }

  /** Inserting keeps list and map in step and the cache within capacity; what
      is cached afterwards was cached before or is the new entry. */
  lemma InsertAgrees(c: Cache, key: Id, entry: Cached, capacity: nat)
    requires Agrees(c) && |c.entries| <= capacity
    ensures var c' := Insert(c, key, entry, capacity);
      && Agrees(c') && |c'.entries| <= capacity && c'.generation == c.generation
      && forall k :: k in c'.entries ==>
           if k == key then c'.entries[k] == entry else k in c.entries && c'.entries[k] == c.entries[k]
  {
    if key in c.entries {
      var updated := c.(entries := c.entries[key := entry]);
      assert updated.entries.Keys == c.entries.Keys;
      assert |updated.entries| == |c.entries|;
      TouchAgrees(updated, key);
    } else {
      EvictAgrees(c.(entries := c.entries[key := entry], lru := [key] + c.lru), capacity);
    }
  }

  // The first key the walk looks at.
  function PruneOne(c: Cache, key: Id, now: int): Cache {
    if key in c.entries && c.entries[key].expires <= now then Remove(c, key) else c
  }

  lemma {:induction false} PruneAgrees(c: Cache, keys: seq<Id>, now: int)
    requires Agrees(c)
    ensures Agrees(PruneKeys(c, keys, now)) && Shrunk(c, PruneKeys(c, keys, now))
    decreases |keys|
  {
    hide Remove, Agrees;
    if keys != [] {
      var last := keys[|keys| - 1];
      RemoveAgrees(c, last);
      PruneAgrees(PruneOne(c, last, now), keys[..|keys| - 1], now);
    }
  }

  /** After the walk nothing that has expired is cached under the keys walked. */
  lemma {:induction false} PruneDropsExpired(c: Cache, keys: seq<Id>, now: int, k: Id)
    requires Agrees(c) && k in keys
    ensures var c' := PruneKeys(c, keys, now); k in c'.entries ==> c'.entries[k].expires > now
    decreases |keys|
  {
    hide Remove, Agrees;
    var last, rest := keys[|keys| - 1], keys[..|keys| - 1];
    var c1 := PruneOne(c, last, now);
    RemoveAgrees(c, last);
    RemovedKey(c, last);
    PruneAgrees(c1, rest, now);
    if k != last {
      PruneDropsExpired(c1, rest, now, k);
    }
  }

  lemma RemovedKey(c: Cache, key: Id)
    ensures key !in Remove(c, key).entries
  {
  }

  lemma ShrunkSize(c: Cache, c': Cache)
    requires Shrunk(c, c')
    ensures |c'.entries| <= |c.entries|
  {
    SubsetSize(c'.entries.Keys, c.entries.Keys);
  }

  // --- Critical sections ------------------------------------------------------------------------

  datatype Found = Hit(value: Option<LimitSpec>) | Miss

  function Lookup(c: Cache, key: Id, now: int): (Cache, Found) {
    if key !in c.entries then (c, Miss)
    else if now < c.entries[key].expires then (Touch(c, key), Hit(c.entries[key].value))
    else (Remove(c, key), Miss)
  }

  function PublishGet(c: Cache, key: Id, value: Option<LimitSpec>, generation: nat, now: int, ttl: int, capacity: nat): Cache {
    if generation != c.generation then c
    else Insert(PruneExpired(c, now), key, Cached(value, now + ttl), capacity)
  }

  function PublishPut(c: Cache, key: Id, limit: LimitSpec, now: int, ttl: int, capacity: nat): Cache {
    var pruned := PruneExpired(c, now);
    Insert(pruned.(generation := pruned.generation + 1), key, Cached(Some(limit), now + ttl), capacity)
  }

  // --- Interleaved calls --------------------------------------------------------------------------

  /** Where a call is while it does not hold the lock. */
  datatype Pc =
    | Fetching(key: Id, generation: nat)                              // before the source read
    | Fetched(key: Id, generation: nat, value: Option<LimitSpec>)     // after the source read
    | Written(key: Id, limit: LimitSpec)                              // after the source write

  datatype Store = Store(cache: Cache, source: map<Id, LimitSpec>, calls: map<nat, Pc>)

  datatype Action =
    | BeginGet(key: Id)
    | ReadSource
    | FailSource
    | FinishGet
    | WriteSource(key: Id, limit: LimitSpec)
    | FinishPut

  datatype Event = Event(call: nat, now: int, action: Action)

  function Read(source: map<Id, LimitSpec>, key: Id): Option<LimitSpec> {
    if key in source then Some(source[key]) else None
  }

  function Step(s: Store, e: Event, ttl: int, capacity: nat): Store {
    var idle := e.call !in s.calls;
    match e.action
    case BeginGet(key) =>
      if !idle || key == 0 then s
      else
        var (c, r) := Lookup(s.cache, key, e.now);
        s.(cache := c, calls := if r.Hit? then s.calls else s.calls[e.call := Fetching(key, c.generation)])
    case ReadSource =>
      if idle || !s.calls[e.call].Fetching? then s
      else
        var Fetching(key, generation) := s.calls[e.call];
        s.(calls := s.calls[e.call := Fetched(key, generation, Read(s.source, key))])
    case FailSource => if idle || !s.calls[e.call].Fetching? then s else s.(calls := s.calls - {e.call})
    case FinishGet =>
      if idle || !s.calls[e.call].Fetched? then s
      else
        var Fetched(key, generation, value) := s.calls[e.call];
        s.(cache := PublishGet(s.cache, key, value, generation, e.now, ttl, capacity), calls := s.calls - {e.call})
    case WriteSource(key, limit) =>
      if !idle then s else s.(source := s.source[key := limit], calls := s.calls[e.call := Written(key, limit)])
    case FinishPut =>
      if idle || !s.calls[e.call].Written? then s
      else
        var Written(key, limit) := s.calls[e.call];
        s.(cache := PublishPut(s.cache, key, limit, e.now, ttl, capacity), calls := s.calls - {e.call})
  }

  function Run(s: Store, es: seq<Event>, ttl: int, capacity: nat): Store
    decreases |es|
  {
    if es == [] then s else Run(Step(s, es[0], ttl, capacity), es[1..], ttl, capacity)
  }

  // --- Coherence ------------------------------------------------------------------------------------

  /** A Put of the key is between its source write and its publication. */
  predicate Pending(s: Store, key: Id) { exists call :: call in s.calls && s.calls[call].Written? && s.calls[call].key == key }

  predicate OtherPending(s: Store, key: Id, call: nat) {
    exists c :: c in s.calls && c != call && s.calls[c].Written? && s.calls[c].key == key
  }

  /** The cache equals the source on every key no Put is about to publish. */
  predicate Coherent(s: Store) {
    forall k :: k in s.cache.entries && !Pending(s, k) ==> s.cache.entries[k].value == Read(s.source, k)
  }

  /** A Put that publishes last on its key publishes what the source holds. */
  predicate LastPublishesSource(s: Store, e: Event) {
    e.action.FinishPut? && e.call in s.calls && s.calls[e.call].Written? && !OtherPending(s, s.calls[e.call].key, e.call)
    ==> Read(s.source, s.calls[e.call].key) == Some(s.calls[e.call].limit)
  }

  predicate AlwaysCoherent(s: Store, es: seq<Event>, ttl: int, capacity: nat)
    decreases |es|
  {
    Coherent(s) && (es == [] || AlwaysCoherent(Step(s, es[0], ttl, capacity), es[1..], ttl, capacity))
  }

  predicate PublishInOrder(s: Store, es: seq<Event>, ttl: int, capacity: nat)
    decreases |es|
  {
    es == [] || (LastPublishesSource(s, es[0]) && PublishInOrder(Step(s, es[0], ttl, capacity), es[1..], ttl, capacity))
  }

  predicate ReadCurrent(s: Store, pc: Pc)
    requires pc.Fetched?
  {
    pc.generation == s.cache.generation && !Pending(s, pc.key) ==> pc.value == Read(s.source, pc.key)
  }

  /** A source read that may still be published is current. */
  predicate ReadsCurrent(s: Store) {
    forall call :: call in s.calls && s.calls[call].Fetched? ==> ReadCurrent(s, s.calls[call])
  }

  predicate NoneFromTheFuture(s: Store) {
    forall call :: call in s.calls && !s.calls[call].Written? ==> s.calls[call].generation <= s.cache.generation
  }

  /** What every run keeps, overlapping Puts or not. */
  ghost predicate Shape(s: Store, capacity: nat) {
    Agrees(s.cache) && |s.cache.entries| <= capacity && NoneFromTheFuture(s)
  }

  ghost predicate Inv(s: Store, capacity: nat) { Shape(s, capacity) && Coherent(s) && ReadsCurrent(s) }

  lemma LookupInv(c: Cache, key: Id, now: int)
    requires Agrees(c)
    ensures var (c', r) := Lookup(c, key, now); Agrees(c') && Shrunk(c, c')
  {
    if key in c.entries {
      TouchAgrees(c, key);
      RemoveAgrees(c, key);
    }
  }

  /** What a publication leaves in the cache. */
  predicate Published(c: Cache, c': Cache, key: Id, value: Option<LimitSpec>) {
    forall k :: k in c'.entries ==>
      if k == key then c'.entries[k].value == value else k in c.entries && c'.entries[k] == c.entries[k]
  }

  lemma PublishInv(c: Cache, key: Id, value: Option<LimitSpec>, now: int, ttl: int, capacity: nat)
    requires Agrees(c) && |c.entries| <= capacity
    ensures var c' := Insert(PruneExpired(c, now), key, Cached(value, now + ttl), capacity);
      Agrees(c') && |c'.entries| <= capacity && c'.generation == c.generation && Published(c, c', key, value)
  {
    hide Insert, PruneKeys;
    PruneAgrees(c, c.lru, now);
    ShrunkSize(c, PruneExpired(c, now));
    InsertAgrees(PruneExpired(c, now), key, Cached(value, now + ttl), capacity);
  }

  lemma PublishPutInv(c: Cache, key: Id, limit: LimitSpec, now: int, ttl: int, capacity: nat)
    requires Agrees(c) && |c.entries| <= capacity
    ensures var c' := PublishPut(c, key, limit, now, ttl, capacity);
      Agrees(c') && |c'.entries| <= capacity && c'.generation == c.generation + 1 && Published(c, c', key, Some(limit))
  {
    hide Insert, PruneKeys;
    PruneAgrees(c, c.lru, now);
    var pruned := PruneExpired(c, now);
    ShrunkSize(c, pruned);
    InsertAgrees(pruned.(generation := pruned.generation + 1), key, Cached(Some(limit), now + ttl), capacity);
  }

  lemma BeginGetStep(s: Store, e: Event, ttl: int, capacity: nat)
    requires Shape(s, capacity) && e.action.BeginGet?
    ensures Shape(Step(s, e, ttl, capacity), capacity)
    ensures Inv(s, capacity) ==> Inv(Step(s, e, ttl, capacity), capacity)
  {
    hide Lookup, Agrees, Pending;
    LookupInv(s.cache, e.action.key, e.now);
    ShrunkSize(s.cache, Lookup(s.cache, e.action.key, e.now).0);
    SamePending(s, Step(s, e, ttl, capacity));
  }

  lemma SourceStep(s: Store, e: Event, ttl: int, capacity: nat)
    requires Shape(s, capacity) && (e.action.ReadSource? || e.action.FailSource?)
    ensures Shape(Step(s, e, ttl, capacity), capacity)
    ensures Inv(s, capacity) ==> Inv(Step(s, e, ttl, capacity), capacity)
  {
    hide Agrees, Pending;
    SamePending(s, Step(s, e, ttl, capacity));
  }

  lemma SamePending(s: Store, s': Store)
    requires forall c :: c in s.calls && s.calls[c].Written? ==> c in s'.calls && s'.calls[c] == s.calls[c]
    requires forall c :: c in s'.calls && s'.calls[c].Written? ==> c in s.calls && s'.calls[c] == s.calls[c]
    ensures forall k :: Pending(s, k) <==> Pending(s', k)
  {
  }

  lemma FinishGetStep(s: Store, e: Event, ttl: int, capacity: nat)
    requires Shape(s, capacity) && e.action.FinishGet?
    ensures Shape(Step(s, e, ttl, capacity), capacity)
    ensures Inv(s, capacity) ==> Inv(Step(s, e, ttl, capacity), capacity)
  {
    hide Insert, PruneExpired, Agrees, Pending;
    if e.call in s.calls && s.calls[e.call].Fetched? {
      var Fetched(key, generation, value) := s.calls[e.call];
      PublishInv(s.cache, key, value, e.now, ttl, capacity);
    }
    SamePending(s, Step(s, e, ttl, capacity));
  }

  // A source write makes its key pending and changes no other key.
  lemma WritePending(s: Store, e: Event, ttl: int, capacity: nat, k: Id)
    requires e.action.WriteSource? && e.call !in s.calls
    ensures var s' := Step(s, e, ttl, capacity);
      && (Pending(s', k) <==> Pending(s, k) || k == e.action.key)
      && (k != e.action.key ==> Read(s'.source, k) == Read(s.source, k))
  {
    var s' := Step(s, e, ttl, capacity);
    assert s'.calls[e.call].Written?;
    if Pending(s, k) {
      var c :| c in s.calls && s.calls[c].Written? && s.calls[c].key == k;
      assert s'.calls[c] == s.calls[c];
    }
  }

  lemma WriteSourceStep(s: Store, e: Event, ttl: int, capacity: nat)
    requires Shape(s, capacity) && e.action.WriteSource?
    ensures Shape(Step(s, e, ttl, capacity), capacity)
    ensures Inv(s, capacity) ==> Inv(Step(s, e, ttl, capacity), capacity)
  {
    hide Agrees, Pending;
    if e.call !in s.calls {
      forall k
        ensures var s' := Step(s, e, ttl, capacity);
          (Pending(s', k) <==> Pending(s, k) || k == e.action.key) && (k != e.action.key ==> Read(s'.source, k) == Read(s.source, k))
      {
        WritePending(s, e, ttl, capacity, k);
      }
    }
  }

  // A publication leaves its key pending exactly if another Put of it is in flight.
  lemma FinishPending(s: Store, e: Event, ttl: int, capacity: nat, k: Id)
    requires e.action.FinishPut? && e.call in s.calls && s.calls[e.call].Written?
    ensures var s', key := Step(s, e, ttl, capacity), s.calls[e.call].key;
      Pending(s', k) <==> if k == key then OtherPending(s, key, e.call) else Pending(s, k)
  {
    var s' := Step(s, e, ttl, capacity);
    assert s'.calls == s.calls - {e.call};
    if Pending(s, k) && k != s.calls[e.call].key {
      var c :| c in s.calls && s.calls[c].Written? && s.calls[c].key == k;
      assert c in s'.calls;
    }
    if OtherPending(s, k, e.call) {
      var c :| c in s.calls && c != e.call && s.calls[c].Written? && s.calls[c].key == k;
      assert c in s'.calls;
    }
  }

  lemma FinishPutShape(s: Store, e: Event, ttl: int, capacity: nat)
    requires Shape(s, capacity) && e.action.FinishPut?
    ensures Shape(Step(s, e, ttl, capacity), capacity)
  {
    hide Insert, PruneExpired, Agrees, PublishPut;
    if e.call in s.calls && s.calls[e.call].Written? {
      PublishPutInv(s.cache, s.calls[e.call].key, s.calls[e.call].limit, e.now, ttl, capacity);
    }
  }

  lemma FinishPutStep(s: Store, e: Event, ttl: int, capacity: nat)
    requires Inv(s, capacity) && e.action.FinishPut? && LastPublishesSource(s, e)
    ensures Inv(Step(s, e, ttl, capacity), capacity)
  {
    hide Insert, PruneExpired, Agrees, PublishPut, Pending, OtherPending;
    FinishPutShape(s, e, ttl, capacity);
    if e.call in s.calls && s.calls[e.call].Written? {
      var Written(key, limit) := s.calls[e.call];
      PublishPutInv(s.cache, key, limit, e.now, ttl, capacity);
      forall k
        ensures Pending(Step(s, e, ttl, capacity), k) <==> if k == key then OtherPending(s, key, e.call) else Pending(s, k)
      {
        FinishPending(s, e, ttl, capacity, k);
      }
    }
  }

  lemma {:induction false} EvictKeepsFront(c: Cache, capacity: nat)
    requires Agrees(c) && capacity > 0 && c.lru != []
    ensures var c' := Evict(c, capacity);
      c'.lru != [] && c'.lru[0] == c.lru[0] && c.lru[0] in c'.entries && c'.entries[c.lru[0]] == c.entries[c.lru[0]]
    decreases |c.lru|
  {
    hide Agrees;
    FrontCached(c);
    if |c.entries| > capacity {
      var last := c.lru[|c.lru| - 1];
      AgreedSizes(c);
      WithoutShorter(c.lru, last);
      RemoveAgrees(c, last);
      WithoutLast(c);
      EvictKeepsFront(Remove(c, last), capacity);
    }
  }

  lemma FrontCached(c: Cache)
    requires Agrees(c) && c.lru != []
    ensures c.lru[0] in c.entries
  {
    assert c.lru[0] in c.lru;
  }

  function Members(lru: seq<Id>): set<Id> { set k | k in lru }

  lemma {:induction false} DistinctSize(lru: seq<Id>)
    requires NoDuplicates(lru)
    ensures |Members(lru)| == |lru|
    decreases |lru|
  {
    if lru != [] {
      var rest := lru[1..];
      DistinctSize(rest);
      assert lru[0] !in rest;
      assert Members(lru) == Members(rest) + {lru[0]};
    }
  }

  lemma AgreedSizes(c: Cache)
    requires Agrees(c)
    ensures |c.entries| == |c.lru|
  {
    DistinctSize(c.lru);
    assert Members(c.lru) == c.entries.Keys;
  }

  lemma WithoutLast(c: Cache)
    requires Agrees(c) && |c.lru| > 1
    ensures var last := c.lru[|c.lru| - 1];
      last != c.lru[0] && Without(c.lru, last) != [] && Without(c.lru, last)[0] == c.lru[0]
  {
  }

  /** With room for one entry, what was just inserted is cached. */
  lemma InsertedStays(c: Cache, key: Id, entry: Cached, capacity: nat)
    requires Agrees(c) && capacity > 0
    ensures var c' := Insert(c, key, entry, capacity); key in c'.entries && c'.entries[key] == entry
  {
    hide Evict;
    if key !in c.entries {
      var pushed := c.(entries := c.entries[key := entry], lru := [key] + c.lru);
      PushAgrees(c, key, entry);
      EvictKeepsFront(pushed, capacity);
    }
  }

  lemma PushAgrees(c: Cache, key: Id, entry: Cached)
    requires Agrees(c) && key !in c.entries
    ensures Agrees(c.(entries := c.entries[key := entry], lru := [key] + c.lru))
  {
    assert key !in c.lru;
  }

  /** A last publication that is not what the source holds leaves the cache incoherent. */
  lemma WrongPublicationShows(s: Store, e: Event, ttl: int, capacity: nat)
    requires Shape(s, capacity) && capacity > 0 && !LastPublishesSource(s, e)
    ensures !Coherent(Step(s, e, ttl, capacity))
  {
    hide Insert, PruneKeys, Agrees, Pending, OtherPending;
    var Written(key, limit) := s.calls[e.call];
    var pruned := PruneExpired(s.cache, e.now);
    PruneAgrees(s.cache, s.cache.lru, e.now);
    SameAgrees(pruned, pruned.generation + 1);
    InsertedStays(pruned.(generation := pruned.generation + 1), key, Cached(Some(limit), e.now + ttl), capacity);
    FinishPending(s, e, ttl, capacity, key);
  }

  lemma SameAgrees(c: Cache, generation: nat)
    ensures Agrees(c) ==> Agrees(c.(generation := generation))
  {
  }

  lemma StepKeeps(s: Store, e: Event, ttl: int, capacity: nat)
    requires Shape(s, capacity)
    ensures Shape(Step(s, e, ttl, capacity), capacity)
    ensures Inv(s, capacity) && LastPublishesSource(s, e) ==> Inv(Step(s, e, ttl, capacity), capacity)
  {
    hide Inv, Shape, Step, LastPublishesSource;
    match e.action
    case BeginGet(_) => BeginGetStep(s, e, ttl, capacity);
    case FinishGet => FinishGetStep(s, e, ttl, capacity);
    case WriteSource(_, _) => WriteSourceStep(s, e, ttl, capacity);
    case FinishPut =>
      FinishPutShape(s, e, ttl, capacity);
      if Inv(s, capacity) && LastPublishesSource(s, e) {
        FinishPutStep(s, e, ttl, capacity);
      }
    case _ => SourceStep(s, e, ttl, capacity);
  }

  /** Coherence, exactly: over every interleaving the cache equals the source
      on every key without a Put in flight, after every step, if and only if
      each Put that publishes last on its key publishes what the source holds. */
  lemma {:induction false} CoherentIffPublishedInOrder(s: Store, es: seq<Event>, ttl: int, capacity: nat)
    requires Inv(s, capacity) && capacity > 0
    ensures AlwaysCoherent(s, es, ttl, capacity) <==> PublishInOrder(s, es, ttl, capacity)
    decreases |es|
  {
    hide Shape, Step, LastPublishesSource, Coherent, ReadsCurrent;
    if es != [] {
      StepKeeps(s, es[0], ttl, capacity);
      if LastPublishesSource(s, es[0]) {
        CoherentIffPublishedInOrder(Step(s, es[0], ttl, capacity), es[1..], ttl, capacity);
      } else {
        WrongPublicationShows(s, es[0], ttl, capacity);
      }
    }
  }

  lemma EmptyInv(source: map<Id, LimitSpec>, capacity: nat)
    ensures Inv(Store(EMPTY_CACHE, source, map[]), capacity)
  {
  }

  /** The map and the list agree within capacity in every run, however Puts overlap. */
  lemma {:induction false} ListAndMapAgree(s: Store, es: seq<Event>, ttl: int, capacity: nat)
    requires Shape(s, capacity)
    ensures Agrees(Run(s, es, ttl, capacity).cache) && |Run(s, es, ttl, capacity).cache.entries| <= capacity
    decreases |es|
  {
    hide Step, Agrees;
    if es != [] {
      StepKeeps(s, es[0], ttl, capacity);
      ListAndMapAgree(Step(s, es[0], ttl, capacity), es[1..], ttl, capacity);
    }
  }

  // --- Puts that do not overlap on a key ----------------------------------------------------------------

  /** A Put writes the source only when no other Put of the same key is in flight. */
  predicate Alone(s: Store, e: Event) { e.action.WriteSource? && e.call !in s.calls ==> !Pending(s, e.action.key) }

  predicate NonOverlapping(s: Store, es: seq<Event>, ttl: int, capacity: nat)
    decreases |es|
  {
    es == [] || (Alone(s, es[0]) && NonOverlapping(Step(s, es[0], ttl, capacity), es[1..], ttl, capacity))
  }

  // A Put in flight has the last word on its key in the source.
  predicate PutsOwnTheirKeys(s: Store) {
    && (forall a, b :: a in s.calls && b in s.calls && s.calls[a].Written? && s.calls[b].Written? && s.calls[a].key == s.calls[b].key
          ==> a == b)
    && (forall a :: a in s.calls && s.calls[a].Written? ==> Read(s.source, s.calls[a].key) == Some(s.calls[a].limit))
  }

  lemma AloneKeepsOwnership(s: Store, e: Event, ttl: int, capacity: nat)
    requires PutsOwnTheirKeys(s) && Alone(s, e)
    ensures PutsOwnTheirKeys(Step(s, e, ttl, capacity)) && LastPublishesSource(s, e)
  {
    hide Lookup, PublishGet, PublishPut;
    if e.action.WriteSource? && e.call !in s.calls {
      assert forall c :: c in s.calls && s.calls[c].Written? ==> s.calls[c].key != e.action.key;
    }
  }

  lemma {:induction false} NonOverlappingPublishInOrder(s: Store, es: seq<Event>, ttl: int, capacity: nat)
    requires PutsOwnTheirKeys(s) && NonOverlapping(s, es, ttl, capacity)
    ensures PublishInOrder(s, es, ttl, capacity)
    decreases |es|
  {
    hide Step, Alone, PutsOwnTheirKeys, LastPublishesSource;
    if es != [] {
      AloneKeepsOwnership(s, es[0], ttl, capacity);
      NonOverlappingPublishInOrder(Step(s, es[0], ttl, capacity), es[1..], ttl, capacity);
    }
  }

  lemma {:induction false} RunInv(s: Store, es: seq<Event>, ttl: int, capacity: nat)
    requires Inv(s, capacity) && PublishInOrder(s, es, ttl, capacity)
    ensures Inv(Run(s, es, ttl, capacity), capacity)
    decreases |es|
  {
    hide Shape, Coherent, ReadsCurrent, Step, LastPublishesSource;
    if es != [] {
      StepKeeps(s, es[0], ttl, capacity);
      RunInv(Step(s, es[0], ttl, capacity), es[1..], ttl, capacity);
    }
  }

  /** What a caller can check: if Puts of the same key never overlap, then in
      every interleaving, despite stale Gets and Puts of other keys, every
      cached entry without a Put of its key in flight equals the source. */
  lemma CacheStaysCoherent(source: map<Id, LimitSpec>, es: seq<Event>, ttl: int, capacity: nat)
    requires NonOverlapping(Store(EMPTY_CACHE, source, map[]), es, ttl, capacity)
    ensures var s := Run(Store(EMPTY_CACHE, source, map[]), es, ttl, capacity);
      forall k :: k in s.cache.entries && !Pending(s, k) ==> s.cache.entries[k].value == Read(s.source, k)
  {
    hide Run, NonOverlapping, PublishInOrder, Pending;
    var s := Store(EMPTY_CACHE, source, map[]);
    EmptyInv(source, capacity);
    NonOverlappingPublishInOrder(s, es, ttl, capacity);
    RunInv(s, es, ttl, capacity);
  }

  /** The failing order: two Puts of one key that publish in the other order
      than they wrote leave the cache behind the source, with no Put in flight. */
  lemma OverlappingPutsGoStale(older: LimitSpec, newer: LimitSpec, key: Id, now: int, ttl: int, capacity: nat)
    requires older != newer && key != 0 && ttl > 0 && capacity > 0
    ensures var start := Store(EMPTY_CACHE, map[], map[]);
      var es := [Event(1, now, WriteSource(key, older)), Event(2, now, WriteSource(key, newer)),
                 Event(2, now, FinishPut), Event(1, now, FinishPut)];
      !PublishInOrder(start, es, ttl, capacity) && !AlwaysCoherent(start, es, ttl, capacity)
  {
    hide PublishPut;
    var start := Store(EMPTY_CACHE, map[], map[]);
    var es := [Event(1, now, WriteSource(key, older)), Event(2, now, WriteSource(key, newer)),
               Event(2, now, FinishPut), Event(1, now, FinishPut)];
    var s1 := Step(start, es[0], ttl, capacity);
    var s2 := Step(s1, es[1], ttl, capacity);
    var s3 := Step(s2, es[2], ttl, capacity);
    assert es[1..][1..][1..][0] == es[3];
    assert s3.calls == map[1 := Written(key, older)] && Read(s3.source, key) == Some(newer);
    assert !LastPublishesSource(s3, es[3]);
    assert !PublishInOrder(s3, es[3..], ttl, capacity);
    assert !PublishInOrder(s2, es[2..], ttl, capacity) by { assert es[2..][0] == es[2] && es[2..][1..] == es[3..]; }
    assert !PublishInOrder(s1, es[1..], ttl, capacity) by { assert es[1..][0] == es[1] && es[1..][1..] == es[2..]; }
    EmptyInv(map[], capacity);
    CoherentIffPublishedInOrder(start, es, ttl, capacity);
  }

  // --- The store as it runs ---------------------------------------------------------------------------

  class CachedQuotaLimitStore {
    var entries: map<Id, Cached>
    var lru: seq<Id>
    var generation: nat
    const ttl: int
    const capacity: nat

    function View(): Cache
      reads this
    {
      Cache(entries, lru, generation)
    }

    constructor (ttl: int, capacity: nat)
      ensures View() == EMPTY_CACHE && this.ttl == ttl && this.capacity == capacity
    {
      entries, lru, generation := map[], [], 0;
      this.ttl, this.capacity := ttl, capacity;
    }

    method Drop(key: Id)
      modifies this`entries, this`lru
      ensures View() == Remove(old(View()), key)
    {
      entries := entries - {key};
      lru := Without(lru, key);
    }

    method DropExpired(now: int)
      modifies this`entries, this`lru
      ensures View() == PruneExpired(old(View()), now)
    {
      var keys := lru;
      var i := |keys|;
      assert keys[..i] == keys;
      while i > 0
        invariant 0 <= i <= |keys|
        invariant PruneKeys(View(), keys[..i], now) == PruneExpired(old(View()), now)
      {
        var key := keys[i - 1];
        assert keys[..i][|keys[..i]| - 1] == key && keys[..i][..|keys[..i]| - 1] == keys[..i - 1];
        if key in entries && entries[key].expires <= now {
          Drop(key);
        }
        i := i - 1;
      }
    }

    method InsertEntry(key: Id, entry: Cached)
      modifies this`entries, this`lru
      ensures View() == Insert(old(View()), key, entry, capacity)
    {
      if key in entries {
        entries := entries[key := entry];
        lru := [key] + Without(lru, key);
        return;
      }
      entries, lru := entries[key := entry], [key] + lru;
      ghost var pushed := View();
      while |entries| > capacity && lru != []
        invariant Evict(View(), capacity) == Evict(pushed, capacity)
        decreases |lru|
      {
        WithoutShorter(lru, lru[|lru| - 1]);
        Drop(lru[|lru| - 1]);
      }
    }

    method LookupKey(key: Id, now: int) returns (r: Found)
      modifies this`entries, this`lru
      ensures (View(), r) == Lookup(old(View()), key, now)
    {
      if key in entries {
        var entry := entries[key];
        if now < entry.expires {
          lru := [key] + Without(lru, key);
          return Hit(entry.value);
        }
        Drop(key);
      }
      return Miss;
    }

    method FinishGet(key: Id, value: Option<LimitSpec>, seen: nat, now: int)
      modifies this`entries, this`lru
      ensures View() == PublishGet(old(View()), key, value, seen, now, ttl, capacity)
    {
      if seen == generation {
        DropExpired(now);
        InsertEntry(key, Cached(value, now + ttl));
      }
    }

    method FinishPut(key: Id, limit: LimitSpec, now: int)
      modifies this
      ensures View() == PublishPut(old(View()), key, limit, now, ttl, capacity)
    {
      DropExpired(now);
      generation := generation + 1;
      InsertEntry(key, Cached(Some(limit), now + ttl));
    }
  }
}
