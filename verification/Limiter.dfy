/** The local concurrency limiter (policy/attempt.go): limiters are found and
    published without a lock, retired when idle and replaced. Every atomic
    action (a map operation or a critical section of one limiter) is one step;
    steps of any number of threads interleave freely. */
module Limiter {
  import opened QuotaTypes

  type Key = string
  type Ref = nat
  type Tid = nat

  datatype Entry = Entry(key: Key, current: nat, lastSeen: int, retired: bool)

  datatype Acquired = Taken | Full | Retired

  // --- Critical sections of one limiter -----------------------------------------------------

  function Acquire(e: Entry, limit: int, now: int): (Entry, Acquired) {
    if e.retired then (e, Retired)
    else if e.current >= limit then (e.(lastSeen := now), Full)
    else (e.(lastSeen := now, current := e.current + 1), Taken)
  }

  function Release(e: Entry, now: int): Entry {
    e.(current := if e.current > 0 then e.current - 1 else e.current, lastSeen := now)
  }

  function RetireIfIdle(e: Entry, cutoff: int): (Entry, bool) {
    if e.current != 0 || e.lastSeen > cutoff then (e, false) else (e.(retired := true), true)
  }

  class LimiterCell {
    const key: Key
    var current: nat
    var limit: int
    var lastSeen: int
    var retired: bool

    function View(): Entry
      reads this
    {
      Entry(key, current, lastSeen, retired)
    }

    constructor (key: Key)
      ensures View() == Entry(key, 0, 0, false)
    {
      this.key, current, limit, lastSeen, retired := key, 0, 0, 0, false;
    }

    method AcquireSlot(cap: int, now: int) returns (acquired: bool, gone: bool)
      modifies this
      ensures var (e, r) := Acquire(old(View()), cap, now);
        View() == e && acquired == r.Taken? && gone == r.Retired?
    {
      if retired {
        return false, true;
      }
      limit := cap;
      lastSeen := now;
      if current >= limit {
        return false, false;
      }
      current := current + 1;
      return true, false;
    }

    method ReleaseSlot(now: int)
      modifies this
      ensures View() == Release(old(View()), now)
    {
      if current > 0 {
        current := current - 1;
      }
      lastSeen := now;
    }

    method Retire(cutoff: int) returns (done: bool)
      modifies this
      ensures (View(), done) == RetireIfIdle(old(View()), cutoff)
    {
      if current != 0 || lastSeen > cutoff {
        return false;
      }
      retired := true;
      return true;
    }
  }

  // --- All threads ------------------------------------------------------------------------------

  /** Where a thread is between two atomic actions. */
  datatype Pc =
    | Found(key: Key, ref: Ref)      // has loaded a limiter, not yet tried it
    | Holding(key: Key, ref: Ref)    // holds a slot
    | Visiting(key: Key, ref: Ref)   // the pruner has seen this map entry
    | Removing(key: Key, ref: Ref)   // knows the limiter is retired, about to compare-and-delete

  datatype World = World(entries: map<Ref, Entry>, published: map<Key, Ref>, threads: map<Tid, Pc>, next: Ref)

  datatype Action =
    | LoadOrStore(key: Key)
    | TryAcquire(now: int)
    | ReleaseIt(now: int)
    | Visit(key: Key)
    | TryRetire(cutoff: int)
    | CompareAndDelete

  datatype Event = Event(tid: Tid, action: Action)

  function Place(threads: map<Tid, Pc>, tid: Tid, pc: Option<Pc>): map<Tid, Pc> {
    if pc.Some? then threads[tid := pc.value] else threads - {tid}
  }

  function Move(w: World, tid: Tid, pc: Option<Pc>): World { w.(threads := Place(w.threads, tid, pc)) }

  // A critical section: the thread rewrites one limiter and moves on.
  function Act(w: World, ref: Ref, entry: Entry, tid: Tid, pc: Option<Pc>): World {
    w.(entries := w.entries[ref := entry], threads := Place(w.threads, tid, pc))
  }

  function Publish(w: World, key: Key): World {
    w.(entries := w.entries[w.next := Entry(key, 0, 0, false)], published := w.published[key := w.next], next := w.next + 1)
  }

  // Without a positive limit a call is let through at once, with no limiter.
  function LoadStep(w: World, tid: Tid, key: Key, limits: Key -> int): World {
    if tid in w.threads || limits(key) <= 0 then w
    else if key in w.published then Move(w, tid, Some(Found(key, w.published[key])))
    else
      Move(Publish(w, key), tid, Some(Found(key, w.next)))
  }

  function AcquireStep(w: World, tid: Tid, now: int, limits: Key -> int): World {
    if tid !in w.threads || !w.threads[tid].Found? || w.threads[tid].ref !in w.entries then w
    else
      var Found(key, ref) := w.threads[tid];
      var (entry, r) := Acquire(w.entries[ref], limits(key), now);
      Act(w, ref, entry, tid, match r
                              case Taken => Some(Holding(key, ref))
                              case Full => None
                              case Retired => Some(Removing(key, ref)))
  }

  function ReleaseStep(w: World, tid: Tid, now: int): World {
    if tid !in w.threads || !w.threads[tid].Holding? || w.threads[tid].ref !in w.entries then w
    else
      var ref := w.threads[tid].ref;
      Act(w, ref, Release(w.entries[ref], now), tid, None)
  }

  function VisitStep(w: World, tid: Tid, key: Key): World {
    if tid in w.threads || key !in w.published then w else Move(w, tid, Some(Visiting(key, w.published[key])))
  }

  function RetireStep(w: World, tid: Tid, cutoff: int): World {
    if tid !in w.threads || !w.threads[tid].Visiting? || w.threads[tid].ref !in w.entries then w
    else
      var Visiting(key, ref) := w.threads[tid];
      var (entry, done) := RetireIfIdle(w.entries[ref], cutoff);
      Act(w, ref, entry, tid, if done then Some(Removing(key, ref)) else None)
  }

  function DeleteStep(w: World, tid: Tid): World {
    if tid !in w.threads || !w.threads[tid].Removing? then w
    else
      var Removing(key, ref) := w.threads[tid];
      var w' := if key in w.published && w.published[key] == ref then w.(published := w.published - {key}) else w;
      Move(w', tid, None)
  }

  /** One atomic action; an action that does not fit the thread's position does
      not happen. `limits` gives every key its fixed limit. */
  function Step(w: World, e: Event, limits: Key -> int): World {
    match e.action
    case LoadOrStore(key) => LoadStep(w, e.tid, key, limits)
    case TryAcquire(now) => AcquireStep(w, e.tid, now, limits)
    case ReleaseIt(now) => ReleaseStep(w, e.tid, now)
    case Visit(key) => VisitStep(w, e.tid, key)
    case TryRetire(cutoff) => RetireStep(w, e.tid, cutoff)
    case CompareAndDelete => DeleteStep(w, e.tid)
  }

  function Run(w: World, es: seq<Event>, limits: Key -> int): World
    decreases |es|
  {
    if es == [] then w else Run(Step(w, es[0], limits), es[1..], limits)
  }

  const QUIET: World := World(map[], map[], map[], 0)

  // --- Invariant ----------------------------------------------------------------------------------

  function Holders(threads: map<Tid, Pc>, ref: Ref): set<Tid> {
    set t | t in threads && threads[t].Holding? && threads[t].ref == ref
  }

  function KeyHolders(w: World, key: Key): set<Tid> {
    set t | t in w.threads && w.threads[t].Holding? && w.threads[t].key == key
  }

  ghost predicate Named(w: World) {
    && (forall r :: r in w.entries ==> r < w.next)
    && (forall t :: t in w.threads ==> w.threads[t].ref in w.entries && w.entries[w.threads[t].ref].key == w.threads[t].key)
    && (forall k :: k in w.published ==> w.published[k] in w.entries && w.entries[w.published[k]].key == k)
  }

  /** A limiter that is not retired is the published one of its key. */
  ghost predicate LiveIsPublished(w: World)
    requires Named(w)
  {
    && (forall r :: r in w.entries && !w.entries[r].retired ==>
          w.entries[r].key in w.published && w.published[w.entries[r].key] == r)
    && (forall t :: t in w.threads && w.threads[t].Removing? ==> w.entries[w.threads[t].ref].retired)
  }

  ghost predicate Counted(w: World, limits: Key -> int)
    requires Named(w)
  {
    forall r :: r in w.entries ==>
      && w.entries[r].current == |Holders(w.threads, r)|
      && (w.entries[r].retired ==> w.entries[r].current == 0)
      && w.entries[r].current <= limits(w.entries[r].key) && limits(w.entries[r].key) > 0
  }

  ghost predicate Inv(w: World, limits: Key -> int) { Named(w) && LiveIsPublished(w) && Counted(w, limits) }

  lemma HoldersPlaced(threads: map<Tid, Pc>, tid: Tid, pc: Option<Pc>, r: Ref)
    ensures Holders(Place(threads, tid, pc), r)
         == if pc.Some? && pc.value.Holding? && pc.value.ref == r then Holders(threads, r) + {tid} else Holders(threads, r) - {tid}
    ensures tid in Holders(threads, r) <==> tid in threads && threads[tid].Holding? && threads[tid].ref == r
  {
  }

  // Whether the thread holds a slot of the limiter, before and after.
  function Slot(pc: Option<Pc>, r: Ref): nat { if pc.Some? && pc.value.Holding? && pc.value.ref == r then 1 else 0 }

  function PcOf(w: World, tid: Tid): Option<Pc> { if tid in w.threads then Some(w.threads[tid]) else None }

  lemma HolderCount(w: World, tid: Tid, pc: Option<Pc>, r: Ref)
    ensures |Holders(Place(w.threads, tid, pc), r)| == |Holders(w.threads, r)| + Slot(pc, r) - Slot(PcOf(w, tid), r)
  {
    hide Holders, Place;
    HoldersPlaced(w.threads, tid, pc, r);
    var held := Holders(w.threads, r);
    assert tid in held ==> |held - {tid}| == |held| - 1 && held + {tid} == held;
    assert tid !in held ==> held - {tid} == held && |held + {tid}| == |held| + 1;
  }

  predicate PcFits(w: World, pc: Option<Pc>) {
    pc.Some? ==>
      && pc.value.ref in w.entries && w.entries[pc.value.ref].key == pc.value.key
      && (pc.value.Removing? ==> w.entries[pc.value.ref].retired)
  }

  /** A thread may move anywhere that fits, as long as the slots it holds do not change. */
  lemma MoveInv(w: World, tid: Tid, pc: Option<Pc>, limits: Key -> int)
    requires Inv(w, limits) && PcFits(w, pc)
    requires forall r :: r in w.entries ==> Slot(pc, r) == Slot(PcOf(w, tid), r)
    ensures Inv(Move(w, tid, pc), limits)
  {
    hide Holders;
    forall r | r in w.entries
      ensures |Holders(Place(w.threads, tid, pc), r)| == |Holders(w.threads, r)|
    {
      HolderCount(w, tid, pc, r);
    }
  }

  lemma ActCounted(w: World, ref: Ref, entry: Entry, tid: Tid, pc: Option<Pc>, limits: Key -> int)
    requires Named(w) && Counted(w, limits) && ref in w.entries && entry.key == w.entries[ref].key
    requires entry.current == w.entries[ref].current + Slot(pc, ref) - Slot(PcOf(w, tid), ref) <= limits(entry.key)
    requires entry.retired ==> entry.current == 0
    requires forall r :: r in w.entries && r != ref ==> Slot(pc, r) == Slot(PcOf(w, tid), r)
    requires Named(Act(w, ref, entry, tid, pc))
    ensures Counted(Act(w, ref, entry, tid, pc), limits)
  {
    hide Holders, Named;
    forall r | r in w.entries
      ensures |Holders(Place(w.threads, tid, pc), r)| == |Holders(w.threads, r)| + Slot(pc, r) - Slot(PcOf(w, tid), r)
    {
      HolderCount(w, tid, pc, r);
    }
  }

  lemma ActNamed(w: World, ref: Ref, entry: Entry, tid: Tid, pc: Option<Pc>)
    requires Named(w) && LiveIsPublished(w) && ref in w.entries && entry.key == w.entries[ref].key
    requires w.entries[ref].retired ==> entry.retired
    requires pc.Some? ==> pc.value.ref == ref && pc.value.key == entry.key && (pc.value.Removing? ==> entry.retired)
    ensures Named(Act(w, ref, entry, tid, pc)) && LiveIsPublished(Act(w, ref, entry, tid, pc))
  {
  }

  lemma LoadInv(w: World, tid: Tid, key: Key, limits: Key -> int)
    requires Inv(w, limits)
    ensures Inv(LoadStep(w, tid, key, limits), limits)
  {
    if tid !in w.threads && limits(key) > 0 {
      if key in w.published {
        MoveInv(w, tid, Some(Found(key, w.published[key])), limits);
      } else {
        PublishInv(w, key, limits);
        MoveInv(Publish(w, key), tid, Some(Found(key, w.next)), limits);
      }
    }
  }

  lemma PublishInv(w: World, key: Key, limits: Key -> int)
    requires Inv(w, limits) && key !in w.published && limits(key) > 0
    ensures Inv(Publish(w, key), limits)
  {
    assert w.next !in w.entries;
    assert Holders(w.threads, w.next) == {};
  }

  lemma AcquireInv(w: World, tid: Tid, now: int, limits: Key -> int)
    requires Inv(w, limits)
    ensures Inv(AcquireStep(w, tid, now, limits), limits)
  {
    hide Holders, Act;
    if tid in w.threads && w.threads[tid].Found? && w.threads[tid].ref in w.entries {
      var Found(key, ref) := w.threads[tid];
      var (entry, r) := Acquire(w.entries[ref], limits(key), now);
      var pc := match r
                case Taken => Some(Holding(key, ref))
                case Full => None
                case Retired => Some(Removing(key, ref));
      ActNamed(w, ref, entry, tid, pc);
      ActCounted(w, ref, entry, tid, pc, limits);
    }
  }

  lemma ReleaseInv(w: World, tid: Tid, now: int, limits: Key -> int)
    requires Inv(w, limits)
    ensures Inv(ReleaseStep(w, tid, now), limits)
  {
    hide Act;
    if tid in w.threads && w.threads[tid].Holding? && w.threads[tid].ref in w.entries {
      var ref := w.threads[tid].ref;
      assert tid in Holders(w.threads, ref);
      var entry := Release(w.entries[ref], now);
      ActNamed(w, ref, entry, tid, None);
      ActCounted(w, ref, entry, tid, None, limits);
    }
  }

  lemma RetireInv(w: World, tid: Tid, cutoff: int, limits: Key -> int)
    requires Inv(w, limits)
    ensures Inv(RetireStep(w, tid, cutoff), limits)
  {
    hide Holders, Act;
    if tid in w.threads && w.threads[tid].Visiting? && w.threads[tid].ref in w.entries {
      var Visiting(key, ref) := w.threads[tid];
      var (entry, done) := RetireIfIdle(w.entries[ref], cutoff);
      var pc := if done then Some(Removing(key, ref)) else None;
      ActNamed(w, ref, entry, tid, pc);
      ActCounted(w, ref, entry, tid, pc, limits);
    }
  }

  lemma DeleteInv(w: World, tid: Tid, limits: Key -> int)
    requires Inv(w, limits)
    ensures Inv(DeleteStep(w, tid), limits)
  {
    hide Holders;
    if tid in w.threads && w.threads[tid].Removing? {
      var Removing(key, ref) := w.threads[tid];
      var w' := if key in w.published && w.published[key] == ref then w.(published := w.published - {key}) else w;
      assert Inv(w', limits);
      MoveInv(w', tid, None, limits);
    }
  }

  lemma StepInv(w: World, e: Event, limits: Key -> int)
    requires Inv(w, limits)
    ensures Inv(Step(w, e, limits), limits)
  {
    hide Inv, LoadStep, AcquireStep, ReleaseStep, RetireStep, DeleteStep;
    match e.action
    case LoadOrStore(key) => LoadInv(w, e.tid, key, limits);
    case TryAcquire(now) => AcquireInv(w, e.tid, now, limits);
    case ReleaseIt(now) => ReleaseInv(w, e.tid, now, limits);
    case Visit(key) => VisitInv(w, e.tid, key, limits);
    case TryRetire(cutoff) => RetireInv(w, e.tid, cutoff, limits);
    case CompareAndDelete => DeleteInv(w, e.tid, limits);
  }

  lemma VisitInv(w: World, tid: Tid, key: Key, limits: Key -> int)
    requires Inv(w, limits)
    ensures Inv(VisitStep(w, tid, key), limits)
  {
    hide Holders;
    if tid !in w.threads && key in w.published {
      MoveInv(w, tid, Some(Visiting(key, w.published[key])), limits);
    }
  }

  lemma {:induction false} RunInv(w: World, es: seq<Event>, limits: Key -> int)
    requires Inv(w, limits)
    ensures Inv(Run(w, es, limits), limits)
    decreases |es|
  {
    hide Inv, Step;
    if es != [] {
      StepInv(w, es[0], limits);
      RunInv(Step(w, es[0], limits), es[1..], limits);
    }
  }

  lemma QuietInv(limits: Key -> int)
    ensures Inv(QUIET, limits)
  {
  }

  // --- Results -----------------------------------------------------------------------------------

  /** In every reachable state a retired limiter has no holders, and a key has
      at most one limiter that is not retired: the published one. */
  lemma RetiredHasNoHolders(es: seq<Event>, limits: Key -> int, r: Ref)
    ensures var w := Run(QUIET, es, limits);
      r in w.entries ==>
        && (w.entries[r].retired ==> Holders(w.threads, r) == {})
        && (!w.entries[r].retired ==> w.entries[r].key in w.published && w.published[w.entries[r].key] == r)
  {
    QuietInv(limits);
    RunInv(QUIET, es, limits);
    var w := Run(QUIET, es, limits);
    if r in w.entries && w.entries[r].retired {
      assert |Holders(w.threads, r)| == 0;
    }
  }

  lemma HoldersShareOneLimiter(w: World, key: Key, limits: Key -> int)
    requires Inv(w, limits)
    ensures KeyHolders(w, key) == if key in w.published then Holders(w.threads, w.published[key]) else {}
  {
    forall t | t in KeyHolders(w, key)
      ensures key in w.published && w.threads[t].ref == w.published[key]
    {
      var r := w.threads[t].ref;
      assert t in Holders(w.threads, r);
      assert |Holders(w.threads, r)| > 0;
      assert !w.entries[r].retired;
    }
    forall t | key in w.published && t in Holders(w.threads, w.published[key])
      ensures t in KeyHolders(w, key)
    {
      assert w.entries[w.threads[t].ref].key == w.threads[t].key;
    }
  }

  /** Over every interleaving, the threads that hold a slot of a key never
      outnumber its limit, although limiters are retired and replaced; a key
      without a limit never gets a limiter. */
  lemma LimitHolds(es: seq<Event>, limits: Key -> int, key: Key)
    ensures limits(key) > 0 ==> |KeyHolders(Run(QUIET, es, limits), key)| <= limits(key)
    ensures limits(key) <= 0 ==> key !in Run(QUIET, es, limits).published && KeyHolders(Run(QUIET, es, limits), key) == {}
  {
    QuietInv(limits);
    RunInv(QUIET, es, limits);
    HoldersShareOneLimiter(Run(QUIET, es, limits), key, limits);
  }

  /** The limit is used in full: over every interleaving, a thread that tries a
      limiter in use gets a slot exactly if fewer threads than the limit hold one of
      its key, is turned away otherwise, and looks for another limiter exactly if
      this one is retired. */
  lemma AcquiresIffBelowLimit(es: seq<Event>, limits: Key -> int, tid: Tid, now: int)
    requires var w := Run(QUIET, es, limits); tid in w.threads && w.threads[tid].Found?
    ensures var w := Run(QUIET, es, limits);
      var w', key, ref := Step(w, Event(tid, TryAcquire(now)), limits), w.threads[tid].key, w.threads[tid].ref;
      && ref in w.entries
      && (tid in w'.threads && w'.threads[tid] == Holding(key, ref) <==> !w.entries[ref].retired && |KeyHolders(w, key)| < limits(key))
      && (tid in w'.threads && w'.threads[tid] == Removing(key, ref) <==> w.entries[ref].retired)
      && (tid !in w'.threads <==> !w.entries[ref].retired && |KeyHolders(w, key)| >= limits(key))
  {
    hide Run, Holders, KeyHolders;
    QuietInv(limits);
    RunInv(QUIET, es, limits);
    var w := Run(QUIET, es, limits);
    HoldersShareOneLimiter(w, w.threads[tid].key, limits);
  }

  // A try of a limiter in use and a release touch it.
  function Touch(w: World, e: Event, r: Ref, last: int): int {
    if e.tid !in w.threads || w.threads[e.tid].ref != r || r !in w.entries then last
    else if e.action.TryAcquire? && w.threads[e.tid].Found? && !w.entries[r].retired then e.action.now
    else if e.action.ReleaseIt? && w.threads[e.tid].Holding? then e.action.now
    else last
  }

  /** When the limiter was last tried or released. */
  function LastTouched(w: World, es: seq<Event>, limits: Key -> int, r: Ref, last: int): int
    decreases |es|
  {
    if es == [] then last else LastTouched(Step(w, es[0], limits), es[1..], limits, r, Touch(w, es[0], r, last))
  }

  lemma TouchedStep(w: World, e: Event, limits: Key -> int, r: Ref, last: int)
    requires Inv(w, limits) && (if r in w.entries then w.entries[r].lastSeen == last else last == 0)
    ensures var w' := Step(w, e, limits);
      if r in w'.entries then w'.entries[r].lastSeen == Touch(w, e, r, last) else Touch(w, e, r, last) == 0
  {
    hide Counted, Place;
  }

  lemma {:induction false} LastSeenIsLastTouch(w: World, es: seq<Event>, limits: Key -> int, r: Ref, last: int)
    requires Inv(w, limits) && (if r in w.entries then w.entries[r].lastSeen == last else last == 0)
    ensures var w' := Run(w, es, limits);
      r in w'.entries ==> w'.entries[r].lastSeen == LastTouched(w, es, limits, r, last)
    decreases |es|
  {
    hide Inv, Step, Touch;
    if es != [] {
      TouchedStep(w, es[0], limits, r, last);
      StepInv(w, es[0], limits);
      LastSeenIsLastTouch(Step(w, es[0], limits), es[1..], limits, r, Touch(w, es[0], r, last));
    }
  }

  /** A visit retires a limiter exactly if no thread holds a slot of it and it
      has not been tried or released after the cutoff. */
  lemma RetiresIffIdle(es: seq<Event>, limits: Key -> int, tid: Tid, cutoff: int)
    requires var w := Run(QUIET, es, limits); tid in w.threads && w.threads[tid].Visiting?
    ensures var w := Run(QUIET, es, limits);
      var w', r := Step(w, Event(tid, TryRetire(cutoff)), limits), w.threads[tid].ref;
      && r in w.entries && r in w'.entries
      && (tid in w'.threads <==> Holders(w.threads, r) == {} && LastTouched(QUIET, es, limits, r, 0) <= cutoff)
      && (tid in w'.threads ==> w'.entries[r].retired)
      && (tid !in w'.threads ==> w'.entries[r] == w.entries[r])
  {
    hide Run, Holders;
    QuietInv(limits);
    RunInv(QUIET, es, limits);
    var w := Run(QUIET, es, limits);
    LastSeenIsLastTouch(QUIET, es, limits, w.threads[tid].ref, 0);
    assert |Holders(w.threads, w.threads[tid].ref)| == w.entries[w.threads[tid].ref].current;
  }

  /** A release always finds a slot to give back: the guard against a negative
      count never fires. */
  lemma ReleaseNeverClamps(es: seq<Event>, limits: Key -> int, tid: Tid)
    ensures var w := Run(QUIET, es, limits);
      tid in w.threads && w.threads[tid].Holding? ==> w.threads[tid].ref in w.entries && w.entries[w.threads[tid].ref].current > 0
  {
    QuietInv(limits);
    RunInv(QUIET, es, limits);
    var w := Run(QUIET, es, limits);
    if tid in w.threads && w.threads[tid].Holding? {
      assert tid in Holders(w.threads, w.threads[tid].ref);
    }
  }

  predicate Outdated(w: World, r: Ref) {
    r in w.entries && w.entries[r].retired && (w.entries[r].key in w.published ==> w.published[w.entries[r].key] != r)
  }

  lemma OutdatedStays(w: World, e: Event, limits: Key -> int, r: Ref)
    requires Inv(w, limits) && Outdated(w, r)
    ensures Outdated(Step(w, e, limits), r)
  {
  }

  /** A retired limiter that has been unpublished is never found again, so a
      retry never meets the same retired limiter twice. */
  lemma {:induction false} NeverRevived(w: World, es: seq<Event>, limits: Key -> int, r: Ref)
    requires Inv(w, limits) && Outdated(w, r)
    ensures Outdated(Run(w, es, limits), r)
    decreases |es|
  {
    hide Inv, Outdated, Step;
    if es != [] {
      OutdatedStays(w, es[0], limits, r);
      StepInv(w, es[0], limits);
      NeverRevived(Step(w, es[0], limits), es[1..], limits, r);
    }
  }
}
