/** Refresh-health notification (store/limits.go): refreshes and hook changes
    bump a generation under a lock and then signal a channel of capacity one;
    one notifier goroutine calls the hook outside the lock and rechecks the
    generation. Every critical section, channel operation and hook call is one
    step, and the steps of any number of callers interleave with it. */
module HealthNotifier {
  import opened QuotaTypes

  type Hook = nat
  // What a refresh ended with; 0 is success.
  type Health = nat

  // What the notifier read under the lock.
  datatype Reading = Reading(hook: Hook, health: Health, generation: nat)

  datatype Pc =
    | Idle                        // waiting for the channel
    | Looking                     // about to read under the lock
    | Calling(reading: Reading)   // about to call the hook
    | Checking(reading: Reading)  // the hook has returned
    | Draining                    // the generation moved on: about to drain the channel

  datatype State = State(
    hook: Option<Hook>, health: Health, generation: nat,
    signalled: bool, signalling: set<nat>, notifier: Pc, lastCall: Option<Reading>)

  const START: State := State(None, 0, 0, false, {}, Idle, None)

  datatype Event =
    | Refreshed(caller: nat, health: Health)          // a refresh publishes its outcome
    | HookSet(caller: nat, hook: Option<Hook>)        // a hook is installed or removed
    | Signal(caller: nat)                             // the caller reaches its non-blocking send
    | Notify                                          // the notifier takes its next step

  function NotifierStep(s: State): State {
    match s.notifier
    case Idle => if s.signalled then s.(signalled := false, notifier := Looking) else s
    case Looking =>
      if s.hook.None? then s.(notifier := Idle)
      else s.(notifier := Calling(Reading(s.hook.value, s.health, s.generation)))
    case Calling(r) => s.(lastCall := Some(r), notifier := Checking(r))
    case Checking(r) => s.(notifier := if r.generation == s.generation then Idle else Draining)
    case Draining => s.(signalled := false, notifier := Looking)
  }

  function Step(s: State, e: Event): State {
    match e
    case Refreshed(c, health) =>
      if c in s.signalling then s
      else s.(health := health, generation := s.generation + 1, signalling := s.signalling + {c})
    case HookSet(c, hook) =>
      if c in s.signalling then s
      else s.(hook := hook, generation := s.generation + 1, signalling := s.signalling + {c})
    case Signal(c) => if c in s.signalling then s.(signalled := true, signalling := s.signalling - {c}) else s
    case Notify => NotifierStep(s)
  }

  function Run(s: State, es: seq<Event>): State
    decreases |es|
  {
    if es == [] then s else Run(Step(s, es[0]), es[1..])
  }

  /** The reading shows the installed hook and the latest health. */
  predicate Current(s: State, r: Reading) {
    s.hook == Some(r.hook) && s.health == r.health && s.generation == r.generation
  }

  // A reading with the current generation is current in every part.
  predicate Honest(s: State, r: Reading) {
    r.generation <= s.generation && (r.generation == s.generation ==> Current(s, r))
  }

  predicate Delivered(s: State) { s.hook.Some? ==> s.lastCall.Some? && Current(s, s.lastCall.value) }

  /** Whatever is not delivered yet is on its way: a caller is about to signal,
      the channel holds a signal, or the notifier will look again. */
  predicate NothingLost(s: State) {
    || Delivered(s) || s.signalling != {} || s.signalled
    || s.notifier.Looking? || s.notifier.Draining? || s.notifier.Calling?
    || (s.notifier.Checking? && s.notifier.reading.generation != s.generation)
  }

  predicate Inv(s: State) {
    && (s.lastCall.Some? ==> Honest(s, s.lastCall.value))
    && (s.notifier.Calling? || s.notifier.Checking? ==> Honest(s, s.notifier.reading))
    && (s.notifier.Checking? ==> s.lastCall == Some(s.notifier.reading))
    && NothingLost(s)
  }

  lemma StepInv(s: State, e: Event)
    requires Inv(s)
    ensures Inv(Step(s, e))
  {
  }

  lemma {:induction false} RunInv(s: State, es: seq<Event>)
    requires Inv(s)
    ensures Inv(Run(s, es))
    decreases |es|
  {
    hide Inv, Step;
    if es != [] {
      StepInv(s, es[0]);
      RunInv(Step(s, es[0]), es[1..]);
    }
  }

  predicate Quiet(s: State) { s.notifier.Idle? && !s.signalled && s.signalling == {} }

  /** In every interleaving: once everything is quiet, the last call of the
      installed hook showed it the current health. */
  lemma NoNotificationIsLost(es: seq<Event>)
    ensures var s := Run(START, es); Quiet(s) ==> Delivered(s)
  {
    RunInv(START, es);
  }

  function Work(s: State): nat {
    match s.notifier
    case Idle => if s.signalled then 5 else 0
    case Looking => 3
    case Calling(r) => 2 + if r.generation == s.generation then 0 else 4
    case Checking(r) => 1 + if r.generation == s.generation then 0 else 4
    case Draining => 4
  }

  // How far the notifier is from rest when nobody else acts.
  function Distance(s: State): nat { Work(s) + if s.signalled && !s.notifier.Idle? then 5 else 0 }

  /** Left alone after all callers have signalled, the notifier comes to rest
      and has delivered the current health by then. */
  lemma {:induction false} NotifierComesToRest(s: State) returns (es: seq<Event>)
    requires Inv(s) && s.signalling == {}
    ensures forall i :: 0 <= i < |es| ==> es[i] == Notify
    ensures Quiet(Run(s, es)) && Delivered(Run(s, es))
    decreases Distance(s)
  {
    if Quiet(s) {
      es := [];
    } else {
      StepInv(s, Notify);
      var rest := NotifierComesToRest(Step(s, Notify));
      es := [Notify] + rest;
      assert es[1..] == rest;
    }
  }
}
