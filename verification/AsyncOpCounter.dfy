/** The counter of pending asynchronous operations (gh/detail/async_op_counter.hpp and .cpp): first as one object
    whose calls are atomic, then with its mutex and condition variable taken apart. */
module OpCounter {
  datatype Counter = Counter(pending: int, shutdown: bool) {
    /** A start is refused, and counts nothing, once the counter is shut down. */
    function Start(): Counter {
      if shutdown then this else this.(pending := pending + 1)
    }

    function Done(): Counter {
      this.(pending := pending - 1)
    }

    function Shut(): Counter {
      this.(shutdown := true)
    }

    predicate Drained() {
      shutdown && pending == 0
    }
  }

  function Sum(s: seq<nat>): nat {
    if s == [] then 0 else Sum(s[..|s| - 1]) + s[|s| - 1]
  }

  class AsyncOpCounter {
    var pending: int
    var shutdown: bool

    ghost function Value(): Counter
      reads this
    {
      Counter(pending, shutdown)
    }

    constructor ()
      ensures Value() == Counter(0, false)
    {
      pending, shutdown := 0, false;
    }

    method Shutdown()
      modifies this
      ensures Value() == old(Value()).Shut()
    {
      shutdown := true;
    }

    method InShutdown() returns (r: bool)
      ensures r == Value().shutdown
    {
      r := shutdown;
    }

    method AsyncOpStart() returns (accepted: bool)
      modifies this
      ensures accepted == !old(shutdown)
      ensures Value() == old(Value()).Start()
    {
      if shutdown {
        return false;
      }
      pending := pending + 1;
      return true;
    }

    method AsyncOpDone() returns (notify: bool)
      modifies this
      ensures Value() == old(Value()).Done()
      ensures notify <==> pending == 0
    {
      pending := pending - 1;
      return pending == 0;
    }

    /** Blocks until nothing is pending. `whileAsleep[i]` is how many operations other threads complete before the
        i-th wakeup, which may be spurious; the call returns exactly when they complete all that were pending. */
    method BlockUntilAllDone(whileAsleep: seq<nat>) returns (returned: bool)
      requires Sum(whileAsleep) <= pending
      modifies this
      ensures returned <==> Value().Drained()
      ensures returned <==> Sum(whileAsleep) == old(pending)
      ensures shutdown && pending == old(pending) - Sum(whileAsleep)
    {
      shutdown := true;
      var i := 0;
      assert whileAsleep[..|whileAsleep|] == whileAsleep;
      while pending != 0 && i < |whileAsleep|
        invariant 0 <= i <= |whileAsleep| && shutdown
        invariant pending == old(pending) - Sum(whileAsleep[..i])
        decreases |whileAsleep| - i
      {
        pending := pending - whileAsleep[i];
        i := i + 1;
        assert whileAsleep[..i][..i - 1] == whileAsleep[..i - 1];
      }
      SumOfPrefix(whileAsleep, i);
      returned := pending == 0;
    }
  }

  lemma {:induction false} SumOfPrefix(s: seq<nat>, i: nat)
    requires i <= |s|
    ensures Sum(s[..i]) <= Sum(s)
  {
    if i < |s| {
      SumOfPrefix(s[..|s| - 1], i);
      assert s[..|s| - 1][..i] == s[..i];
    } else {
      assert s[..i] == s;
    }
  }

  /** Counts an operation for as long as it lives. */
  class AsyncOpTracer {
    const counter: AsyncOpCounter
    const status: bool

    constructor (counter: AsyncOpCounter)
      modifies counter
      ensures this.counter == counter && status == !old(counter.shutdown)
      ensures counter.Value() == old(counter.Value()).Start()
    {
      var accepted := counter.AsyncOpStart();
      this.counter := counter;
      status := accepted;
    }

    /** The destructor does not look at whether the start was accepted. */
    method Destroy()
      modifies counter
      ensures counter.Value() == old(counter.Value()).Done()
    {
      var _ := counter.AsyncOpDone();
    }
  }

  /** So a tracer leaves the counter as it found it exactly when its start was accepted. */
  lemma TracerBalancesIff(c: Counter)
    ensures c.Start().Done() == c <==> !c.shutdown
  {
  }
}

/** The same counter with every lock, check, sleep, unlock and notify a step of its own: one waiter in
    `block_until_all_done` and any number of threads, each starting and finishing operations one at a time. */
module OpCounterThreads {
  datatype Worker =
    | Idle
    | LockedToStart      // holds the mutex in add_op
    | Running            // its operation was accepted and is not done
    | LockedToFinish     // holds the mutex in del_op, before the decrement
    | Zeroed             // still holds the mutex, its decrement reached zero
    | Notifying          // has released the mutex, has not notified yet

  datatype Waiter =
    | NotWaiting
    | Checking           // holds the mutex, about to test the predicate
    | FallingAsleep      // holds the mutex, the predicate was false
    | Sleeping           // has released the mutex and waits for a notification, in one step
    | Woken              // notified or woken for no reason, needs the mutex back
    | Returned

  datatype State = State(pending: int, shutdown: bool, locked: bool, workers: seq<Worker>, waiter: Waiter)

  datatype Action =
    | StartLock(i: nat) | StartBody(i: nat)
    | DoneLock(i: nat) | Decrement(i: nat) | Unlock(i: nat) | Notify(i: nat)
    | Shutdown | WaitLock | Check | Sleep | SpuriousWakeup | Relock

  predicate IsWorker(s: State, i: nat, pc: Worker) {
    i < |s.workers| && s.workers[i] == pc
  }

  predicate Enabled(s: State, a: Action) {
    match a
    case StartLock(i) => !s.locked && IsWorker(s, i, Idle)
    case StartBody(i) => IsWorker(s, i, LockedToStart)
    case DoneLock(i) => !s.locked && IsWorker(s, i, Running)
    case Decrement(i) => IsWorker(s, i, LockedToFinish)
    case Unlock(i) => IsWorker(s, i, Zeroed)
    case Notify(i) => IsWorker(s, i, Notifying)
    case Shutdown => !s.locked
    case WaitLock => !s.locked && s.waiter.NotWaiting?
    case Check => s.waiter.Checking?
    case Sleep => s.waiter.FallingAsleep?
    case SpuriousWakeup => s.waiter.Sleeping?
    case Relock => !s.locked && s.waiter.Woken?
  }

  function Step(s: State, a: Action): State
    requires Enabled(s, a)
  {
    match a
    case StartLock(i) => s.(locked := true, workers := s.workers[i := LockedToStart])
    case StartBody(i) =>
      if s.shutdown then s.(locked := false, workers := s.workers[i := Idle])
      else s.(pending := s.pending + 1, locked := false, workers := s.workers[i := Running])
    case DoneLock(i) => s.(locked := true, workers := s.workers[i := LockedToFinish])
    case Decrement(i) =>
      if s.pending - 1 == 0 then s.(pending := 0, workers := s.workers[i := Zeroed])
      else s.(pending := s.pending - 1, locked := false, workers := s.workers[i := Idle])
    case Unlock(i) => s.(locked := false, workers := s.workers[i := Notifying])
    case Notify(i) =>
      s.(workers := s.workers[i := Idle], waiter := if s.waiter.Sleeping? then Woken else s.waiter)
    case Shutdown => s.(shutdown := true)
    case WaitLock => s.(shutdown := true, locked := true, waiter := Checking)
    case Check =>
      if s.pending == 0 then s.(locked := false, waiter := Returned) else s.(waiter := FallingAsleep)
    case Sleep => s.(locked := false, waiter := Sleeping)
    case SpuriousWakeup => s.(waiter := Woken)
    case Relock => s.(locked := true, waiter := Checking)
  }

  /** How many workers have a program counter in the given set. */
  function Count(workers: seq<Worker>, pcs: set<Worker>): nat {
    if workers == [] then 0
    else Count(workers[..|workers| - 1], pcs) + if workers[|workers| - 1] in pcs then 1 else 0
  }

  const OPEN := {Running, LockedToFinish}
  const HOLDING := {LockedToStart, LockedToFinish, Zeroed}

  ghost predicate SomeoneWillNotify(s: State) {
    exists i :: 0 <= i < |s.workers| && (s.workers[i].Zeroed? || s.workers[i].Notifying?)
  }

  ghost predicate Inv(s: State) {
    && s.pending == Count(s.workers, OPEN)
    && Count(s.workers, HOLDING) + (if s.waiter.Checking? || s.waiter.FallingAsleep? then 1 else 0)
       == (if s.locked then 1 else 0)
    && (!s.waiter.NotWaiting? ==> s.shutdown)
    && (s.waiter.FallingAsleep? ==> s.pending != 0)
    && (s.waiter.Sleeping? && s.pending == 0 ==> SomeoneWillNotify(s))
    && (s.waiter.Returned? ==> s.pending == 0)
  }

  predicate Init(s: State) {
    s.pending == 0 && !s.shutdown && !s.locked && s.waiter.NotWaiting?
    && forall i :: 0 <= i < |s.workers| ==> s.workers[i].Idle?
  }

  ghost predicate IsRun(states: seq<State>, actions: seq<Action>) {
    && |states| == |actions| + 1
    && Init(states[0])
    && forall i :: 0 <= i < |actions| ==> Enabled(states[i], actions[i]) && states[i + 1] == Step(states[i], actions[i])
  }

  lemma {:induction false} CountUpdate(workers: seq<Worker>, i: nat, pc: Worker, pcs: set<Worker>)
    requires i < |workers|
    ensures Count(workers[i := pc], pcs) ==
            Count(workers, pcs) - (if workers[i] in pcs then 1 else 0) + (if pc in pcs then 1 else 0)
  {
    var init := workers[..|workers| - 1];
    if i < |init| {
      CountUpdate(init, i, pc, pcs);
      assert workers[i := pc][..|workers| - 1] == init[i := pc];
    } else {
      assert workers[i := pc][..|workers| - 1] == init;
    }
  }

  lemma {:induction false} CountIdle(workers: seq<Worker>, pcs: set<Worker>)
    requires Idle !in pcs && forall i :: 0 <= i < |workers| ==> workers[i].Idle?
    ensures Count(workers, pcs) == 0
  {
    if workers != [] {
      CountIdle(workers[..|workers| - 1], pcs);
    }
  }

  lemma {:induction false} CountOne(workers: seq<Worker>, i: nat, pcs: set<Worker>)
    requires i < |workers| && workers[i] in pcs
    ensures Count(workers, pcs) >= 1
  {
    if i < |workers| - 1 {
      CountOne(workers[..|workers| - 1], i, pcs);
    }
  }

  lemma WorkerStepKeepsInv(s: State, i: nat, a: Action)
    requires Inv(s) && Enabled(s, a)
    requires a in {StartLock(i), StartBody(i), DoneLock(i), Decrement(i), Unlock(i), Notify(i)}
    ensures Inv(Step(s, a))
  {
    var t := Step(s, a);
    var pc := t.workers[i];
    assert t.workers == s.workers[i := pc];
    CountUpdate(s.workers, i, pc, OPEN);
    CountUpdate(s.workers, i, pc, HOLDING);
    if s.workers[i] in OPEN {
      CountOne(s.workers, i, OPEN);
    }
    if s.workers[i] in HOLDING {
      CountOne(s.workers, i, HOLDING);
    }
    if t.waiter.Sleeping? && t.pending == 0 {
      if a.Decrement? || a.Unlock? {
        assert t.workers[i].Zeroed? || t.workers[i].Notifying?;
      } else if s.pending == 0 {
        var j :| 0 <= j < |s.workers| && (s.workers[j].Zeroed? || s.workers[j].Notifying?);
        assert t.workers[j] == s.workers[j];
      }
    }
  }

  lemma StepKeepsInv(s: State, a: Action)
    requires Inv(s) && Enabled(s, a)
    ensures Inv(Step(s, a))
  {
    match a
    case StartLock(i) => WorkerStepKeepsInv(s, i, a);
    case StartBody(i) => WorkerStepKeepsInv(s, i, a);
    case DoneLock(i) => WorkerStepKeepsInv(s, i, a);
    case Decrement(i) => WorkerStepKeepsInv(s, i, a);
    case Unlock(i) => WorkerStepKeepsInv(s, i, a);
    case Notify(i) => WorkerStepKeepsInv(s, i, a);
    case _ =>
  }

  lemma {:induction false} RunKeepsInv(states: seq<State>, actions: seq<Action>, k: nat)
    requires IsRun(states, actions) && k < |states|
    ensures Inv(states[k])
  {
    if k == 0 {
      CountIdle(states[0].workers, OPEN);
      CountIdle(states[0].workers, HOLDING);
    } else {
      RunKeepsInv(states, actions, k - 1);
      StepKeepsInv(states[k - 1], actions[k - 1]);
    }
  }

  /** No lost wakeup: whenever the waiter sleeps although nothing is pending, some worker is between its decrement and
      its notification, and letting that worker go on wakes the waiter. */
  lemma NoLostWakeup(states: seq<State>, actions: seq<Action>, k: nat) returns (i: nat)
    requires IsRun(states, actions) && k < |states|
    requires states[k].waiter.Sleeping? && states[k].pending == 0
    ensures i < |states[k].workers|
    ensures
      var s := states[k];
      || (Enabled(s, Notify(i)) && Step(s, Notify(i)).waiter.Woken?)
      || (Enabled(s, Unlock(i)) && Enabled(Step(s, Unlock(i)), Notify(i))
          && Step(Step(s, Unlock(i)), Notify(i)).waiter.Woken?)
  {
    RunKeepsInv(states, actions, k);
    i :| 0 <= i < |states[k].workers| && (states[k].workers[i].Zeroed? || states[k].workers[i].Notifying?);
  }

  /** Once the waiter has returned, nothing is pending, no thread has an operation open, and this stays so. */
  lemma {:induction false} ReturnedIsFinal(states: seq<State>, actions: seq<Action>, k: nat, later: nat)
    requires IsRun(states, actions) && k <= later < |states|
    requires states[k].waiter.Returned?
    ensures
      var s := states[later];
      s.waiter.Returned? && s.shutdown && s.pending == 0
      && forall i :: 0 <= i < |s.workers| ==> !s.workers[i].Running? && !s.workers[i].LockedToFinish?
    decreases later
  {
    RunKeepsInv(states, actions, later);
    if k < later {
      ReturnedIsFinal(states, actions, k, later - 1);
      assert Enabled(states[later - 1], actions[later - 1]);
    }
    var s := states[later];
    forall i | 0 <= i < |s.workers| ensures s.workers[i] !in OPEN {
      if s.workers[i] in OPEN {
        CountOne(s.workers, i, OPEN);
      }
    }
  }
}
