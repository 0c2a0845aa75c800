/** The session that keeps a lease alive (gh/detail/session_impl.hpp): a cycle of a timer, a Write and a Read. */
module Sessions {
  import opened OpCounter
  import opened Waits

  const KEEP_ALIVES_PER_TTL := 5

  /** Times are in milliseconds. */
  datatype Session = Session(
    leaseId: int, desiredTtl: int, actualTtl: int, hasTimer: bool, ops: Counter, readOps: Counter)

  datatype Op = PostTimer(deadline: real) | PostWrite(leaseId: int) | PostRead

  /** The server gives time-to-live values in seconds. */
  datatype Grant = Granted(leaseId: int, ttl: int) | Rejected

  function NewSession(leaseId: int, desiredTtl: int): Session {
    Session(leaseId, desiredTtl, desiredTtl, false, Counter(0, false), Counter(0, false))
  }

  /** Integer division as C++ has it. */
  function Quotient(a: int, b: int): int
    requires b > 0
  {
    if a >= 0 then a / b else -(-a / b)
  }

  /** It rounds toward zero: the rest is smaller than the divisor and has the sign of the dividend. */
  lemma QuotientRoundsToZero(a: int, b: int)
    requires b > 0
    ensures
      var rest := a - Quotient(a, b) * b;
      -b < rest < b && (a >= 0 ==> rest >= 0) && (a <= 0 ==> rest <= 0)
  {
    if a < 0 {
      assert -a == (-a / b) * b + (-a) % b;
    }
  }

  function Interval(s: Session): real {
    Quotient(s.actualTtl, KEEP_ALIVES_PER_TTL) as real
  }

  /** The session has a timer, and accepts operations. */
  predicate IsActive(s: Session) {
    s.hasTimer && !s.ops.shutdown
  }

  function SetTimer(s: Session, now: real): (Session, seq<Op>) {
    if s.ops.shutdown then (s, [])
    else (s.(hasTimer := true, ops := s.ops.Start()), [PostTimer(now + Interval(s))])
  }

  /** What the constructor does with the server's answer. A rejected request shuts the session down and throws. */
  function OnGrant(s: Session, grant: Grant, now: real): (Session, seq<Op>) {
    match grant
    case Rejected => (s.(hasTimer := false, ops := s.ops.Shut(), readOps := s.readOps.Shut()), [])
    case Granted(id, ttl) => SetTimer(s.(leaseId := id, actualTtl := 1000 * ttl), now)
  }

  function OnTimeout(s: Session, ok: bool): (Session, seq<Op>) {
    var s := s.(ops := s.ops.Done());
    if !ok || s.ops.shutdown then (s, []) else (s.(ops := s.ops.Start()), [PostWrite(s.leaseId)])
  }

  function OnWrite(s: Session, ok: bool): (Session, seq<Op>) {
    var s := s.(ops := s.ops.Done());
    if !ok || s.readOps.shutdown then (s, []) else (s.(readOps := s.readOps.Start()), [PostRead])
  }

  function OnRead(s: Session, ok: bool, ttl: int, now: real): (Session, seq<Op>) {
    var s := s.(readOps := s.readOps.Done());
    if !ok then (s, []) else SetTimer(s.(actualTtl := 1000 * ttl), now)
  }

  /** What the completion queue reports. */
  datatype Completion =
    | TimerCompletes(ok: bool)
    | WriteCompletes(ok: bool)
    | ReadCompletes(ok: bool, ttl: int, now: real)

  function Handle(s: Session, done: Completion): (Session, seq<Op>) {
    match done
    case TimerCompletes(ok) => OnTimeout(s, ok)
    case WriteCompletes(ok) => OnWrite(s, ok)
    case ReadCompletes(ok, ttl, now) => OnRead(s, ok, ttl, now)
  }

  function Counted(s: Session, which: Which): Counter {
    if which.Ops? then s.ops else s.readOps
  }

  function PendingOn(which: Which): Session -> int {
    (s: Session) => Counted(s, which).pending
  }

  /** Shutting down waits for the read, then for the other operations. */
  function ShutDown(s: Session, first: seq<Completion>, second: seq<Completion>): (Session, seq<Op>, bool) {
    var (s, posted, over) := Await(s.(hasTimer := false, readOps := s.readOps.Shut()), PendingOn(Reads), Handle, first);
    if !over then (s, posted, false)
    else
      var (s, more, over) := Await(s.(ops := s.ops.Shut()), PendingOn(Ops), Handle, second);
      (s, posted + more, over)
  }

  /** With nothing pending neither wait takes any time. */
  lemma ShutDownAtOnce(s: Session)
    requires s.ops.pending == 0 && s.readOps.pending == 0
    ensures ShutDown(s, [], []) == (s.(hasTimer := false, ops := s.ops.Shut(), readOps := s.readOps.Shut()), [], true)
  {
    Neutral<Op>([]);
  }

  class KeepAliveSession {
    var leaseId: int
    var desiredTtl: int
    var actualTtl: int
    var hasTimer: bool
    const ops: AsyncOpCounter
    const readOps: AsyncOpCounter

    ghost predicate Valid() {
      ops != readOps
    }

    ghost function State(): Session
      reads this, ops, readOps
    {
      Session(leaseId, desiredTtl, actualTtl, hasTimer, ops.Value(), readOps.Value())
    }

    constructor (leaseId: int, desiredTtl: int)
      ensures Valid() && fresh(ops) && fresh(readOps) && State() == NewSession(leaseId, desiredTtl)
    {
      this.leaseId, this.desiredTtl, actualTtl, hasTimer := leaseId, desiredTtl, desiredTtl, false;
      ops := new AsyncOpCounter();
      readOps := new AsyncOpCounter();
    }

    method GetIsActive() returns (active: bool)
      ensures active == IsActive(State())
    {
      var over := ops.InShutdown();
      return hasTimer && !over;
    }

    /** The rest of the constructor, given the server's answer; `Rejected` makes it throw. */
    method Preamble(grant: Grant, now: real) returns (posted: seq<Op>, threw: bool)
      requires Valid() && ops.Value() == Counter(0, false) && readOps.Value() == Counter(0, false)
      modifies this`leaseId, this`actualTtl, this`hasTimer, ops, readOps
      ensures (State(), posted) == OnGrant(old(State()), grant, now)
      ensures threw <==> grant.Rejected?
    {
      posted, threw := RequestLease(grant, now);
      if threw {
        ShutDownAtOnce(State());
        var _, _ := Shutdown([], []);
      }
    }

    /** What can throw, with the two blocking calls counted while they last. */
    method RequestLease(grant: Grant, now: real) returns (posted: seq<Op>, threw: bool)
      requires Valid() && !ops.shutdown
      modifies this`leaseId, this`actualTtl, this`hasTimer, ops
      ensures threw <==> grant.Rejected?
      ensures if threw then State() == old(State()) && posted == []
              else (State(), posted) == OnGrant(old(State()), grant, now)
    {
      var stream := new AsyncOpTracer(ops);
      var lease := new AsyncOpTracer(ops);
      posted, threw := [], false;
      match grant {
        case Granted(id, ttl) =>
          leaseId := id;
          actualTtl := 1000 * ttl;
          posted := DoSetTimer(now);
        case Rejected =>
          threw := true;
      }
      lease.Destroy();
      stream.Destroy();
    }

    method DoSetTimer(now: real) returns (posted: seq<Op>)
      requires Valid()
      modifies this`hasTimer, ops
      ensures (State(), posted) == SetTimer(old(State()), now)
    {
      var deadline := now + Quotient(actualTtl, KEEP_ALIVES_PER_TTL) as real;
      var accepted := ops.AsyncOpStart();
      if !accepted {
        return [];
      }
      hasTimer := true;
      return [PostTimer(deadline)];
    }

    method HandleTimeout(ok: bool) returns (posted: seq<Op>)
      requires Valid()
      modifies ops
      ensures (State(), posted) == OnTimeout(old(State()), ok)
    {
      var _ := ops.AsyncOpDone();
      if !ok {
        return [];
      }
      var accepted := ops.AsyncOpStart();
      return if accepted then [PostWrite(leaseId)] else [];
    }

    method HandleWrite(ok: bool) returns (posted: seq<Op>)
      requires Valid()
      modifies ops, readOps
      ensures (State(), posted) == OnWrite(old(State()), ok)
    {
      var _ := ops.AsyncOpDone();
      if !ok {
        return [];
      }
      var accepted := readOps.AsyncOpStart();
      return if accepted then [PostRead] else [];
    }

    method HandleRead(ok: bool, ttl: int, now: real) returns (posted: seq<Op>)
      requires Valid()
      modifies this`actualTtl, this`hasTimer, ops, readOps
      ensures (State(), posted) == OnRead(old(State()), ok, ttl, now)
    {
      var _ := readOps.AsyncOpDone();
      if !ok {
        return [];
      }
      actualTtl := 1000 * ttl;
      posted := DoSetTimer(now);
    }

    method Callback(done: Completion) returns (posted: seq<Op>)
      requires Valid()
      modifies this`actualTtl, this`hasTimer, ops, readOps
      ensures (State(), posted) == Handle(old(State()), done)
    {
      match done {
        case TimerCompletes(ok) => posted := HandleTimeout(ok);
        case WriteCompletes(ok) => posted := HandleWrite(ok);
        case ReadCompletes(ok, ttl, now) => posted := HandleRead(ok, ttl, now);
      }
    }

    /** The wait of block_until_all_done; `dones` is what completes meanwhile. */
    method Wait(which: Which, dones: seq<Completion>) returns (posted: seq<Op>, over: bool)
      requires Valid()
      modifies this`actualTtl, this`hasTimer, ops, readOps
      ensures (State(), posted, over) == Await(old(State()), PendingOn(which), Handle, dones)
    {
      var i := 0;
      posted := [];
      UnderwayBegins(State(), PendingOn(which), Handle, dones);
      var counter := if which.Ops? then ops else readOps;
      while counter.pending != 0 && i < |dones|
        invariant 0 <= i <= |dones|
        invariant Underway(old(State()), State(), PendingOn(which), Handle, dones, i, posted)
        decreases |dones| - i
      {
        UnderwayGoesOn(old(State()), State(), PendingOn(which), Handle, dones, i, posted);
        var more := Callback(dones[i]);
        posted := posted + more;
        i := i + 1;
      }
      over := counter.pending == 0;
      UnderwayEnds(old(State()), State(), PendingOn(which), Handle, dones, i, posted);
    }

    /** Waits for the read, then for the other operations. The arguments are what completes during the two waits, where
        the callbacks hand work from one counter to the other. */
    method Shutdown(first: seq<Completion>, second: seq<Completion>) returns (posted: seq<Op>, returned: bool)
      requires Valid()
      modifies this`actualTtl, this`hasTimer, ops, readOps
      ensures old(ops.shutdown) ==> returned && posted == [] && State() == old(State())
      ensures !old(ops.shutdown) ==> (State(), posted, returned) == ShutDown(old(State()), first, second)
    {
      var over := ops.InShutdown();
      if over {
        return [], true;
      }
      hasTimer := false;
      readOps.Shutdown();
      posted, returned := Wait(Reads, first);
      if returned {
        ops.Shutdown();
        var more;
        more, returned := Wait(Ops, second);
        posted := posted + more;
      }
    }
  }

  /** When shutdown returns nothing is pending on either counter, although callbacks ran all the while: the first wait
      ends with no read, and with the counter of the reads shut down no callback starts another. Only a read that
      completes while shutdown waits can set a timer again. */
  lemma ShutDownDrains(s: Session, first: seq<Completion>, second: seq<Completion>)
    requires ShutDown(s, first, second).2 && forall i :: 0 <= i < |second| ==> !second[i].ReadCompletes?
    ensures ShutDown(s, first, second).0.ops.Drained() && ShutDown(s, first, second).0.readOps.Drained()
    ensures (forall i :: 0 <= i < |first| ==> !first[i].ReadCompletes?) ==> !ShutDown(s, first, second).0.hasTimer
  {
    var begun := s.(hasTimer := false, readOps := s.readOps.Shut());
    AwaitKeepsShut(begun, Reads, first);
    var between := Await(begun, PendingOn(Reads), Handle, first).0;
    AwaitKeepsShut(between.(ops := between.ops.Shut()), Ops, second);
  }

  lemma {:induction false} AwaitKeepsShut(s: Session, which: Which, dones: seq<Completion>)
    requires s.readOps.shutdown
    ensures
      var (s', _, over) := Await(s, PendingOn(which), Handle, dones);
      && s'.readOps.shutdown && (s.ops.shutdown ==> s'.ops.shutdown)
      && (over ==> Counted(s', which).pending == 0)
      && ((forall i :: 0 <= i < |dones| ==> !dones[i].ReadCompletes?) ==>
            s'.readOps.pending == s.readOps.pending && s'.hasTimer == s.hasTimer)
    decreases |dones|
  {
    if Counted(s, which).pending != 0 && dones != [] {
      AwaitKeepsShut(Handle(s, dones[0]).0, which, dones[1..]);
    }
  }
}

/** Every run of a session, with completions that succeed or fail at will, a revoke or shutdown at any point, and the
    callbacks taken apart: the thread that shuts the session down can step in between any two calls of the counters. */
module SessionRuns {
  import opened Etcd
  import opened Sessions
  import opened Waits

  /** Where the event loop's thread stands. */
  datatype Loop =
    | Resting
    | Called(done: Completion)    // a callback begins
    | Starting(op: Op)            // about to ask the counter whether the operation may start
    | Posting(op: Op)             // it may

  datatype Drain = NotDraining | Cancelling | WaitingForReads | ReadsDrained | WaitingForOps | Drained

  /** The server granted the lease `granted`; a session that is not started, or was rejected, has none. */
  datatype State = State(
    s: Session, started: bool, granted: Option<int>, outstanding: seq<Op>, loop: Loop, tracers: nat, drain: Drain)

  datatype Move =
    | Starts(grant: Grant, now: real)
    | Completes(i: nat, done: Completion)
    | LoopSteps
    | TracerStarts | TracerEnds
    | ShutdownBegins | ShutsReads | ReadsWaitEnds | ShutsOps | OpsWaitEnds

  function WhichOf(op: Op): Which {
    if op.PostRead? then Reads else Ops
  }

  predicate CompletionOf(op: Op, done: Completion) {
    match op
    case PostTimer(_) => done.TimerCompletes?
    case PostWrite(_) => done.WriteCompletes?
    case PostRead => done.ReadCompletes?
  }

  function Begin(s: Session, which: Which): Session {
    if which.Ops? then s.(ops := s.ops.Start()) else s.(readOps := s.readOps.Start())
  }

  /** The next step of the callback under way. */
  function LoopStep(s: Session, loop: Loop): (Session, Loop, seq<Op>)
    requires !loop.Resting?
  {
    match loop
    case Called(TimerCompletes(ok)) =>
      (s.(ops := s.ops.Done()), if ok then Starting(PostWrite(s.leaseId)) else Resting, [])
    case Called(WriteCompletes(ok)) =>
      (s.(ops := s.ops.Done()), if ok then Starting(PostRead) else Resting, [])
    case Called(ReadCompletes(ok, ttl, now)) =>
      var s := s.(readOps := s.readOps.Done());
      if !ok then (s, Resting, [])
      else
        var s := s.(actualTtl := 1000 * ttl);
        (s, Starting(PostTimer(now + Interval(s))), [])
    case Starting(op) =>
      if Counted(s, WhichOf(op)).shutdown then (s, Resting, []) else (Begin(s, WhichOf(op)), Posting(op), [])
    case Posting(op) =>
      (if op.PostTimer? then s.(hasTimer := true) else s, Resting, [op])
  }

  function StepsLeft(loop: Loop): nat {
    match loop
    case Resting => 0
    case Posting(_) => 1
    case Starting(_) => 2
    case Called(_) => 3
  }

  /** All the steps of a callback with nothing in between. */
  function Finish(s: Session, loop: Loop): (Session, seq<Op>)
    decreases StepsLeft(loop)
  {
    if loop.Resting? then (s, [])
    else
      var (s, loop, posted) := LoopStep(s, loop);
      var (s, more) := Finish(s, loop);
      (s, posted + more)
  }

  /** Without anything in between the steps are the callback. */
  lemma StepsMakeCallback(s: Session, done: Completion)
    ensures Finish(s, Called(done)) == Handle(s, done)
  {
    var (s1, loop1, _) := LoopStep(s, Called(done));
    Neutral(Finish(s1, loop1).1);
    if loop1.Starting? {
      var (s2, loop2, _) := LoopStep(s1, loop1);
      Neutral(Finish(s2, loop2).1);
      if loop2.Posting? {
        var (s3, loop3, posted) := LoopStep(s2, loop2);
        assert Finish(s3, loop3) == (s3, []);
        Neutral(posted);
        assert Finish(s2, loop2) == (s3, posted);
      } else {
        assert Finish(s2, loop2) == (s2, []);
      }
      assert Finish(s1, loop1) == Finish(s2, loop2);
    } else {
      assert Finish(s1, loop1) == (s1, []);
    }
    assert Finish(s, Called(done)) == Finish(s1, loop1);
  }

  predicate Possible(t: State, m: Move) {
    match m
    case Starts(_, _) => !t.started && t.tracers == 0 && t.drain.NotDraining?
    case Completes(i, done) => t.loop.Resting? && i < |t.outstanding| && CompletionOf(t.outstanding[i], done)
    case LoopSteps => !t.loop.Resting?
    case TracerStarts => !t.s.ops.shutdown
    case TracerEnds => t.tracers > 0
    case ShutdownBegins => t.drain.NotDraining? && !t.s.ops.shutdown
    case ShutsReads => t.drain.Cancelling?
    case ReadsWaitEnds => t.drain.WaitingForReads? && t.s.readOps.pending == 0
    case ShutsOps => t.drain.ReadsDrained?
    case OpsWaitEnds => t.drain.WaitingForOps? && t.s.ops.pending == 0
  }

  function After(t: State, m: Move): State
    requires Possible(t, m)
  {
    match m
    case Starts(grant, now) =>
      var (s, posted) := OnGrant(t.s, grant, now);
      t.(s := s, started := true, granted := if grant.Granted? then Some(grant.leaseId) else None,
         outstanding := t.outstanding + posted,
         drain := if grant.Rejected? then Drained else t.drain)
    case Completes(i, done) =>
      t.(outstanding := t.outstanding[..i] + t.outstanding[i + 1..], loop := Called(done))
    case LoopSteps =>
      var (s, loop, posted) := LoopStep(t.s, t.loop);
      t.(s := s, loop := loop, outstanding := t.outstanding + posted)
    case TracerStarts => t.(s := t.s.(ops := t.s.ops.Start()), tracers := t.tracers + 1)
    case TracerEnds => t.(s := t.s.(ops := t.s.ops.Done()), tracers := t.tracers - 1)
    case ShutdownBegins => t.(s := t.s.(hasTimer := false), drain := Cancelling)
    case ShutsReads => t.(s := t.s.(readOps := t.s.readOps.Shut()), drain := WaitingForReads)
    case ReadsWaitEnds => t.(drain := ReadsDrained)
    case ShutsOps => t.(s := t.s.(ops := t.s.ops.Shut()), drain := WaitingForOps)
    case OpsWaitEnds => t.(drain := Drained)
  }

  /** How many of the operations in flight a counter covers. */
  function CountOf(outstanding: seq<Op>, which: Which): (n: nat)
    ensures n <= |outstanding|
  {
    if outstanding == [] then 0
    else (if WhichOf(outstanding[0]) == which then 1 else 0) + CountOf(outstanding[1..], which)
  }

  /** How many operations a callback under way accounts for: the one that completed until it is counted down, the one
      it posts once it is counted. */
  function HeldBy(loop: Loop, which: Which): nat {
    match loop
    case Called(done) => if done.ReadCompletes? == which.Reads? then 1 else 0
    case Posting(op) => if WhichOf(op) == which then 1 else 0
    case _ => 0
  }

  predicate Inv(t: State) {
    && |t.outstanding| + (if t.loop.Resting? then 0 else 1) <= 1
    && (!t.started ==>
          t.outstanding == [] && t.loop.Resting? && t.s.readOps.pending == 0
          && (t.tracers == 0 ==> t.s.ops.pending == 0))
    && t.s.readOps.pending == CountOf(t.outstanding, Reads) + HeldBy(t.loop, Reads)
    && t.s.ops.pending == CountOf(t.outstanding, Ops) + HeldBy(t.loop, Ops) + t.tracers
    && (t.s.readOps.shutdown <==> !t.drain.NotDraining? && !t.drain.Cancelling?)
    && (t.s.ops.shutdown <==> t.drain.WaitingForOps? || t.drain.Drained?)
    && (t.drain.ReadsDrained? || t.s.ops.shutdown ==> t.s.readOps.pending == 0)
    && (t.drain.Drained? ==> t.s.ops.pending == 0)
  }

  ghost predicate IsRun(states: seq<State>, moves: seq<Move>) {
    && |states| == |moves| + 1
    && states[0] ==
         State(NewSession(states[0].s.leaseId, states[0].s.desiredTtl), false, None, [], Resting, 0, NotDraining)
    && forall i :: 0 <= i < |moves| ==> Possible(states[i], moves[i]) && states[i + 1] == After(states[i], moves[i])
  }

  lemma MoveKeepsInv(t: State, m: Move)
    requires Inv(t) && Possible(t, m)
    ensures Inv(After(t, m))
  {
    match m
    case LoopSteps => LoopStepKeepsInv(t);
    case Completes(_, _) =>
      assert t.outstanding == [t.outstanding[0]] && After(t, m).outstanding == [];
    case _ =>
  }

  lemma LoopStepKeepsInv(t: State)
    requires Inv(t) && Possible(t, LoopSteps)
    ensures Inv(After(t, LoopSteps))
  {
    var posted := LoopStep(t.s, t.loop).2;
    assert t.outstanding == [] && After(t, LoopSteps).outstanding == posted;
    if posted != [] {
      assert posted == [posted[0]] && posted[1..] == [];
    }
  }

  /** At most one of the timer, the Write and the Read is in flight or with a callback, and the counters count it and
      the blocking calls, at every step in between. */
  lemma {:induction false} OneOperationPending(states: seq<State>, moves: seq<Move>, k: nat)
    requires IsRun(states, moves) && k < |states|
    ensures Inv(states[k])
    ensures
      var t := states[k];
      && |t.outstanding| + (if t.loop.Resting? then 0 else 1) <= 1
      && t.s.ops.pending + t.s.readOps.pending
         == |t.outstanding| + HeldBy(t.loop, Ops) + HeldBy(t.loop, Reads) + t.tracers
  {
    if k > 0 {
      OneOperationPending(states, moves, k - 1);
      MoveKeepsInv(states[k - 1], moves[k - 1]);
    }
  }

  // ---- the lease that is kept alive ------------------------------------------------------------------------------

  /** Every keep-alive request in flight, or about to be posted, names the lease the server granted. */
  predicate NamesLease(t: State) {
    && (t.granted.None? ==> t.outstanding == [] && t.loop.Resting?)
    && (t.granted.Some? ==>
          && t.started && t.s.leaseId == t.granted.value
          && (forall op :: op in t.outstanding ==> op.PostWrite? ==> op.leaseId == t.granted.value)
          && ((t.loop.Starting? || t.loop.Posting?) && t.loop.op.PostWrite? ==> t.loop.op.leaseId == t.granted.value))
  }

  lemma MoveNamesLease(t: State, m: Move)
    requires Inv(t) && NamesLease(t) && Possible(t, m)
    ensures NamesLease(After(t, m)) && (t.granted.Some? ==> After(t, m).granted == t.granted)
  {
  }

  lemma {:induction false} RunNamesLease(states: seq<State>, moves: seq<Move>, k: nat)
    requires IsRun(states, moves) && k < |states|
    ensures NamesLease(states[k])
  {
    if k > 0 {
      RunNamesLease(states, moves, k - 1);
      OneOperationPending(states, moves, k - 1);
      MoveNamesLease(states[k - 1], moves[k - 1]);
    }
  }

  /** From the moment the server grants a lease on the session has it, and so has every keep-alive request of the run,
      whichever lease was asked for. */
  lemma KeepsGrantedLease(states: seq<State>, moves: seq<Move>, j: nat, k: nat)
    requires IsRun(states, moves) && j < k < |states| && moves[j].Starts? && moves[j].grant.Granted?
    ensures
      var t, id := states[k], moves[j].grant.leaseId;
      && t.s.leaseId == id && (forall op :: op in t.outstanding && op.PostWrite? ==> op.leaseId == id)
      && ((t.loop.Starting? || t.loop.Posting?) && t.loop.op.PostWrite? ==> t.loop.op.leaseId == id)
  {
    StillGranted(states, moves, j, k);
    RunNamesLease(states, moves, k);
  }

  lemma {:induction false} StillGranted(states: seq<State>, moves: seq<Move>, j: nat, k: nat)
    requires IsRun(states, moves) && j < k < |states| && moves[j].Starts? && moves[j].grant.Granted?
    ensures states[k].granted == Some(moves[j].grant.leaseId)
    decreases k
  {
    if j + 1 < k {
      StillGranted(states, moves, j, k - 1);
      RunNamesLease(states, moves, k - 1);
      OneOperationPending(states, moves, k - 1);
      MoveNamesLease(states[k - 1], moves[k - 1]);
    }
  }

  /** Until it is shut down, a session is active exactly if it was granted a lease; after that it is not. */
  lemma {:induction false} ActiveIff(states: seq<State>, moves: seq<Move>, k: nat)
    requires IsRun(states, moves) && k < |states|
    ensures states[k].drain.NotDraining? ==> (IsActive(states[k].s) <==> states[k].granted.Some?)
    ensures states[k].drain.Drained? ==> !IsActive(states[k].s)
  {
    OneOperationPending(states, moves, k);
    if k > 0 {
      ActiveIff(states, moves, k - 1);
      OneOperationPending(states, moves, k - 1);
      RunNamesLease(states, moves, k - 1);
    }
  }

  // ---- the cycle stops -------------------------------------------------------------------------------------------

  function Cost(op: Op): nat {
    match op
    case PostRead => 3
    case PostTimer(_) => 2
    case PostWrite(_) => 1
  }

  /** How many completions are still to come once no new read is accepted. */
  function Remaining(t: State): nat {
    match t.loop
    case Resting => if t.outstanding == [] then 0 else Cost(t.outstanding[0])
    case Called(ReadCompletes(_, _, _)) => 2
    case Called(TimerCompletes(_)) => 1
    case Called(WriteCompletes(_)) => 0
    case Starting(op) => if op.PostRead? then 0 else Cost(op)
    case Posting(op) => Cost(op)
  }

  function CountCompletions(moves: seq<Move>): nat {
    if moves == [] then 0
    else CountCompletions(moves[..|moves| - 1]) + if moves[|moves| - 1].Completes? then 1 else 0
  }

  lemma CompletionReduces(t: State, m: Move)
    requires Inv(t) && Possible(t, m) && t.s.readOps.shutdown
    ensures After(t, m).s.readOps.shutdown
    ensures Remaining(After(t, m)) + (if m.Completes? then 1 else 0) <= Remaining(t)
  {
    if m.Completes? {
      assert t.outstanding == [t.outstanding[0]] && After(t, m).outstanding == [];
    }
  }

  /** Once the reads are shut down, at most three completions arrive before the cycle stops. */
  lemma {:induction false} CycleStops(states: seq<State>, moves: seq<Move>, i: nat, k: nat)
    requires IsRun(states, moves) && i <= k < |states|
    requires states[i].s.readOps.shutdown
    ensures states[k].s.readOps.shutdown
    ensures CountCompletions(moves[i..k]) + Remaining(states[k]) <= Remaining(states[i]) <= 3
    decreases k
  {
    if i < k {
      CycleStops(states, moves, i, k - 1);
      OneOperationPending(states, moves, k - 1);
      CompletionReduces(states[k - 1], moves[k - 1]);
      assert moves[i..k][..k - i - 1] == moves[i..k - 1];
    }
  }

  // ---- draining --------------------------------------------------------------------------------------------------

  /** When shutdown has returned, wherever it stepped in between two steps of a callback, nothing that calls back into
      the session is in flight, then and ever after. The callback that ran last may still stand before a start, which
      is refused. */
  lemma {:induction false} DrainedIsFinal(states: seq<State>, moves: seq<Move>, i: nat, k: nat)
    requires IsRun(states, moves) && i <= k < |states| && states[i].drain.Drained?
    ensures
      var t := states[k];
      && t.drain.Drained? && t.outstanding == [] && t.tracers == 0 && t.s.ops.Drained() && t.s.readOps.Drained()
      && (t.loop.Starting? ==> LoopStep(t.s, t.loop) == (t.s, Resting, []))
      && (t.loop.Resting? || t.loop.Starting?)
    decreases k
  {
    OneOperationPending(states, moves, k);
    if i < k {
      DrainedIsFinal(states, moves, i, k - 1);
    }
  }
}

/** The same cycle in time, against a server that grants and renews the lease. */
module KeepAliveTiming {
  import opened Sessions

  /** The keep-alive request of this cycle; the answer carries the time-to-live, which is zero if the server knows no
      such lease. */
  datatype Request = NoRequest | OnItsWay(leaseId: int) | Answered(newTtl: int)

  datatype State = State(
    s: Session,
    outstanding: seq<Op>,
    request: Request,
    now: real,
    lease: int,              // the lease the server granted,
    grantedAt: real,         // when it last granted or renewed it,
    ttl: int,                // and for how many seconds
    response: real,          // how long after that the timer of this cycle was set,
    lateness: real,          // how long after its deadline the timer fired,
    firedAt: real,           // and when that was
    expired: bool)           // some keep-alive reached the server after the lease had expired

  datatype Move =
    | Fires(at: real)
    | Reaches(at: real, newTtl: int)
    | WriteDone(at: real)
    | ReadDone(at: real)

  function Ttl(t: State): real {
    (1000 * t.ttl) as real
  }

  function ExpiresAt(t: State): real {
    t.grantedAt + Ttl(t)
  }

  predicate Possible(t: State, m: Move) {
    && t.now <= m.at
    && match m
       case Fires(at) => t.outstanding != [] && t.outstanding[0].PostTimer? && t.outstanding[0].deadline <= at
       case Reaches(_, newTtl) => t.request.OnItsWay? && newTtl >= 1
       case WriteDone(_) => t.outstanding != [] && t.outstanding[0].PostWrite?
       case ReadDone(_) => t.outstanding != [] && t.outstanding[0].PostRead? && t.request.Answered?
  }

  function After(t: State, m: Move): State
    requires Possible(t, m)
  {
    match m
    case Fires(at) =>
      var (s, posted) := OnTimeout(t.s, true);
      t.(s := s, outstanding := t.outstanding[1..] + posted, now := at,
         lateness := at - t.outstanding[0].deadline, firedAt := at,
         request := if posted != [] && posted[0].PostWrite? then OnItsWay(posted[0].leaseId) else NoRequest)
    case Reaches(at, newTtl) =>
      var t := t.(now := at, expired := t.expired || at > ExpiresAt(t));
      if t.request.leaseId == t.lease then t.(grantedAt := at, ttl := newTtl, request := Answered(newTtl))
      else t.(request := Answered(0))
    case WriteDone(at) =>
      var (s, posted) := OnWrite(t.s, true);
      t.(s := s, outstanding := t.outstanding[1..] + posted, now := at)
    case ReadDone(at) =>
      var (s, posted) := OnRead(t.s, true, t.request.newTtl, at);
      t.(s := s, outstanding := t.outstanding[1..] + posted, now := at, request := NoRequest,
         response := at - t.grantedAt)
  }

  /** The session is new and has just received the server's answer. */
  predicate IsGranted(t: State, requested: int, desiredTtl: int) {
    (t.s, t.outstanding) == OnGrant(NewSession(requested, desiredTtl), Granted(t.lease, t.ttl), t.now)
  }

  ghost predicate Init(t: State) {
    && t.ttl >= 1 && t.grantedAt <= t.now && t.response == t.now - t.grantedAt
    && !t.expired && t.request.NoRequest?
    && exists requested, desiredTtl :: IsGranted(t, requested, desiredTtl)
  }

  ghost predicate IsRun(states: seq<State>, moves: seq<Move>) {
    && |states| == |moves| + 1
    && Init(states[0])
    && forall i :: 0 <= i < |moves| ==> Possible(states[i], moves[i]) && states[i + 1] == After(states[i], moves[i])
  }

  /** The timer's deadline is a fifth of the time-to-live after it was set, and it was set when the answer to the last
      grant arrived. A Write or a Read in flight belongs to a request on its way or answered, and the request names the
      lease that was granted. */
  predicate Inv(t: State) {
    && t.ttl >= 1 && |t.outstanding| <= 1 && !t.s.ops.shutdown && !t.s.readOps.shutdown
    && t.s.leaseId == t.lease && (t.request.OnItsWay? ==> t.request.leaseId == t.lease)
    && (t.request.Answered? ==> t.request.newTtl == t.ttl)
    && (t.outstanding != [] ==>
          && (t.outstanding[0].PostTimer? ==>
                t.request.NoRequest? && t.outstanding[0].deadline == t.grantedAt + t.response + Ttl(t) / 5.0)
          && (!t.outstanding[0].PostTimer? ==> !t.request.NoRequest?))
    && (t.request.OnItsWay? ==> t.firedAt == t.grantedAt + t.response + Ttl(t) / 5.0 + t.lateness)
  }

  /** A time-to-live in whole seconds divides evenly into the intervals. */
  lemma IntervalIsExact(s: Session, ttl: int)
    requires ttl >= 1 && s.actualTtl == 1000 * ttl
    ensures Interval(s) * (KEEP_ALIVES_PER_TTL as real) == s.actualTtl as real
  {
    assert 1000 * ttl / 5 == 200 * ttl;
  }

  lemma MoveKeepsInv(t: State, m: Move)
    requires Inv(t) && Possible(t, m)
    ensures Inv(After(t, m))
  {
    if m.ReadDone? {
      IntervalIsExact(t.s.(actualTtl := 1000 * t.ttl), t.ttl);
    }
  }

  lemma InitIsInv(t: State)
    requires Init(t)
    ensures Inv(t)
  {
    var requested, desiredTtl :| IsGranted(t, requested, desiredTtl);
    IntervalIsExact(NewSession(requested, desiredTtl).(leaseId := t.lease, actualTtl := 1000 * t.ttl), t.ttl);
  }

  lemma {:induction false} RunKeepsInv(states: seq<State>, moves: seq<Move>, k: nat)
    requires IsRun(states, moves) && k < |states|
    ensures Inv(states[k])
  {
    if k == 0 {
      InitIsInv(states[0]);
    } else {
      RunKeepsInv(states, moves, k - 1);
      MoveKeepsInv(states[k - 1], moves[k - 1]);
    }
  }

  /** A keep-alive reaches the server too late exactly when the answer to the last grant, the timer and the request
      together took more than four fifths of the time-to-live that was granted. */
  lemma LateIff(states: seq<State>, moves: seq<Move>, k: nat, at: real)
    requires IsRun(states, moves) && k < |states| && states[k].request.OnItsWay?
    ensures
      var t := states[k];
      at > ExpiresAt(t) <==> t.response + t.lateness + (at - t.firedAt) > Ttl(t) * 4.0 / 5.0
  {
    RunKeepsInv(states, moves, k);
  }

  /** What a deployment can bound: how long answers take to come back, how late timers fire, and how long requests take
      to reach the server. */
  datatype Bounds = Bounds(response: real, lateness: real, request: real)

  function Total(b: Bounds): real {
    b.response + b.lateness + b.request
  }

  predicate Within(t: State, m: Move, b: Bounds)
    requires Possible(t, m)
  {
    match m
    case Fires(at) => at - t.outstanding[0].deadline <= b.lateness
    case Reaches(at, _) => at - t.firedAt <= b.request
    case ReadDone(at) => at - t.grantedAt <= b.response
    case WriteDone(_) => true
  }

  ghost predicate KeepsBounds(states: seq<State>, moves: seq<Move>, b: Bounds)
    requires IsRun(states, moves)
  {
    states[0].response <= b.response && forall i :: 0 <= i < |moves| ==> Within(states[i], moves[i], b)
  }

  lemma {:induction false} PartsAreBounded(states: seq<State>, moves: seq<Move>, b: Bounds, k: nat)
    requires IsRun(states, moves) && KeepsBounds(states, moves, b) && k < |states|
    ensures states[k].response <= b.response
    ensures states[k].request.OnItsWay? ==> states[k].lateness <= b.lateness
  {
    if k > 0 {
      PartsAreBounded(states, moves, b, k - 1);
      assert Within(states[k - 1], moves[k - 1], b);
    }
  }

  /** If the three bounds add up to at most four fifths of every time-to-live the server grants, no keep-alive of the
      run, however long, comes after the lease has expired. */
  lemma {:induction false} LeaseNeverExpires(states: seq<State>, moves: seq<Move>, b: Bounds, k: nat)
    requires IsRun(states, moves) && KeepsBounds(states, moves, b) && k < |states|
    requires forall i :: 0 <= i < k ==> Total(b) <= Ttl(states[i]) * 4.0 / 5.0
    ensures !states[k].expired
  {
    if k > 0 {
      LeaseNeverExpires(states, moves, b, k - 1);
      PartsAreBounded(states, moves, b, k - 1);
      if moves[k - 1].Reaches? {
        assert Within(states[k - 1], moves[k - 1], b);
        LateIff(states, moves, k - 1, moves[k - 1].at);
      }
    }
  }

  /** Nothing weaker will do: with bounds that add up to more, already the first keep-alive can come too late. */
  lemma BoundsAreTight(b: Bounds, ttl: int) returns (states: seq<State>, moves: seq<Move>)
    requires ttl >= 1 && b.response >= 0.0 && b.lateness >= 0.0 && b.request >= 0.0
    requires Total(b) > (1000 * ttl) as real * 4.0 / 5.0
    ensures IsRun(states, moves) && KeepsBounds(states, moves, b)
    ensures forall i :: 0 <= i < |states| ==> states[i].ttl == ttl
    ensures states[|moves|].expired
  {
    var (s, posted) := OnGrant(NewSession(0, 0), Granted(1, ttl), b.response);
    var start := State(s, posted, NoRequest, b.response, 1, 0.0, ttl, b.response, 0.0, 0.0, false);
    assert IsGranted(start, 0, 0);
    InitIsInv(start);
    var fires := Fires(posted[0].deadline + b.lateness);
    var fired := After(start, fires);
    var reaches := Reaches(fires.at + b.request, ttl);
    states, moves := [start, fired, After(fired, reaches)], [fires, reaches];
    MoveKeepsInv(start, fires);
    LateIff(states[..2], moves[..1], 1, reaches.at);
  }

  /** No run within the bounds loses the lease, as long as the server grants at least `ttl` seconds each time. */
  ghost predicate KeepsLease(b: Bounds, ttl: int) {
    forall states: seq<State>, moves: seq<Move> ::
      IsRun(states, moves) && KeepsBounds(states, moves, b)
      && (forall i :: 0 <= i < |states| ==> states[i].ttl >= ttl)
      ==> !states[|moves|].expired
  }

  lemma KeepsLeaseIff(b: Bounds, ttl: int)
    requires ttl >= 1 && b.response >= 0.0 && b.lateness >= 0.0 && b.request >= 0.0
    ensures KeepsLease(b, ttl) <==> Total(b) <= (1000 * ttl) as real * 4.0 / 5.0
  {
    if Total(b) > (1000 * ttl) as real * 4.0 / 5.0 {
      var states, moves := BoundsAreTight(b, ttl);
    } else {
      forall states: seq<State>, moves: seq<Move> |
        IsRun(states, moves) && KeepsBounds(states, moves, b)
        && (forall i :: 0 <= i < |states| ==> states[i].ttl >= ttl)
        ensures !states[|moves|].expired
      {
        LeaseNeverExpires(states, moves, b, |moves|);
      }
    }
  }
}
