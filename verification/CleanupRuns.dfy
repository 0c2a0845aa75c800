/** The candidate's callbacks taken apart at the calls of the counters, with the application's thread stepping in
    between any two of them: what is still in flight when cleanup returns. */
module CleanupRuns {
  import opened ByteStrings
  import opened Keys
  import opened Etcd
  import opened OpCounter
  import opened Waits
  import opened Candidates

  /** An operation in flight, and whether its start was accepted by a counter. */
  datatype Flight = Flight(op: Op, counted: bool)

  /** Where the event loop's thread stands. */
  datatype Loop =
    | Resting
    | Called(done: Completion, counted: bool)        // a callback begins
    | Watching(kvs: seq<KeyValue>, revision: nat)    // in on_range_request, before the start of the next watch
    | Asking                                         // in query_predecessor, before it asks whether ops_ is shut down
    | Querying(op: Op)                               // ops_ was not shut down, its start comes next
    | Starting(op: Op)                               // before the start of a read
    | Posting(flight: Flight)
    | PostingWatch(op: Op, kvs: seq<KeyValue>, revision: nat)

  datatype State = State(
    c: Candidate, campaigning: bool, outstanding: seq<Flight>, loop: Loop, tracers: nat, drain: Drain,
    failedRanges: nat,       // counted ranges that failed, which are never counted down
    overdone: nat)           // ranges that were not counted, and counted down

  datatype Move =
    | BeginCampaign
    | Completes(i: nat, done: Completion)
    | LoopSteps
    | TracerStarts | TracerEnds
    | ResignBegins | ResignShutsReads | ResignEnds
    | CleanupBegins | ShutsOps | OpsWaitEnds | ShutsReads | ReadsWaitEnds

  predicate CompletionOf(op: Op, done: Completion) {
    match op
    case PostRange(_) => done.RangeCompletes? && |done.response.kvs| <= 1
    case PostWatch(key, revision) => done.WriteCompletes? && done.key == key && done.revision == revision
    case PostRead(key, revision) => done.ReadCompletes? && done.key == key && done.revision == revision
  }

  /** The candidate after the part of on_watch_read between counting down the read and asking or reading again. */
  function Digest(c: Candidate, response: WatchResponse): Candidate {
    var c := c.(
      currentWatches := if response.created then c.currentWatches + {response.watchId} else c.currentWatches,
      watchedKeys := c.watchedKeys - DeletedKeys(response.events));
    if response.canceled || response.compactRevision != 0 then
      c.(currentWatches := c.currentWatches - {response.watchId})
    else c
  }

  /** The next step of the callback under way. */
  function LoopStep(c: Candidate, loop: Loop): (Candidate, Loop, seq<Flight>)
    requires !loop.Resting?
  {
    match loop
    case Called(RangeCompletes(ok, response), _) =>
      if !ok then (ElectionResult(c, false), Resting, [])
      else (c.(ops := c.ops.Done()), Watching(response.kvs, response.revision), [])
    case Called(WriteCompletes(ok, key, revision), _) =>
      (c.(ops := c.ops.Done()), if ok then Starting(PostRead(key, revision)) else Resting, [])
    case Called(ReadCompletes(ok, response, key, revision), _) =>
      var c := c.(readOps := c.readOps.Done());
      if !ok then (c, Resting, [])
      else
        var c := Digest(c, response);
        var asks := response.canceled || response.compactRevision != 0 || c.watchedKeys == {};
        (c, if asks then Asking else Starting(PostRead(key, revision)), [])
    case Watching(kvs, revision) =>
      if kvs == [] then (CheckElectionOver(c), Resting, [])
      else if c.ops.shutdown then (c, Resting, [])
      else
        (c.(ops := c.ops.Start(), watchedKeys := c.watchedKeys + {kvs[0].key}),
         PostingWatch(PostWatch(kvs[0].key, revision), kvs[1..], revision), [])
    case PostingWatch(op, kvs, revision) => (c, Watching(kvs, revision), [Flight(op, true)])
    case Asking =>
      if c.ops.shutdown then (ElectionResult(c, false), Resting, [])
      else (c, Querying(PostRange(PredecessorQuery(c))), [])
    case Querying(op) => (c.(ops := c.ops.Start()), Posting(Flight(op, !c.ops.shutdown)), [])
    case Starting(op) =>
      if c.readOps.shutdown then (c, Resting, [])
      else (c.(readOps := c.readOps.Start()), Posting(Flight(op, true)), [])
    case Posting(flight) => (c, Resting, [flight])
  }

  function StepsLeft(loop: Loop): nat {
    match loop
    case Resting => 0
    case Called(done, _) => if done.RangeCompletes? then 2 + 2 * |done.response.kvs| else 4
    case Watching(kvs, _) => 1 + 2 * |kvs|
    case PostingWatch(_, kvs, _) => 2 + 2 * |kvs|
    case Asking => 3
    case Querying(_) => 2
    case Starting(_) => 2
    case Posting(_) => 1
  }

  function OpsOf(flights: seq<Flight>): seq<Op> {
    seq(|flights|, i requires 0 <= i < |flights| => flights[i].op)
  }

  /** All the steps of a callback with nothing in between. */
  function Finish(c: Candidate, loop: Loop): (Candidate, seq<Op>)
    decreases StepsLeft(loop)
  {
    if loop.Resting? then (c, [])
    else
      var (c, loop, posted) := LoopStep(c, loop);
      var (c, more) := Finish(c, loop);
      (c, OpsOf(posted) + more)
  }

  predicate Possible(t: State, m: Move) {
    match m
    case BeginCampaign => !t.campaigning && t.drain.NotDraining?
    case Completes(i, done) => t.loop.Resting? && i < |t.outstanding| && CompletionOf(t.outstanding[i].op, done)
    case LoopSteps => !t.loop.Resting?
    case TracerStarts => t.drain.NotDraining? && !t.c.ops.shutdown
    case TracerEnds => t.tracers > 0
    case ResignBegins => t.drain.NotDraining?
    case ResignShutsReads => t.drain.NotDraining?
    case ResignEnds => t.drain.NotDraining?
    case CleanupBegins => t.drain.NotDraining? && t.tracers == 0 && !t.c.ops.shutdown
    case ShutsOps => t.drain.Cancelling?
    case OpsWaitEnds => t.drain.WaitingForOps? && t.c.ops.pending == 0
    case ShutsReads => t.drain.OpsDrained?
    case ReadsWaitEnds => t.drain.WaitingForReads? && t.c.readOps.pending == 0
  }

  /** Cleanup runs in the destructor, when no other call on the candidate is under way. A wait looks at its counter in
      the same step that shuts it down, and again when it is woken. */
  function After(t: State, m: Move): State
    requires Possible(t, m)
  {
    match m
    case BeginCampaign =>
      var (c, posted) := QueryPredecessor(t.c);
      t.(c := c, campaigning := true,
         outstanding := t.outstanding + seq(|posted|, i requires 0 <= i < |posted| => Flight(posted[i], true)))
    case Completes(i, done) =>
      t.(outstanding := t.outstanding[..i] + t.outstanding[i + 1..], loop := Called(done, t.outstanding[i].counted))
    case LoopSteps =>
      var (c, loop, posted) := LoopStep(t.c, t.loop);
      var range := t.loop.Called? && t.loop.done.RangeCompletes?;
      t.(c := c, loop := loop, outstanding := t.outstanding + posted,
         failedRanges := t.failedRanges + (if range && !t.loop.done.ok && t.loop.counted then 1 else 0),
         overdone := t.overdone + (if range && t.loop.done.ok && !t.loop.counted then 1 else 0))
    case TracerStarts => t.(c := t.c.(ops := t.c.ops.Start()), tracers := t.tracers + 1)
    case TracerEnds => t.(c := t.c.(ops := t.c.ops.Done()), tracers := t.tracers - 1)
    case ResignBegins => t.(c := TakeWatches(t.c))
    case ResignShutsReads => t.(c := ShutReads(t.c))
    case ResignEnds => t.(c := ElectionResult(t.c, false))
    case CleanupBegins => t.(drain := Cancelling)
    case ShutsOps => t.(c := ShutOps(t.c), drain := if t.c.ops.pending == 0 then OpsDrained else WaitingForOps)
    case OpsWaitEnds => t.(drain := OpsDrained)
    case ShutsReads => t.(c := ShutReads(t.c), drain := if t.c.readOps.pending == 0 then Drained else WaitingForReads)
    case ReadsWaitEnds => t.(drain := Drained)
  }

  function Start(name: Bytes, leaseId: LeaseId, value: Bytes): State {
    State(NewCandidate(name, leaseId, value), false, [], Resting, 0, NotDraining, 0, 0)
  }

  ghost predicate IsPath(states: seq<State>, moves: seq<Move>) {
    && |states| == |moves| + 1
    && forall i :: 0 <= i < |moves| ==> Possible(states[i], moves[i]) && states[i + 1] == After(states[i], moves[i])
  }

  ghost predicate IsRun(states: seq<State>, moves: seq<Move>) {
    IsPath(states, moves) && states[0] == Start(states[0].c.name, states[0].c.leaseId, states[0].c.value)
  }

  // ---- the steps of a callback -----------------------------------------------------------------------------------

  /** The loop over an answer, from its first key on. */
  lemma {:induction false} WatchAllFront(c: Candidate, kvs: seq<KeyValue>, revision: nat)
    requires kvs != [] && !c.ops.shutdown
    ensures
      var next := c.(ops := c.ops.Start(), watchedKeys := c.watchedKeys + {kvs[0].key});
      var rest := WatchAll(next, kvs[1..], revision);
      && rest.2
      && WatchAll(c, kvs, revision) == (rest.0, [PostWatch(kvs[0].key, revision)] + rest.1, true)
  {
    var next := c.(ops := c.ops.Start(), watchedKeys := c.watchedKeys + {kvs[0].key});
    var init, last := kvs[..|kvs| - 1], kvs[|kvs| - 1];
    if init == [] {
      assert kvs[1..] == [] && WatchAll(c, init, revision) == (c, [], true);
      assert [] + [PostWatch(last.key, revision)] == [PostWatch(kvs[0].key, revision)] + [];
    } else {
      WatchAllFront(c, init, revision);
      assert kvs[1..][..|kvs| - 2] == init[1..];
      var rest := WatchAll(next, init[1..], revision);
      assert ([PostWatch(kvs[0].key, revision)] + rest.1) + [PostWatch(last.key, revision)]
          == [PostWatch(kvs[0].key, revision)] + (rest.1 + [PostWatch(last.key, revision)]);
    }
  }

  lemma {:induction false} FinishWatching(c: Candidate, kvs: seq<KeyValue>, revision: nat)
    ensures
      var all := WatchAll(c, kvs, revision);
      Finish(c, Watching(kvs, revision)) == (if all.2 then CheckElectionOver(all.0) else all.0, all.1)
    decreases |kvs|
  {
    if kvs != [] && !c.ops.shutdown {
      var next := c.(ops := c.ops.Start(), watchedKeys := c.watchedKeys + {kvs[0].key});
      WatchAllFront(c, kvs, revision);
      FinishWatching(next, kvs[1..], revision);
      var op := PostWatch(kvs[0].key, revision);
      assert OpsOf([Flight(op, true)]) == [op];
      FinishStep(next, PostingWatch(op, kvs[1..], revision));
      FinishStep(c, Watching(kvs, revision));
    } else {
      FinishStep(c, Watching(kvs, revision));
    }
  }

  lemma FinishStep(c: Candidate, loop: Loop)
    requires !loop.Resting?
    ensures
      var (c', loop', posted) := LoopStep(c, loop);
      Finish(c, loop) == (Finish(c', loop').0, OpsOf(posted) + Finish(c', loop').1)
    ensures
      var (c', loop', posted) := LoopStep(c, loop);
      posted == [] ==> Finish(c, loop) == Finish(c', loop')
  {
    var (c', loop', posted) := LoopStep(c, loop);
    assert posted == [] ==> OpsOf(posted) == [];
    Neutral(Finish(c', loop').1);
  }

  lemma FinishPosting(c: Candidate, flight: Flight)
    ensures Finish(c, Posting(flight)) == (c, [flight.op])
  {
    FinishStep(c, Posting(flight));
    assert OpsOf([flight]) == [flight.op];
    Neutral([flight.op]);
  }

  lemma FinishAsking(c: Candidate)
    ensures Finish(c, Asking) == QueryPredecessor(c)
  {
    FinishStep(c, Asking);
    if !c.ops.shutdown {
      var op := PostRange(PredecessorQuery(c));
      FinishStep(c, Querying(op));
      FinishPosting(c.(ops := c.ops.Start()), Flight(op, true));
    }
  }

  lemma FinishStarting(c: Candidate, op: Op)
    ensures Finish(c, Starting(op)) ==
              if c.readOps.shutdown then (c, []) else (c.(readOps := c.readOps.Start()), [op])
  {
    FinishStep(c, Starting(op));
    if !c.readOps.shutdown {
      FinishPosting(c.(readOps := c.readOps.Start()), Flight(op, true));
    }
  }

  /** Without anything in between the steps are the callback. */
  lemma StepsMakeCallback(c: Candidate, done: Completion, counted: bool)
    ensures Finish(c, Called(done, counted)) == Handle(c, done)
  {
    FinishStep(c, Called(done, counted));
    var (c', loop, _) := LoopStep(c, Called(done, counted));
    match loop {
      case Watching(kvs, revision) => FinishWatching(c', kvs, revision);
      case Asking => FinishAsking(c');
      case Starting(op) => FinishStarting(c', op);
      case _ =>
    }
  }

  // ---- what the counters count -----------------------------------------------------------------------------------

  function WhichOf(op: Op): Which {
    if op.PostRead? then Reads else Ops
  }

  function WhichCompletes(done: Completion): Which {
    if done.ReadCompletes? then Reads else Ops
  }

  /** How many of the operations in flight a counter covers. There is never more than one in flight. */
  function CountOf(flights: seq<Flight>, which: Which): nat {
    if |flights| == 1 && flights[0].counted && WhichOf(flights[0].op) == which then 1 else 0
  }

  /** How many operations the callback under way accounts for: the one that completed until it is counted down, the one
      it posts once it is counted. */
  function HeldBy(loop: Loop, which: Which): nat {
    match loop
    case Called(done, counted) => if counted && WhichCompletes(done) == which then 1 else 0
    case Posting(flight) => if flight.counted && WhichOf(flight.op) == which then 1 else 0
    case PostingWatch(_, _, _) => if which.Ops? then 1 else 0
    case _ => 0
  }

  /** Only a range is ever posted without being counted. */
  predicate CountedButRanges(t: State) {
    && (forall f :: f in t.outstanding && !f.counted ==> f.op.PostRange?)
    && (t.loop.Called? && !t.loop.counted ==> t.loop.done.RangeCompletes?)
    && (t.loop.Posting? && !t.loop.flight.counted ==> t.loop.flight.op.PostRange?)
    && (t.loop.Querying? ==> t.loop.op.PostRange?)
    && (t.loop.PostingWatch? ==> t.loop.op.PostWatch?)
    && (t.loop.Starting? ==> t.loop.op.PostRead?)
  }

  predicate AllCounted(t: State) {
    && (forall f :: f in t.outstanding ==> f.counted)
    && (t.loop.Called? ==> t.loop.counted)
    && (t.loop.Posting? ==> t.loop.flight.counted)
    && t.overdone == 0
  }

  /** Answers have at most one key, so the loop over them posts at most one watch. */
  predicate AtMostOneKey(loop: Loop) {
    match loop
    case Called(RangeCompletes(_, response), _) => |response.kvs| <= 1
    case Watching(kvs, _) => |kvs| <= 1
    case PostingWatch(_, kvs, _) => kvs == []
    case _ => true
  }

  /** The callback under way may still post an operation, or has one that completed. */
  predicate Busy(loop: Loop) {
    !loop.Resting? && !(loop.Watching? && loop.kvs == [])
  }

  predicate Tokens(t: State) {
    && |t.outstanding| + (if Busy(t.loop) then 1 else 0) <= 1
    && AtMostOneKey(t.loop)
    && (!t.campaigning || t.failedRanges > 0 ==> t.outstanding == [] && t.loop.Resting?)
    && (t.failedRanges > 0 ==> t.campaigning)
  }

  predicate ReadsBalance(t: State) {
    t.c.readOps.pending == CountOf(t.outstanding, Reads) + HeldBy(t.loop, Reads)
  }

  predicate OpsBalance(t: State) {
    t.c.ops.pending + t.overdone == CountOf(t.outstanding, Ops) + HeldBy(t.loop, Ops) + t.tracers + t.failedRanges
  }

  /** What may go uncounted, and when. */
  predicate Counts(t: State) {
    && CountedButRanges(t)
    && (!t.c.ops.shutdown ==> AllCounted(t))
    && (t.drain.WaitingForOps? ==> AllCounted(t) && !t.loop.Querying?)
  }

  predicate Drains(t: State) {
    && (t.c.ops.shutdown <==> !t.drain.NotDraining? && !t.drain.Cancelling?)
    && (!t.drain.NotDraining? ==> t.tracers == 0)
    && (t.drain.OpsDrained? || t.drain.WaitingForReads? || t.drain.Drained? ==>
          CountOf(t.outstanding, Ops) == 0 && HeldBy(t.loop, Ops) == 0)
    && (t.drain.WaitingForReads? || t.drain.Drained? ==> t.c.readOps.shutdown)
    && (t.drain.Drained? ==> t.c.readOps.pending == 0)
  }

  predicate Inv(t: State) {
    Tokens(t) && ReadsBalance(t) && OpsBalance(t) && Counts(t) && Drains(t)
  }

  /** What a step does to the counters, and where it leads, without the rest of the candidate. */
  predicate StepEffect(c: Candidate, loop: Loop, d: Candidate, next: Loop, posted: seq<Flight>)
    requires !loop.Resting?
  {
    match loop
    case Called(RangeCompletes(ok, response), _) =>
      && d.readOps == c.readOps && posted == []
      && (if ok then d.ops == c.ops.Done() && next == Watching(response.kvs, response.revision)
          else d.ops == c.ops && next.Resting?)
    case Called(WriteCompletes(_, _, _), _) =>
      && d.ops == c.ops.Done() && d.readOps == c.readOps && posted == []
      && (next.Resting? || (next.Starting? && next.op.PostRead?))
    case Called(ReadCompletes(_, _, _, _), _) =>
      && d.ops == c.ops && d.readOps == c.readOps.Done() && posted == []
      && (next.Resting? || next.Asking? || (next.Starting? && next.op.PostRead?))
    case Watching(kvs, revision) =>
      && d.readOps == c.readOps && posted == []
      && (if kvs == [] || c.ops.shutdown then d.ops == c.ops && next.Resting?
          else d.ops == c.ops.Start() && next.PostingWatch? && next.op.PostWatch? && next.kvs == kvs[1..])
    case PostingWatch(op, kvs, revision) =>
      d.ops == c.ops && d.readOps == c.readOps && next == Watching(kvs, revision) && posted == [Flight(op, true)]
    case Asking =>
      && d.ops == c.ops && d.readOps == c.readOps && posted == []
      && (if c.ops.shutdown then next.Resting? else next.Querying? && next.op.PostRange?)
    case Querying(op) =>
      && d.ops == c.ops.Start() && d.readOps == c.readOps && posted == []
      && next == Posting(Flight(op, !c.ops.shutdown))
    case Starting(op) =>
      && d.ops == c.ops && posted == []
      && (if c.readOps.shutdown then d.readOps == c.readOps && next.Resting?
          else d.readOps == c.readOps.Start() && next == Posting(Flight(op, true)))
    case Posting(flight) => d.ops == c.ops && d.readOps == c.readOps && next.Resting? && posted == [flight]
  }

  lemma StepHasEffect(c: Candidate, loop: Loop)
    requires !loop.Resting?
    ensures
      var (d, next, posted) := LoopStep(c, loop);
      StepEffect(c, loop, d, next, posted)
  {
  }

  predicate IsRange(loop: Loop) {
    loop.Called? && loop.done.RangeCompletes?
  }

  /** The state after a step with that effect. */
  predicate Steps(t: State, u: State, posted: seq<Flight>) {
    && !t.loop.Resting? && StepEffect(t.c, t.loop, u.c, u.loop, posted)
    && u == t.(c := u.c, loop := u.loop, outstanding := t.outstanding + posted,
         failedRanges := t.failedRanges + (if IsRange(t.loop) && !t.loop.done.ok && t.loop.counted then 1 else 0),
         overdone := t.overdone + (if IsRange(t.loop) && t.loop.done.ok && !t.loop.counted then 1 else 0))
  }

  lemma EffectKeepsReads(t: State, u: State, posted: seq<Flight>)
    requires Inv(t) && Steps(t, u, posted)
    ensures Tokens(u) && ReadsBalance(u)
  {
    assert u.outstanding == if Busy(t.loop) then posted else t.outstanding;
  }

  lemma EffectKeepsOps(t: State, u: State, posted: seq<Flight>)
    requires Inv(t) && Steps(t, u, posted)
    ensures OpsBalance(u)
  {
    assert u.outstanding == if Busy(t.loop) then posted else t.outstanding;
  }

  lemma EffectKeepsKinds(t: State, u: State, posted: seq<Flight>)
    requires Tokens(t) && CountedButRanges(t) && Steps(t, u, posted)
    ensures CountedButRanges(u)
  {
    assert u.outstanding == if Busy(t.loop) then posted else t.outstanding;
  }

  lemma EffectKeepsAllCounted(t: State, u: State, posted: seq<Flight>)
    requires Tokens(t) && AllCounted(t) && Steps(t, u, posted) && (t.loop.Querying? ==> !t.c.ops.shutdown)
    ensures AllCounted(u)
  {
    EffectIsCounted(t.c, t.loop, u.c, u.loop, posted);
    forall f | f in u.outstanding ensures f.counted {
      assert f in t.outstanding || f in posted;
    }
  }

  /** What a step posts is counted, and so is what it leaves to the next one. */
  lemma EffectIsCounted(c: Candidate, loop: Loop, d: Candidate, next: Loop, posted: seq<Flight>)
    requires !loop.Resting? && StepEffect(c, loop, d, next, posted)
    requires (loop.Posting? ==> loop.flight.counted) && (loop.Querying? ==> !c.ops.shutdown)
    ensures forall f :: f in posted ==> f.counted
    ensures !next.Called? && (next.Posting? ==> next.flight.counted)
  {
  }

  lemma EffectKeepsCounts(t: State, u: State, posted: seq<Flight>)
    requires Tokens(t) && Counts(t) && Steps(t, u, posted) && (t.drain.WaitingForOps? ==> t.c.ops.shutdown)
    ensures Counts(u)
  {
    EffectKeepsKinds(t, u, posted);
    if AllCounted(t) && (t.loop.Querying? ==> !t.c.ops.shutdown) {
      EffectKeepsAllCounted(t, u, posted);
    }
  }

  lemma EffectKeepsDrains(t: State, u: State, posted: seq<Flight>)
    requires Inv(t) && Steps(t, u, posted) && Tokens(u) && ReadsBalance(u)
    ensures Drains(u)
  {
    EffectKeepsShut(t.c, t.loop, u.c, u.loop, posted);
    if t.drain.OpsDrained? || t.drain.WaitingForReads? || t.drain.Drained? {
      EffectStaysDrained(t, u, posted);
    }
  }

  lemma EffectKeepsShut(c: Candidate, loop: Loop, d: Candidate, next: Loop, posted: seq<Flight>)
    requires !loop.Resting? && StepEffect(c, loop, d, next, posted)
    ensures d.ops.shutdown == c.ops.shutdown && d.readOps.shutdown == c.readOps.shutdown
  {
  }

  lemma EffectStaysDrained(t: State, u: State, posted: seq<Flight>)
    requires Tokens(t) && CountedButRanges(t) && Steps(t, u, posted) && t.c.ops.shutdown
    requires CountOf(t.outstanding, Ops) == 0 && HeldBy(t.loop, Ops) == 0
    ensures CountOf(u.outstanding, Ops) == 0 && HeldBy(u.loop, Ops) == 0
  {
    assert u.outstanding == if Busy(t.loop) then posted else t.outstanding;
  }

  lemma LoopStepKeepsInv(t: State)
    requires Inv(t) && !t.loop.Resting?
    ensures Inv(After(t, LoopSteps))
  {
    StepHasEffect(t.c, t.loop);
    var u, posted := After(t, LoopSteps), LoopStep(t.c, t.loop).2;
    assert Steps(t, u, posted);
    EffectKeepsReads(t, u, posted);
    EffectKeepsOps(t, u, posted);
    EffectKeepsCounts(t, u, posted);
    EffectKeepsDrains(t, u, posted);
  }

  lemma CompletesKeepsInv(t: State, i: nat, done: Completion)
    requires Inv(t) && Possible(t, Completes(i, done))
    ensures Inv(After(t, Completes(i, done)))
  {
    assert t.outstanding == [t.outstanding[0]] && After(t, Completes(i, done)).outstanding == [];
    assert t.outstanding[0] in t.outstanding;
  }

  lemma BeginKeepsInv(t: State)
    requires Inv(t) && Possible(t, BeginCampaign)
    ensures Inv(After(t, BeginCampaign))
  {
    assert After(t, BeginCampaign).outstanding ==
           if t.c.ops.shutdown then [] else [Flight(PostRange(PredecessorQuery(t.c)), true)];
  }

  lemma MoveKeepsInv(t: State, m: Move)
    requires Inv(t) && Possible(t, m)
    ensures Inv(After(t, m))
  {
    match m
    case LoopSteps => LoopStepKeepsInv(t);
    case Completes(i, done) => CompletesKeepsInv(t, i, done);
    case BeginCampaign => BeginKeepsInv(t);
    case _ => ThreadKeepsInv(t, m);
  }

  /** The steps of the application's thread. */
  lemma ThreadKeepsInv(t: State, m: Move)
    requires Inv(t) && Possible(t, m) && !m.LoopSteps? && !m.Completes? && !m.BeginCampaign?
    ensures Inv(After(t, m))
  {
    if m.TracerStarts? || m.TracerEnds? || m.ResignBegins? || m.ResignShutsReads? || m.ResignEnds? {
      CallKeepsInv(t, m);
    } else {
      CleanupKeepsInv(t, m);
    }
  }

  lemma CallKeepsInv(t: State, m: Move)
    requires Inv(t) && Possible(t, m)
    requires m.TracerStarts? || m.TracerEnds? || m.ResignBegins? || m.ResignShutsReads? || m.ResignEnds?
    ensures Inv(After(t, m))
  {
  }

  lemma CleanupKeepsInv(t: State, m: Move)
    requires Inv(t) && Possible(t, m)
    requires m.CleanupBegins? || m.ShutsOps? || m.OpsWaitEnds? || m.ShutsReads? || m.ReadsWaitEnds?
    ensures Inv(After(t, m))
  {
  }

  lemma {:induction false} RunKeepsInv(states: seq<State>, moves: seq<Move>, k: nat)
    requires IsRun(states, moves) && k < |states|
    ensures Inv(states[k])
  {
    if k > 0 {
      RunKeepsInv(states, moves, k - 1);
      MoveKeepsInv(states[k - 1], moves[k - 1]);
    }
  }

  // ---- what cleanup leaves behind --------------------------------------------------------------------------------

  /** Some operation that calls back is in flight, or the callback under way is about to post one. */
  predicate CallsBack(t: State) {
    t.outstanding != [] || t.loop.Querying? || t.loop.Posting? || t.loop.PostingWatch?
  }

  predicate RangeCompletesIn(m: Move) {
    m.Completes? && m.done.RangeCompletes?
  }

  /** A query that slipped through is on its way: about to be posted, or posted and not counted. */
  predicate Slipped(t: State) {
    if t.loop.Resting? then |t.outstanding| == 1 && !t.outstanding[0].counted
    else t.outstanding == [] && (t.loop.Querying? || (t.loop.Posting? && !t.loop.flight.counted))
  }

  /** It is over, and its callback starts nothing. */
  predicate SlippedAndOver(t: State) {
    t.outstanding == [] && (t.loop.Resting? || t.loop.Watching? || (t.loop.Called? && t.loop.done.RangeCompletes?))
  }

  lemma ShutsOpsStep(t: State)
    requires Inv(t) && Possible(t, ShutsOps)
    ensures
      var u := After(t, ShutsOps);
      u.c.ops.shutdown && if t.loop.Querying? then Slipped(u) else AllCounted(u) && !u.loop.Querying?
  {
  }

  lemma SlippedStep(t: State, m: Move)
    requires Inv(t) && Possible(t, m) && t.c.ops.shutdown && Slipped(t)
    ensures After(t, m).c.ops.shutdown
    ensures if RangeCompletesIn(m) then SlippedAndOver(After(t, m)) else Slipped(After(t, m))
  {
    if m.Completes? {
      CompletesKeepsInv(t, m.i, m.done);
      assert t.outstanding[0] in t.outstanding;
    }
  }

  lemma OverStep(t: State, m: Move)
    requires Inv(t) && Possible(t, m) && t.c.ops.shutdown && SlippedAndOver(t)
    ensures After(t, m).c.ops.shutdown && SlippedAndOver(After(t, m))
  {
  }

  /** No query completes between two moves of a run. */
  predicate NoneCompletes(moves: seq<Move>, j: nat, k: nat)
    requires j < k <= |moves|
  {
    forall i :: j < i < k ==> !RangeCompletesIn(moves[i])
  }

  lemma SlipStep(t: State, m: Move, done: bool)
    requires Inv(t) && Possible(t, m) && t.c.ops.shutdown && (if done then SlippedAndOver(t) else Slipped(t))
    ensures
      var u := After(t, m);
      u.c.ops.shutdown && if done || RangeCompletesIn(m) then SlippedAndOver(u) else Slipped(u)
  {
    if done {
      OverStep(t, m);
    } else {
      SlippedStep(t, m);
    }
  }

  lemma {:induction false} SlipsUntilItCompletes(states: seq<State>, moves: seq<Move>, j: nat, k: nat)
    requires IsRun(states, moves) && j < k < |states|
    requires moves[j].ShutsOps? && states[j].loop.Querying?
    ensures states[k].c.ops.shutdown
    ensures if NoneCompletes(moves, j, k) then Slipped(states[k]) else SlippedAndOver(states[k])
    decreases k
  {
    RunKeepsInv(states, moves, k - 1);
    var t, m := states[k - 1], moves[k - 1];
    if j == k - 1 {
      ShutsOpsStep(t);
    } else {
      SlipsUntilItCompletes(states, moves, j, k - 1);
      SlipStep(t, m, !NoneCompletes(moves, j, k - 1));
      assert NoneCompletes(moves, j, k) <==> NoneCompletes(moves, j, k - 1) && !RangeCompletesIn(m);
    }
  }

  lemma CountedStep(t: State, m: Move)
    requires Inv(t) && Possible(t, m) && t.c.ops.shutdown && AllCounted(t) && !t.loop.Querying?
    ensures
      var u := After(t, m);
      u.c.ops.shutdown && AllCounted(u) && !u.loop.Querying?
  {
    if m.Completes? {
      CompletesKeepsInv(t, m.i, m.done);
      assert t.outstanding[0] in t.outstanding;
    }
  }

  lemma {:induction false} NothingSlips(states: seq<State>, moves: seq<Move>, j: nat, k: nat)
    requires IsRun(states, moves) && j < k < |states|
    requires moves[j].ShutsOps? && !states[j].loop.Querying?
    ensures states[k].c.ops.shutdown && AllCounted(states[k]) && !states[k].loop.Querying?
    decreases k
  {
    RunKeepsInv(states, moves, k - 1);
    if j == k - 1 {
      ShutsOpsStep(states[j]);
    } else {
      NothingSlips(states, moves, j, k - 1);
      CountedStep(states[k - 1], moves[k - 1]);
    }
  }

  lemma NoneLeft(flights: seq<Flight>)
    requires |flights| <= 1 && forall f :: f in flights ==> f.counted
    requires CountOf(flights, Ops) == 0 && CountOf(flights, Reads) == 0
    ensures flights == []
  {
  }

  /** When cleanup has returned, and at any time after, an operation that calls back into the candidate is in flight or
      about to be posted exactly if the event loop stood between the check and the start in query_predecessor when
      cleanup shut the first counter down, and that query has not completed since. */
  lemma CleanupLeavesQueryIff(states: seq<State>, moves: seq<Move>, j: nat, k: nat)
    requires IsRun(states, moves) && j < k < |states|
    requires moves[j].ShutsOps? && states[k].drain.Drained?
    ensures CallsBack(states[k]) <==> states[j].loop.Querying? && NoneCompletes(moves, j, k)
  {
    RunKeepsInv(states, moves, k);
    var t := states[k];
    if states[j].loop.Querying? {
      SlipsUntilItCompletes(states, moves, j, k);
    } else {
      NothingSlips(states, moves, j, k);
      NoneLeft(t.outstanding);
    }
  }

  /** The event loop is out of the candidate, and nothing that can happen brings it back. */
  ghost predicate OutForGood(t: State) {
    forall path: seq<State>, moves: seq<Move> :: IsPath(path, moves) && path[0] == t ==> path[|moves|].loop.Resting?
  }

  /** When cleanup has returned, and at any time after, the event loop is out of the candidate for good exactly if it
      rests, and did not stand between the check and the start of a query when the first counter was shut down, or has
      seen that query complete. */
  lemma LoopIsOutIff(states: seq<State>, moves: seq<Move>, j: nat, k: nat)
    requires IsRun(states, moves) && j < k < |states|
    requires moves[j].ShutsOps? && states[k].drain.Drained?
    ensures OutForGood(states[k]) <==>
            states[k].loop.Resting? && !(states[j].loop.Querying? && NoneCompletes(moves, j, k))
  {
    CleanupLeavesQueryIff(states, moves, j, k);
    RunKeepsInv(states, moves, k);
    var t := states[k];
    assert IsPath([t], []);
    if t.loop.Resting? && !CallsBack(t) {
      forall path: seq<State>, acts: seq<Move> | IsPath(path, acts) && path[0] == t
        ensures path[|acts|].loop.Resting?
      {
        RestsOn(path, acts, |acts|);
      }
    } else if t.loop.Resting? {
      SlipsUntilItCompletes(states, moves, j, k);
      assert t.outstanding[0] in t.outstanding;
      var back := Completes(0, RangeCompletes(false, RangeResponse(0, [])));
      assert IsPath([t, After(t, back)], [back]);
    }
  }

  lemma {:induction false} RestsOn(path: seq<State>, moves: seq<Move>, k: nat)
    requires IsPath(path, moves) && k < |path|
    requires path[0].drain.Drained? && path[0].loop.Resting? && path[0].outstanding == [] && path[0].c.ops.shutdown
    ensures path[k].drain.Drained? && path[k].loop.Resting? && path[k].outstanding == [] && path[k].c.ops.shutdown
  {
    if k > 0 {
      RestsOn(path, moves, k - 1);
      StepRests(path[k - 1], moves[k - 1]);
    }
  }

  lemma StepRests(t: State, m: Move)
    requires Possible(t, m)
    requires t.drain.Drained? && t.loop.Resting? && t.outstanding == [] && t.c.ops.shutdown
    ensures
      var u := After(t, m);
      u.drain.Drained? && u.loop.Resting? && u.outstanding == [] && u.c.ops.shutdown
  {
  }

  /** If it is not out, and no query slipped through, one last step takes it out: a refused start, or a check that finds
      the counter shut down. */
  lemma OneStepFromOut(states: seq<State>, moves: seq<Move>, j: nat, k: nat)
    requires IsRun(states, moves) && j < k < |states|
    requires moves[j].ShutsOps? && states[k].drain.Drained? && !states[j].loop.Querying? && !states[k].loop.Resting?
    ensures
      var t := states[k];
      var (c, loop, posted) := LoopStep(t.c, t.loop);
      loop.Resting? && posted == [] && c.ops == t.c.ops && c.readOps == t.c.readOps
  {
    RunKeepsInv(states, moves, k);
    NothingSlips(states, moves, j, k);
    StepHasEffect(states[k].c, states[k].loop);
    CleanupLeavesQueryIff(states, moves, j, k);
    LastStep(states[k]);
  }

  lemma LastStep(t: State)
    requires Inv(t) && t.drain.Drained? && AllCounted(t) && !CallsBack(t) && !t.loop.Resting?
    ensures
      var (c, loop, posted) := LoopStep(t.c, t.loop);
      loop.Resting? && posted == [] && c.ops == t.c.ops && c.readOps == t.c.readOps
  {
    StepHasEffect(t.c, t.loop);
  }

  /** The run so far ends in state t. */
  ghost predicate EndsIn(states: seq<State>, moves: seq<Move>, t: State) {
    IsRun(states, moves) && states[|moves|] == t
  }

  lemma Extend(states: seq<State>, moves: seq<Move>, t: State, m: Move) returns (longer: seq<State>, more: seq<Move>)
    requires EndsIn(states, moves, t) && Possible(t, m)
    ensures EndsIn(longer, more, After(t, m)) && states < longer
  {
    longer, more := states + [After(t, m)], moves + [m];
  }

  /** The steps of callback after callback, from a state where a completion arrives. */
  lemma ExtendTwice(states: seq<State>, moves: seq<Move>, t: State, m: Move)
    returns (longer: seq<State>, more: seq<Move>)
    requires EndsIn(states, moves, t) && Possible(t, m) && Possible(After(t, m), LoopSteps)
    ensures EndsIn(longer, more, After(After(t, m), LoopSteps)) && states < longer
  {
    longer, more := Extend(states, moves, t, m);
    longer, more := Extend(longer, more, After(t, m), LoopSteps);
  }

  /** It does happen: a candidate waits for a predecessor, the predecessor is deleted, and cleanup runs from beginning
      to end while the callback stands between its check and its start. The query is posted after that. */
  lemma QueryAfterCleanup(name: Bytes, leaseId: LeaseId, value: Bytes, kv: KeyValue, revision: nat)
    returns (states: seq<State>, moves: seq<Move>, drained: nat)
    ensures IsRun(states, moves) && drained < |moves|
    ensures states[drained].drain.Drained? && states[drained].outstanding == []
    ensures states[|moves|].drain.Drained?
    ensures
      var left := states[|moves|].outstanding;
      left != [] && left[0].op.PostRange? && !left[0].counted
  {
    var start := Start(name, leaseId, value);
    states, moves := [start], [];
    states, moves := Extend(states, moves, start, BeginCampaign);
    var asked := After(start, BeginCampaign);
    var answered;
    states, moves, answered := AnswerOne(states, moves, asked, kv, revision);
    var waiting;
    states, moves, waiting := CreateWatch(states, moves, answered, kv.key, revision);
    var querying;
    states, moves, querying := DeliverDeletion(states, moves, waiting, kv, revision);
    states, moves := CleanUpAtOnce(states, moves, querying);
    drained := |moves|;
    var cut := querying.(c := ShutReads(ShutOps(querying.c)), drain := Drained);
    states, moves := ExtendTwice(states, moves, cut, LoopSteps);
  }

  predicate Undisturbed(t: State) {
    t.drain.NotDraining? && t.tracers == 0 && t.campaigning
  }

  /** The query is answered with one key; the callback posts a watch. */
  lemma AnswerOne(states: seq<State>, moves: seq<Move>, t: State, kv: KeyValue, revision: nat)
    returns (longer: seq<State>, more: seq<Move>, u: State)
    requires EndsIn(states, moves, t) && Undisturbed(t) && t.loop.Resting? && t.c.watchedKeys == {}
    requires |t.outstanding| == 1 && t.outstanding[0].op.PostRange? && t.outstanding[0].counted
    requires t.c.ops == Counter(1, false) && t.c.readOps == Counter(0, false)
    ensures EndsIn(longer, more, u) && states < longer && Undisturbed(u) && u.loop.Resting?
    ensures u.outstanding == [Flight(PostWatch(kv.key, revision), true)] && u.c.watchedKeys == {kv.key}
    ensures u.c.ops == Counter(1, false) && u.c.readOps == Counter(0, false)
  {
    var arrives := Completes(0, RangeCompletes(true, RangeResponse(revision, [kv])));
    longer, more := ExtendTwice(states, moves, t, arrives);
    u := After(After(t, arrives), LoopSteps);
    assert u.loop == Watching([kv], revision) && u.outstanding == [];
    longer, more := ExtendTwice(longer, more, u, LoopSteps);
    u := After(After(u, LoopSteps), LoopSteps);
    assert u.loop == Watching([], revision);
    longer, more := Extend(longer, more, u, LoopSteps);
    u := After(u, LoopSteps);
  }

  /** The watch is created; the callback posts a read. */
  lemma CreateWatch(states: seq<State>, moves: seq<Move>, t: State, key: Bytes, revision: nat)
    returns (longer: seq<State>, more: seq<Move>, u: State)
    requires EndsIn(states, moves, t) && Undisturbed(t) && t.loop.Resting?
    requires t.outstanding == [Flight(PostWatch(key, revision), true)]
    requires t.c.ops == Counter(1, false) && t.c.readOps == Counter(0, false)
    ensures EndsIn(longer, more, u) && states < longer && Undisturbed(u) && u.loop.Resting?
    ensures u.outstanding == [Flight(PostRead(key, revision), true)] && u.c.watchedKeys == t.c.watchedKeys
    ensures u.c.ops == Counter(0, false) && u.c.readOps == Counter(1, false)
  {
    var arrives := Completes(0, WriteCompletes(true, key, revision));
    longer, more := ExtendTwice(states, moves, t, arrives);
    u := After(After(t, arrives), LoopSteps);
    assert u.loop == Starting(PostRead(key, revision)) && u.outstanding == [];
    longer, more := ExtendTwice(longer, more, u, LoopSteps);
    u := After(After(u, LoopSteps), LoopSteps);
  }

  /** The watched key is deleted; the callback has checked the first counter and is about to count its query. */
  lemma DeliverDeletion(states: seq<State>, moves: seq<Move>, t: State, kv: KeyValue, revision: nat)
    returns (longer: seq<State>, more: seq<Move>, u: State)
    requires EndsIn(states, moves, t) && Undisturbed(t) && t.loop.Resting? && t.c.watchedKeys == {kv.key}
    requires t.outstanding == [Flight(PostRead(kv.key, revision), true)]
    requires t.c.ops == Counter(0, false) && t.c.readOps == Counter(1, false)
    ensures EndsIn(longer, more, u) && states < longer && Undisturbed(u)
    ensures u.outstanding == [] && u.loop.Querying? && u.loop.op.PostRange?
    ensures u.c.ops == Counter(0, false) && u.c.readOps == Counter(0, false)
  {
    var gone := WatchResponse(false, false, 0, 0, [Delete(kv)]);
    assert Delete(kv) in gone.events && DeletedKeys(gone.events) == {kv.key};
    var arrives := Completes(0, ReadCompletes(true, gone, kv.key, revision));
    longer, more := ExtendTwice(states, moves, t, arrives);
    u := After(After(t, arrives), LoopSteps);
    assert u.c.watchedKeys == {} && u.loop.Asking? && u.outstanding == [];
    longer, more := Extend(longer, more, u, LoopSteps);
    u := After(u, LoopSteps);
  }

  /** With nothing pending neither wait takes any time. */
  lemma CleanUpAtOnce(states: seq<State>, moves: seq<Move>, t: State)
    returns (longer: seq<State>, more: seq<Move>)
    requires EndsIn(states, moves, t) && Undisturbed(t)
    requires t.c.ops == Counter(0, false) && t.c.readOps == Counter(0, false)
    ensures EndsIn(longer, more, t.(c := ShutReads(ShutOps(t.c)), drain := Drained)) && states < longer
  {
    longer, more := Extend(states, moves, t, CleanupBegins);
    var u := After(t, CleanupBegins);
    longer, more := Extend(longer, more, u, ShutsOps);
    longer, more := Extend(longer, more, After(u, ShutsOps), ShutsReads);
  }

  /** Cleanup can return while a callback is still in the candidate: the watch was created, its callback has counted the
      operation down and is about to ask whether it may read. */
  lemma CallbackOutlivesCleanup(name: Bytes, leaseId: LeaseId, value: Bytes, kv: KeyValue, revision: nat)
    returns (states: seq<State>, moves: seq<Move>)
    ensures IsRun(states, moves)
    ensures states[|moves|].drain.Drained? && states[|moves|].loop == Starting(PostRead(kv.key, revision))
  {
    var start := Start(name, leaseId, value);
    states, moves := [start], [];
    states, moves := Extend(states, moves, start, BeginCampaign);
    var t;
    states, moves, t := AnswerOne(states, moves, After(start, BeginCampaign), kv, revision);
    var arrives := Completes(0, WriteCompletes(true, kv.key, revision));
    states, moves := ExtendTwice(states, moves, t, arrives);
    states, moves := CleanUpAtOnce(states, moves, After(After(t, arrives), LoopSteps));
  }
}
