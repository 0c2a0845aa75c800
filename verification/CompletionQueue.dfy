/** The completion queue that turns gRPC tags back into operations (gh/detail/base_completion_queue.cpp). */
module CompletionQueues {
  import opened Etcd

  /** A tag is the address of an operation; zero is the null pointer. */
  type Tag = nat

  datatype Call = Call(op: nat, ok: bool)

  /** Operations are told apart by a number of their own, because addresses are used again. */
  datatype Queue = Queue(pending: map<Tag, nat>, shutdown: bool, calls: seq<Call>)

  /** What AsyncNext reports. */
  datatype Next = Completed(tag: Tag, ok: bool) | TimedOut | QueueShutdown

  /** The second component is false when the assertion that the tag is new fails. */
  function Register(q: Queue, tag: Tag, op: nat): (Queue, bool) {
    if tag in q.pending then (q, false) else (q.(pending := q.pending[tag := op]), true)
  }

  function Unregister(q: Queue, tag: Tag): (Queue, Option<nat>) {
    if tag in q.pending then (q.(pending := q.pending - {tag}), Some(q.pending[tag])) else (q, None)
  }

  /** One iteration of the loop; the last component is false when the loop ends. */
  function Iterate(q: Queue, next: Next): (Queue, bool) {
    match next
    case QueueShutdown => (q, false)
    case TimedOut => (q, true)
    case Completed(tag, ok) =>
      if tag == 0 then (q, true)
      else
        var (q, op) := Unregister(q, tag);
        (if op.Some? then q.(calls := q.calls + [Call(op.value, ok)]) else q, true)
  }

  datatype Registration = Registration(tag: Tag, op: nat)

  function RegisterAll(q: Queue, registered: seq<Registration>): Queue {
    if registered == [] then q
    else
      var last := registered[|registered| - 1];
      Register(RegisterAll(q, registered[..|registered| - 1]), last.tag, last.op).0
  }

  /** What one turn of the loop meets: what AsyncNext reports, and what its callback and other threads register before
      the next turn, or that they shut the queue down. */
  datatype Turn = Turn(next: Next, registered: seq<Registration>, stops: bool)

  function TakeTurn(q: Queue, turn: Turn): (Queue, bool) {
    var (q, running) := Iterate(q, turn.next);
    if !running then (q, false)
    else
      var stopped := q.shutdown || turn.stops;
      (RegisterAll(q, turn.registered).(shutdown := stopped), !stopped)
  }

  function RunAll(q: Queue, turns: seq<Turn>): (Queue, bool) {
    if turns == [] then (q, !q.shutdown)
    else
      var (q, running) := RunAll(q, turns[..|turns| - 1]);
      if !running then (q, false) else TakeTurn(q, turns[|turns| - 1])
  }

  class BaseCompletionQueue {
    var pendingOps: map<Tag, nat>
    var stopped: bool
    var calls: seq<Call>

    ghost function State(): Queue
      reads this
    {
      Queue(pendingOps, stopped, calls)
    }

    constructor ()
      ensures State() == Queue(map[], false, [])
    {
      pendingOps, stopped, calls := map[], false, [];
    }

    method Shutdown()
      modifies this`stopped
      ensures State() == old(State()).(shutdown := true)
    {
      stopped := true;
    }

    method RegisterOp(tag: Tag, op: nat) returns (isNew: bool)
      modifies this`pendingOps
      ensures (State(), isNew) == Register(old(State()), tag, op)
    {
      if tag in pendingOps {
        return false;
      }
      pendingOps := pendingOps[tag := op];
      return true;
    }

    method UnregisterOp(tag: Tag) returns (op: Option<nat>)
      modifies this`pendingOps
      ensures (State(), op) == Unregister(old(State()), tag)
    {
      if tag in pendingOps {
        op := Some(pendingOps[tag]);
        pendingOps := pendingOps - {tag};
        return;
      }
      return None;
    }

    /** The event loop. A callback leaves its mark in `calls`; what else it does is in the turn. */
    method Run(turns: seq<Turn>)
      modifies this
      ensures State() == RunAll(old(State()), turns).0
    {
      var i := 0;
      assert turns[..|turns|] == turns;
      while !stopped && i < |turns|
        invariant 0 <= i <= |turns|
        invariant (State(), !stopped) == RunAll(old(State()), turns[..i])
        decreases |turns| - i
      {
        assert turns[..i + 1][..i] == turns[..i];
        var next := turns[i].next;
        i := i + 1;
        if next.QueueShutdown? {
          break;
        }
        if next.Completed? && next.tag != 0 {
          CallBack(next.tag, next.ok);
        }
        Meanwhile(turns[i - 1]);
      }
      if !RunAll(old(State()), turns[..i]).1 {
        StoppedStays(old(State()), turns, i);
      }
    }

    method CallBack(tag: Tag, ok: bool)
      requires tag != 0
      modifies this`pendingOps, this`calls
      ensures State() == Iterate(old(State()), Completed(tag, ok)).0
    {
      var op := UnregisterOp(tag);
      if op.Some? {
        calls := calls + [Call(op.value, ok)];
      }
    }

    /** What callbacks and other threads do to the queue during a turn. */
    method Meanwhile(turn: Turn)
      modifies this`pendingOps, this`stopped
      ensures State() == RegisterAll(old(State()), turn.registered).(shutdown := old(stopped) || turn.stops)
    {
      var registered := turn.registered;
      assert registered[..|registered|] == registered;
      for i := 0 to |registered|
        invariant State() == RegisterAll(old(State()), registered[..i])
        modifies this`pendingOps
      {
        assert registered[..i + 1][..i] == registered[..i];
        var _ := RegisterOp(registered[i].tag, registered[i].op);
      }
      if turn.stops {
        Shutdown();
      }
    }
  }

  /** Nothing happens after the loop has ended. */
  lemma {:induction false} StoppedStays(q: Queue, turns: seq<Turn>, i: nat)
    requires i <= |turns| && !RunAll(q, turns[..i]).1
    ensures RunAll(q, turns) == RunAll(q, turns[..i])
  {
    if i < |turns| {
      assert turns[..|turns| - 1][..i] == turns[..i];
      StoppedStays(q, turns[..|turns| - 1], i);
    } else {
      assert turns[..i] == turns;
    }
  }

  // ---- what the loop delivers ------------------------------------------------------------------------------------

  /** The queue when turn i begins. */
  function Upto(q: Queue, turns: seq<Turn>, i: nat): Queue
    requires i <= |turns|
  {
    RunAll(q, turns[..i]).0
  }

  predicate Ends(turn: Turn) {
    turn.next.QueueShutdown? || turn.stops
  }

  /** The loop goes on after i turns exactly if the queue was not shut down before, and neither was it during these
      turns nor did gRPC report the end. Timeouts and unknown tags do not end it. */
  lemma {:induction false} RunsOnIff(q: Queue, turns: seq<Turn>, i: nat)
    requires i <= |turns|
    ensures RunAll(q, turns[..i]).1 <==> !q.shutdown && forall j :: 0 <= j < i ==> !Ends(turns[j])
    ensures RunAll(q, turns[..i]).1 ==> !Upto(q, turns, i).shutdown
  {
    if i > 0 {
      RunsOnIff(q, turns, i - 1);
      assert turns[..i][..i - 1] == turns[..i - 1];
      RegisteringKeeps(Iterate(Upto(q, turns, i - 1), turns[i - 1].next).0, turns[i - 1].registered);
      assert turns[..i][i - 1] == turns[i - 1];
    } else {
      assert turns[..0] == [];
    }
  }

  /** Registering leaves what is registered, and everything else, alone. */
  lemma {:induction false} RegisteringKeeps(q: Queue, registered: seq<Registration>)
    ensures
      var q' := RegisterAll(q, registered);
      && q'.shutdown == q.shutdown && q'.calls == q.calls
      && forall tag :: tag in q.pending ==> tag in q'.pending && q'.pending[tag] == q.pending[tag]
  {
    if registered != [] {
      RegisteringKeeps(q, registered[..|registered| - 1]);
    }
  }

  lemma {:induction false} RegisteringAdds(q: Queue, registered: seq<Registration>, n: nat)
    requires n < |registered| && registered[n].tag !in RegisterAll(q, registered[..n]).pending
    ensures
      var q', r := RegisterAll(q, registered), registered[n];
      r.tag in q'.pending && q'.pending[r.tag] == r.op
    decreases |registered|
  {
    var init := registered[..|registered| - 1];
    if n < |init| {
      assert init[..n] == registered[..n] && init[n] == registered[n];
      RegisteringAdds(q, init, n);
      RegisteringKeeps(RegisterAll(q, init), [registered[|init|]]);
    }
  }

  lemma TurnStep(q: Queue, turns: seq<Turn>, i: nat)
    requires i < |turns| && RunAll(q, turns[..i + 1]).1
    ensures RunAll(q, turns[..i]).1 && !turns[i].next.QueueShutdown?
    ensures
      var begun := Iterate(Upto(q, turns, i), turns[i].next).0;
      var q', after := Upto(q, turns, i + 1), RegisterAll(begun, turns[i].registered);
      q'.pending == after.pending && q'.calls == after.calls
  {
    assert turns[..i + 1][..i] == turns[..i] && turns[..i + 1][i] == turns[i];
  }

  /** What is pending stays so until its completion comes. */
  lemma {:induction false} PendingStays(q: Queue, turns: seq<Turn>, i: nat, k: nat, tag: Tag)
    requires i <= k <= |turns| && RunAll(q, turns[..k]).1 && tag in Upto(q, turns, i).pending
    requires forall j :: i <= j < k ==> !(turns[j].next.Completed? && turns[j].next.tag == tag)
    ensures tag in Upto(q, turns, k).pending && Upto(q, turns, k).pending[tag] == Upto(q, turns, i).pending[tag]
    decreases k
  {
    if i < k {
      TurnStep(q, turns, k - 1);
      PendingStays(q, turns, i, k - 1, tag);
      RegisteringKeeps(Iterate(Upto(q, turns, k - 1), turns[k - 1].next).0, turns[k - 1].registered);
    }
  }

  /** An operation that is registered during turn i is called back by the turn in which its completion comes, as long as
      no turn before ends the loop, whatever else comes in between, timeouts and unknown tags included. */
  lemma RegisteredIsCalled(q: Queue, turns: seq<Turn>, i: nat, n: nat, k: nat, ok: bool)
    requires i < k < |turns| && n < |turns[i].registered| && !q.shutdown
    requires forall j :: 0 <= j < k ==> !Ends(turns[j])
    requires
      var begun := Iterate(Upto(q, turns, i), turns[i].next).0;
      turns[i].registered[n].tag !in RegisterAll(begun, turns[i].registered[..n]).pending
    requires
      var tag := turns[i].registered[n].tag;
      && tag != 0 && turns[k].next == Completed(tag, ok)
      && forall j :: i < j < k ==> !(turns[j].next.Completed? && turns[j].next.tag == tag)
    ensures Upto(q, turns, k + 1).calls == Upto(q, turns, k).calls + [Call(turns[i].registered[n].op, ok)]
    ensures Upto(q, turns, k + 1).calls <= RunAll(q, turns).0.calls
  {
    var tag, op := turns[i].registered[n].tag, turns[i].registered[n].op;
    RunsOnIff(q, turns, k);
    RunsOnIff(q, turns, i + 1);
    TurnStep(q, turns, i);
    RegisteringAdds(Iterate(Upto(q, turns, i), turns[i].next).0, turns[i].registered, n);
    PendingStays(q, turns, i + 1, k, tag);
    CompletionCalls(q, turns, k, tag, ok);
    CallsStay(q, turns, k + 1);
  }

  /** A completion whose tag is pending calls its operation back. */
  lemma CompletionCalls(q: Queue, turns: seq<Turn>, k: nat, tag: Tag, ok: bool)
    requires k < |turns| && RunAll(q, turns[..k]).1 && turns[k].next == Completed(tag, ok) && tag != 0
    requires tag in Upto(q, turns, k).pending
    ensures
      var q1, q2 := Upto(q, turns, k), Upto(q, turns, k + 1);
      q2.calls == q1.calls + [Call(q1.pending[tag], ok)]
  {
    assert turns[..k + 1][..k] == turns[..k] && turns[..k + 1][k] == turns[k];
    RegisteringKeeps(Iterate(Upto(q, turns, k), turns[k].next).0, turns[k].registered);
  }

  /** What was called back stays called back. */
  lemma {:induction false} CallsStay(q: Queue, turns: seq<Turn>, i: nat)
    requires i <= |turns|
    ensures Upto(q, turns, i).calls <= RunAll(q, turns).0.calls
    decreases |turns| - i
  {
    if i < |turns| {
      CallsStay(q, turns, i + 1);
      assert turns[..i + 1][..i] == turns[..i] && turns[..i + 1][i] == turns[i];
      RegisteringKeeps(Iterate(Upto(q, turns, i), turns[i].next).0, turns[i].registered);
    } else {
      assert turns[..i] == turns;
    }
  }

  // ---- every run of the queue against gRPC and the allocator -----------------------------------------------------

  datatype World = World(
    q: Queue,
    running: bool,               // the loop waits for what gRPC reports next
    posted: map<Tag, nat>,       // the operations gRPC holds
    inUse: set<Tag>,             // the addresses in use
    created: nat,                // operations 0 .. created - 1 were created so far
    results: map<nat, bool>,     // what gRPC reported for each operation
    asserted: bool)              // the assertion in register_op has failed

  datatype Move =
    | Posts(tag: Tag)                       // create an operation at an address, register it and post it
    | Frees(tag: Tag)                       // the last reference to an operation goes away
    | Reports(tag: Tag, ok: bool)           // gRPC completes a posted operation
    | ReportsUnknown(tag: Tag, ok: bool)    // a null tag, or one that was never posted or is done
    | ReportsTimeout
    | ReportsEnd                            // gRPC has nothing more to report
    | ShutsDown                             // the loop ends with the next report

  /** The allocator gives out addresses that are not in use, and the queue's reference keeps a pending operation in
      use. */
  predicate Possible(w: World, m: Move) {
    match m
    case Posts(tag) => tag != 0 && tag !in w.inUse
    case Frees(tag) => tag in w.inUse && tag !in w.q.pending
    case Reports(tag, _) => w.running && tag in w.posted
    case ReportsUnknown(tag, _) => w.running && tag !in w.posted
    case ReportsTimeout => w.running
    case ReportsEnd => w.running && w.q.shutdown
    case ShutsDown => true
  }

  /** One turn of the loop, up to its next wait. */
  function Turned(w: World, next: Next): World {
    var (q, goesOn) := Iterate(w.q, next);
    w.(q := q, running := goesOn && !q.shutdown)
  }

  function After(w: World, m: Move): World
    requires Possible(w, m)
  {
    match m
    case Posts(tag) =>
      var (q, isNew) := Register(w.q, tag, w.created);
      w.(q := q, posted := w.posted[tag := w.created], inUse := w.inUse + {tag}, created := w.created + 1,
         asserted := w.asserted || !isNew)
    case Frees(tag) => w.(inUse := w.inUse - {tag})
    case Reports(tag, ok) =>
      Turned(w, Completed(tag, ok)).(posted := w.posted - {tag}, results := w.results[w.posted[tag] := ok])
    case ReportsUnknown(tag, ok) => Turned(w, Completed(tag, ok))
    case ReportsTimeout => Turned(w, TimedOut)
    case ReportsEnd => Turned(w, QueueShutdown)
    case ShutsDown => w.(q := w.q.(shutdown := true))
  }

  ghost predicate IsRun(worlds: seq<World>, moves: seq<Move>) {
    && |worlds| == |moves| + 1
    && worlds[0] == World(Queue(map[], false, []), true, map[], {}, 0, map[], false)
    && forall i :: 0 <= i < |moves| ==> Possible(worlds[i], moves[i]) && worlds[i + 1] == After(worlds[i], moves[i])
  }

  ghost predicate IsPending(w: World, op: nat) {
    exists tag :: tag in w.q.pending && w.q.pending[tag] == op
  }

  ghost predicate IsCalled(w: World, op: nat) {
    exists i :: 0 <= i < |w.q.calls| && w.q.calls[i].op == op
  }

  /** The queue knows exactly what gRPC holds, each operation under one address that is in use. */
  ghost predicate PendingInv(w: World) {
    && !w.asserted && w.posted == w.q.pending
    && w.q.pending.Keys <= w.inUse && 0 !in w.inUse
    && (forall t :: t in w.q.pending ==> w.q.pending[t] < w.created && w.q.pending[t] !in w.results)
    && (forall t, u :: t in w.q.pending && u in w.q.pending && w.q.pending[t] == w.q.pending[u] ==> t == u)
  }

  /** Operations were called back once each, with their own results. */
  ghost predicate CallsInv(w: World) {
    && (forall i :: 0 <= i < |w.q.calls| ==>
          w.q.calls[i].op in w.results && w.results[w.q.calls[i].op] == w.q.calls[i].ok)
    && (forall i, j :: 0 <= i < j < |w.q.calls| ==> w.q.calls[i].op != w.q.calls[j].op)
    && (forall op :: op in w.results ==> IsCalled(w, op))
  }

  /** No operation is lost. */
  ghost predicate Accounted(w: World) {
    && (forall op :: op in w.results ==> op < w.created)
    && (forall op :: 0 <= op < w.created ==> op in w.results || IsPending(w, op))
  }

  ghost predicate Inv(w: World) {
    PendingInv(w) && CallsInv(w) && Accounted(w)
  }

  lemma PostKeepsInv(w: World, tag: Tag)
    requires Inv(w) && Possible(w, Posts(tag))
    ensures Inv(After(w, Posts(tag)))
  {
    var v := After(w, Posts(tag));
    assert v.q.pending[tag] == w.created;
    forall op | 0 <= op < v.created ensures op in v.results || IsPending(v, op) {
      if op < w.created && op !in w.results {
        var t :| t in w.q.pending && w.q.pending[t] == op;
        assert v.q.pending[t] == op;
      }
    }
    forall op | op in v.results ensures IsCalled(v, op) {
      assert IsCalled(w, op);
    }
  }

  lemma ReportKeepsCalls(w: World, tag: Tag, ok: bool)
    requires Inv(w) && Possible(w, Reports(tag, ok))
    ensures CallsInv(After(w, Reports(tag, ok)))
  {
    var v, op := After(w, Reports(tag, ok)), w.posted[tag];
    assert v.q.calls == w.q.calls + [Call(op, ok)];
    forall other | other in v.results ensures IsCalled(v, other) {
      if other == op {
        assert v.q.calls[|w.q.calls|].op == op;
      } else {
        assert IsCalled(w, other);
        var i :| 0 <= i < |w.q.calls| && w.q.calls[i].op == other;
        assert v.q.calls[i].op == other;
      }
    }
  }

  lemma ReportKeepsAccount(w: World, tag: Tag, ok: bool)
    requires Inv(w) && Possible(w, Reports(tag, ok))
    ensures Accounted(After(w, Reports(tag, ok)))
  {
    var v := After(w, Reports(tag, ok));
    forall other | 0 <= other < v.created ensures other in v.results || IsPending(v, other) {
      if other !in v.results {
        assert IsPending(w, other);
        var t :| t in w.q.pending && w.q.pending[t] == other;
        assert v.q.pending[t] == other;
      }
    }
  }

  lemma MoveKeepsInv(w: World, m: Move)
    requires Inv(w) && Possible(w, m)
    ensures Inv(After(w, m))
  {
    match m
    case Posts(tag) => PostKeepsInv(w, tag);
    case Reports(tag, ok) =>
      ReportKeepsCalls(w, tag, ok);
      ReportKeepsAccount(w, tag, ok);
    case _ => IdleKeepsInv(w, m);
  }

  lemma IdleKeepsInv(w: World, m: Move)
    requires Inv(w) && Possible(w, m) && !m.Posts? && !m.Reports?
    ensures Inv(After(w, m))
  {
    assert After(w, m).q.pending == w.q.pending && After(w, m).q.calls == w.q.calls;
    forall op | IsPending(w, op) ensures IsPending(After(w, m), op) {}
    forall op | IsCalled(w, op) ensures IsCalled(After(w, m), op) {}
  }

  lemma {:induction false} RunKeepsInv(worlds: seq<World>, moves: seq<Move>, k: nat)
    requires IsRun(worlds, moves) && k < |worlds|
    ensures Inv(worlds[k])
  {
    if k > 0 {
      RunKeepsInv(worlds, moves, k - 1);
      MoveKeepsInv(worlds[k - 1], moves[k - 1]);
    }
  }

  /** The loop waits for the next report as long as the queue is not shut down. */
  lemma {:induction false} RunsUntilShutdown(worlds: seq<World>, moves: seq<Move>, k: nat)
    requires IsRun(worlds, moves) && k < |worlds| && forall j :: 0 <= j < k ==> !moves[j].ShutsDown?
    ensures worlds[k].running && !worlds[k].q.shutdown
  {
    if k > 0 {
      RunsUntilShutdown(worlds, moves, k - 1);
    }
  }

  /** The assertion in register_op never fails, and every operation created so far is either pending, and not reported,
      or it was called back exactly once, with the result gRPC reported for it. */
  lemma ExactlyOnce(worlds: seq<World>, moves: seq<Move>, k: nat, op: nat)
    requires IsRun(worlds, moves) && k < |worlds| && op < worlds[k].created
    ensures !worlds[k].asserted
    ensures
      var w := worlds[k];
      if op in w.results then
        && !IsPending(w, op)
        && (exists i :: 0 <= i < |w.q.calls| && w.q.calls[i] == Call(op, w.results[op]))
        && (forall i, j :: 0 <= i < |w.q.calls| && 0 <= j < |w.q.calls| && w.q.calls[i].op == w.q.calls[j].op == op
              ==> i == j)
      else
        IsPending(w, op) && forall i :: 0 <= i < |w.q.calls| ==> w.q.calls[i].op != op
  {
    RunKeepsInv(worlds, moves, k);
    var w := worlds[k];
    if op in w.results {
      assert IsCalled(w, op);
      var i :| 0 <= i < |w.q.calls| && w.q.calls[i].op == op;
      assert w.q.calls[i] == Call(op, w.results[op]);
    }
  }

  /** A null or unknown tag changes nothing. */
  lemma UnknownTagIsIgnored(worlds: seq<World>, moves: seq<Move>, k: nat, tag: Tag, ok: bool)
    requires IsRun(worlds, moves) && k < |worlds| && (tag == 0 || tag !in worlds[k].posted)
    ensures Iterate(worlds[k].q, Completed(tag, ok)) == (worlds[k].q, true)
  {
    RunKeepsInv(worlds, moves, k);
  }
}
