/** An observer that has started and met no fault: its own completions can always bring it up to date with the store,
    and an observer that has been cleaned up has nothing in flight. */
module Listening {
  import opened Etcd
  import opened Observers
  import opened ObserverRefinement
  import opened ObserverRuns
  import opened Runs

  /** Neither an operation of the observer fails or ends its watch, nor is it cleaned up. */
  predicate Faultless(m: Move) {
    match m
    case RangeDone(_, ok) => ok
    case WatchDone(_, ok, _) => ok
    case ReadEnds(_, _, _) => false
    case ShutsDown => false
    case _ => true
  }

  /** The server answers the observer's query, or one of its operations completes. */
  predicate OwnCompletion(m: Move) {
    m.AnswerRange? || m.RangeDone? || m.WatchDone? || m.EventsArrive?
  }

  /** One operation is in flight: the query, the request for the watch, or a Read. */
  ghost predicate Listens(s: Scene) {
    Inv(s) && s.started && !s.o.ops.shutdown && |s.outstanding| == 1
  }

  lemma StartListens(s: Scene)
    requires Inv(s) && Possible(s, Starts) && !s.o.ops.shutdown
    ensures Listens(After(s, Starts))
  {
    MoveKeepsInv(s, Starts);
    SendOne(PostRange(LowestQuery(s.o.name)));
  }

  /** Its state, except for what it knows. */
  predicate HasOne(s: Scene) {
    s.started && !s.o.ops.shutdown && |s.outstanding| == 1
  }

  lemma RangeLeavesOne(s: Scene, i: nat)
    requires HasOne(s) && i == 0 && s.outstanding[0].RangePending? && s.outstanding[0].answer.Some?
    requires |s.outstanding[0].answer.value.kvs| <= 1
    ensures HasOne(StepRange(s, i, true)) && StepRange(s, i, true).outstanding[0].WatchPending?
  {
    RangePosts(s.o, s.outstanding[0].answer.value);
  }

  lemma EventsLeaveOne(s: Scene, i: nat, batch: seq<Event>)
    requires HasOne(s) && i == 0 && s.watch.Some?
    ensures HasOne(StepEvents(s, i, batch))
  {
    BatchPosts(s.o, batch, s.watch.value.id);
  }

  lemma RestLeavesOne(s: Scene, m: Move)
    requires HasOne(s) && Possible(s, m) && Faultless(m) && !m.RangeDone? && !m.EventsArrive?
    ensures HasOne(After(s, m))
  {
  }

  lemma StillListens(s: Scene, m: Move)
    requires Listens(s) && Possible(s, m) && Faultless(m)
    ensures Listens(After(s, m))
  {
    MoveKeepsInv(s, m);
    if m.RangeDone? {
      AnswerIsShort(s);
      RangeLeavesOne(s, m.i);
    } else if m.EventsArrive? {
      EventsLeaveOne(s, m.i, m.batch);
    } else {
      RestLeavesOne(s, m);
    }
  }

  lemma AnswerIsShort(s: Scene)
    requires Inv(s) && s.outstanding != [] && s.outstanding[0].RangePending? && s.outstanding[0].answer.Some?
    ensures |s.outstanding[0].answer.value.kvs| <= 1
  {
    assert s.outstanding[0] in s.outstanding;
  }

  /** Started before it was cleaned up, and without faults since, the observer has one operation in flight. */
  lemma KeepsListening(scenes: seq<Scene>, moves: seq<Move>, j: nat, k: nat)
    requires IsRun(scenes, moves) && j < k < |scenes| && moves[j].Starts? && !scenes[j].o.ops.shutdown
    requires forall i :: j < i < k ==> Faultless(moves[i])
    ensures Listens(scenes[k])
  {
    RunKeepsInv(scenes, moves, j);
    StartListens(scenes[j]);
    var listens := (s: Scene) => Listens(s);
    forall i | j + 1 <= i < k && listens(scenes[i]) ensures listens(scenes[i + 1]) {
      StillListens(scenes[i], moves[i]);
    }
    Carries(scenes, listens, j + 1, k);
  }

  // ---- catching up -----------------------------------------------------------------------------------------------

  /** The completion that comes next. */
  ghost predicate Brings(s: Scene, m: Move, t: Scene) {
    Possible(s, m) && OwnCompletion(m) && t == After(s, m) && Listens(t) && t.log == s.log
  }

  lemma AnswerComes(s: Scene) returns (m: Move, t: Scene)
    requires Listens(s) && s.outstanding[0].RangePending? && s.outstanding[0].answer.None?
    ensures Brings(s, m, t) && t.outstanding[0].RangePending? && t.outstanding[0].answer.Some?
  {
    var kvs := RangeHasAnswer(Now(s.log), s.outstanding[0].req);
    m := AnswerRange(0, kvs);
    t := After(s, m);
    StillListens(s, m);
  }

  lemma RangeComes(s: Scene) returns (m: Move, t: Scene)
    requires Listens(s) && s.outstanding[0].RangePending? && s.outstanding[0].answer.Some?
    ensures Brings(s, m, t) && t.outstanding[0].WatchPending?
  {
    AnswerIsShort(s);
    m := RangeDone(0, true);
    t := After(s, m);
    StillListens(s, m);
    RangeLeavesOne(s, 0);
  }

  lemma WatchComes(s: Scene) returns (m: Move, t: Scene)
    requires Listens(s) && s.outstanding[0].WatchPending?
    ensures Brings(s, m, t) && t.outstanding[0].ReadPending?
  {
    m := WatchDone(0, true, 0);
    t := After(s, m);
    StillListens(s, m);
    SendOne(PostRead);
  }

  lemma RemainingEvents(log: Log, w: Watch, delivered: seq<Event>) returns (batch: seq<Event>)
    requires ValidLog(log) && 1 <= w.startRevision <= Revision(log) + 1
    requires delivered <= AllEvents(log, w, Revision(log) + 1)
    ensures delivered + batch == AllEvents(log, w, Revision(log) + 1)
  {
    batch := AllEvents(log, w, Revision(log) + 1)[|delivered|..];
  }

  /** All the events that are left, in one response. */
  lemma AllEventsCome(s: Scene, response: RangeResponse) returns (batch: seq<Event>)
    requires s.answer == Some(response) && Watching(s, response)
    requires |s.outstanding| == 1 && s.outstanding[0].ReadPending?
    ensures Possible(s, EventsArrive(0, batch)) && CaughtUp(StepEvents(s, 0, batch), Revision(s.log))
  {
    assert s.outstanding[0] in s.outstanding;
    AnswerIsFirst(s.log, s.o.name, response);
    batch := RemainingEvents(s.log, s.watch.value, s.delivered);
  }

  lemma EventsCome(s: Scene) returns (m: Move, t: Scene)
    requires Listens(s) && s.outstanding[0].ReadPending?
    ensures Brings(s, m, t) && KnowsAll(t)
  {
    assert s.outstanding[0] in s.outstanding;
    var batch := AllEventsCome(s, s.answer.value);
    m := EventsArrive(0, batch);
    t := After(s, m);
    StillListens(s, m);
    CaughtUpIsIndex(t, Revision(t.log));
  }

  /** The participants are the live nodes of the election, here and now. */
  ghost predicate KnowsAll(s: Scene) {
    IsIndex(s.log, Revision(s.log), s.o.name, s.o.participants)
  }

  ghost predicate Succeeds(s: Scene, t: Scene) {
    exists m: Move :: Brings(s, m, t)
  }

  /** So many completions of the observer's own operations, and nothing else, lead from s to t. */
  ghost predicate Reaches(s: Scene, t: Scene, n: nat) {
    InSteps(Succeeds, s, t, n)
  }

  lemma CompletionReaches(s: Scene, m: Move, t: Scene)
    requires Brings(s, m, t)
    ensures Reaches(s, t, 1)
  {
    assert Succeeds(s, t);
    OneStep(Succeeds, s, t);
  }

  /** So many completions lead to a state in which the observer knows the live nodes of the store, which is the same. */
  ghost predicate CatchesUp(s: Scene, t: Scene, n: nat) {
    Reaches(s, t, n) && t.log == s.log && KnowsAll(t)
  }

  lemma ThenCatchesUp(s: Scene, m: Move, u: Scene, t: Scene, n: nat)
    requires Brings(s, m, u) && CatchesUp(u, t, n)
    ensures CatchesUp(s, t, n + 1)
  {
    CompletionReaches(s, m, u);
    StepsCompose(Succeeds, s, u, t, 1, n);
  }

  lemma ReaderCatchesUp(s: Scene) returns (t: Scene)
    requires Listens(s) && s.outstanding[0].ReadPending?
    ensures CatchesUp(s, t, 1)
  {
    var m;
    m, t := EventsCome(s);
    CompletionReaches(s, m, t);
  }

  lemma WatcherCatchesUp(s: Scene) returns (t: Scene)
    requires Listens(s) && s.outstanding[0].WatchPending?
    ensures CatchesUp(s, t, 2)
  {
    var m, u := WatchComes(s);
    t := ReaderCatchesUp(u);
    ThenCatchesUp(s, m, u, t, 1);
  }

  lemma AnsweredCatchesUp(s: Scene) returns (t: Scene)
    requires Listens(s) && s.outstanding[0].RangePending? && s.outstanding[0].answer.Some?
    ensures CatchesUp(s, t, 3)
  {
    var m, u := RangeComes(s);
    t := WatcherCatchesUp(u);
    ThenCatchesUp(s, m, u, t, 2);
  }

  lemma AskerCatchesUp(s: Scene) returns (t: Scene)
    requires Listens(s) && s.outstanding[0].RangePending? && s.outstanding[0].answer.None?
    ensures CatchesUp(s, t, 4)
  {
    var m, u := AnswerComes(s);
    t := AnsweredCatchesUp(u);
    ThenCatchesUp(s, m, u, t, 3);
  }

  lemma ListenerCatchesUp(s: Scene) returns (t: Scene, n: nat)
    requires Listens(s)
    ensures n <= 4 && CatchesUp(s, t, n)
  {
    if s.outstanding[0].ReadPending? {
      t := ReaderCatchesUp(s);
      n := 1;
    } else if s.outstanding[0].WatchPending? {
      t := WatcherCatchesUp(s);
      n := 2;
    } else if s.outstanding[0].answer.Some? {
      t := AnsweredCatchesUp(s);
      n := 3;
    } else {
      t := AskerCatchesUp(s);
      n := 4;
    }
  }

  /** Started before it was cleaned up, and without faults since, at most four completions of its own bring the observer
      up to date with the store as it is then: its participants are the live nodes of the election. */
  lemma CanCatchUp(scenes: seq<Scene>, moves: seq<Move>, j: nat, k: nat) returns (t: Scene, n: nat)
    requires IsRun(scenes, moves) && j < k < |scenes| && moves[j].Starts? && !scenes[j].o.ops.shutdown
    requires forall i :: j < i < k ==> Faultless(moves[i])
    ensures n <= 4 && CatchesUp(scenes[k], t, n)
  {
    KeepsListening(scenes, moves, j, k);
    t, n := ListenerCatchesUp(scenes[k]);
  }

  // ---- cancelling ------------------------------------------------------------------------------------------------

  /** The observer knows the number of its watch. */
  ghost predicate KnowsWatch(s: Scene) {
    s.watch.Some? && s.answer.Some? && s.o.watchId == s.watch.value.id
  }

  lemma StillKnowsWatch(s: Scene, m: Move)
    requires Inv(s) && Possible(s, m) && KnowsWatch(s)
    ensures KnowsWatch(After(s, m))
  {
    assert forall i :: 0 <= i < |s.outstanding| ==> s.outstanding[i] in s.outstanding;
  }

  lemma ResponseTellsWatch(s: Scene, i: nat, batch: seq<Event>)
    requires Inv(s) && Possible(s, EventsArrive(i, batch))
    ensures KnowsWatch(After(s, EventsArrive(i, batch)))
  {
    assert s.outstanding[i] in s.outstanding;
  }

  lemma KeepsKnowingWatch(scenes: seq<Scene>, moves: seq<Move>, j: nat, k: nat)
    requires IsRun(scenes, moves) && j < k < |scenes| && moves[j].EventsArrive?
    ensures KnowsWatch(scenes[k])
  {
    RunKeepsInv(scenes, moves, j);
    ResponseTellsWatch(scenes[j], moves[j].i, moves[j].batch);
    forall i | j + 1 <= i < k && KnowsWatch(scenes[i]) ensures KnowsWatch(scenes[i + 1]) {
      RunKeepsInv(scenes, moves, i);
      StillKnowsWatch(scenes[i], moves[i]);
    }
    Carries(scenes, KnowsWatch, j + 1, k);
  }

  /** Once a response has come in, a request to cancel names the watch that the server keeps. */
  lemma CancelNamesWatch(scenes: seq<Scene>, moves: seq<Move>, j: nat, k: nat)
    requires IsRun(scenes, moves) && j < k < |moves| && moves[j].EventsArrive? && moves[k].Cancels?
    ensures scenes[k].watch.Some?
    ensures scenes[k + 1].cancels ==
              scenes[k].cancels + if scenes[k].o.ops.shutdown then [] else [scenes[k].watch.value.id]
  {
    KeepsKnowingWatch(scenes, moves, j, k);
    assert scenes[k + 1] == StepCancel(scenes[k]);
  }

  // ---- cleaning up -----------------------------------------------------------------------------------------------

  /** Once the observer is cleaned up, which it is when its counter is shut down and at zero, nothing that calls back
      into it is in flight, then and ever after. */
  lemma DrainedIsFinal(scenes: seq<Scene>, moves: seq<Move>, j: nat, k: nat)
    requires IsRun(scenes, moves) && j <= k < |scenes| && scenes[j].o.ops.Drained()
    ensures scenes[k].o.ops.Drained() && scenes[k].outstanding == [] && scenes[k].cancels == []
  {
    var drained := (s: Scene) => Inv(s) && s.o.ops.Drained();
    RunKeepsInv(scenes, moves, j);
    forall i | j <= i < k && drained(scenes[i]) ensures drained(scenes[i + 1]) {
      MoveKeepsInv(scenes[i], moves[i]);
    }
    Carries(scenes, drained, j, k);
  }
}
