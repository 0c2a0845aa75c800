/** An observer at work: every run of its callbacks over a store that others change. What the server sends follows from
    the requests the observer has posted, and the watch responses are cut into batches anywhere. */
module ObserverRuns {
  import opened ByteStrings
  import opened PrefixRange
  import opened Keys
  import opened Etcd
  import opened Observers
  import opened ObserverRefinement

  /** An operation in flight. The server may have answered a Range whose completion is not delivered yet. */
  datatype Pending =
    | RangePending(req: RangeRequest, answer: Option<RangeResponse>)
    | WatchPending(key: Bytes, rangeEnd: Bytes, startRevision: nat)
    | ReadPending

  /** The watch that the server keeps, with the number it gave to it. */
  datatype Watch = Watch(id: int, key: Bytes, rangeEnd: Bytes, startRevision: nat)

  datatype Scene = Scene(
    log: Log,
    o: Observer,
    started: bool,
    outstanding: seq<Pending>,
    cancels: seq<int>,               // the cancel requests in flight, by the watch they name
    watch: Option<Watch>,
    answer: Option<RangeResponse>,   // the answer to its Range, once the observer has it
    delivered: seq<Event>)           // the events the observer has processed

  datatype Move =
    | OthersChange(change: Change)
    | Starts
    | AnswerRange(i: nat, kvs: seq<KeyValue>)
    | RangeDone(i: nat, ok: bool)
    | WatchDone(i: nat, ok: bool, id: int)
    | EventsArrive(i: nat, batch: seq<Event>)
    | ReadEnds(i: nat, ok: bool, response: WatchResponse)    // failed, cancelled or compacted
    | Subscribes
    | Unsubscribes(token: int)
    | Cancels
    | CancelDone(i: nat)
    | ShutsDown

  function NewScene(log: Log, name: Bytes): Scene {
    Scene(log, NewObserver(name), false, [], [], None, None, [])
  }

  function Send(op: Op): Pending {
    match op
    case PostRange(req) => RangePending(req, None)
    case PostWatch(key, rangeEnd, startRevision) => WatchPending(key, rangeEnd, startRevision)
    case PostRead => ReadPending
  }

  function SendAll(posted: seq<Op>): seq<Pending> {
    seq(|posted|, i requires 0 <= i < |posted| => Send(posted[i]))
  }

  function Without<T>(s: seq<T>, i: nat): seq<T>
    requires i < |s|
  {
    s[..i] + s[i + 1..]
  }

  /** All that the watch reports of the revisions before `end`. */
  ghost function AllEvents(log: Log, w: Watch, end: nat): seq<Event>
    requires ValidLog(log) && 1 <= w.startRevision <= end <= Revision(log) + 1
  {
    Events(log, w.startRevision, end, w.key, w.rangeEnd)
  }

  ghost predicate Possible(s: Scene, m: Move) {
    match m
    case OthersChange(change) => ValidChange(Now(s.log), change)
    case Starts => !s.started
    case AnswerRange(i, kvs) =>
      && i < |s.outstanding| && s.outstanding[i].RangePending? && s.outstanding[i].answer.None?
      && IsAnswer(Now(s.log), s.outstanding[i].req, kvs)
    case RangeDone(i, ok) =>
      i < |s.outstanding| && s.outstanding[i].RangePending? && (ok ==> s.outstanding[i].answer.Some?)
    case WatchDone(i, ok, _) => i < |s.outstanding| && s.outstanding[i].WatchPending?
    case EventsArrive(i, batch) =>
      && i < |s.outstanding| && s.outstanding[i].ReadPending? && s.watch.Some?
      && ValidLog(s.log) && 1 <= s.watch.value.startRevision <= Revision(s.log) + 1
      && s.delivered + batch <= AllEvents(s.log, s.watch.value, Revision(s.log) + 1)
    case ReadEnds(i, ok, response) =>
      && i < |s.outstanding| && s.outstanding[i].ReadPending?
      && (!ok || response.canceled || response.compactRevision != 0)
    case Cancels => s.started
    case CancelDone(i) => i < |s.cancels|
    case _ => true
  }

  /** The effect of a callback that took operation i. */
  function Continue(s: Scene, i: nat, result: (Observer, seq<Op>)): Scene
    requires i < |s.outstanding|
  {
    s.(o := result.0, outstanding := Without(s.outstanding, i) + SendAll(result.1))
  }

  function StepStart(s: Scene): Scene {
    var (o, posted) := Discover(s.o);
    s.(o := o, started := true, outstanding := s.outstanding + SendAll(posted))
  }

  function StepAnswer(s: Scene, i: nat, kvs: seq<KeyValue>): Scene
    requires i < |s.outstanding| && s.outstanding[i].RangePending?
  {
    s.(outstanding := s.outstanding[i := s.outstanding[i].(answer := Some(RangeResponse(Revision(s.log), kvs)))])
  }

  function StepRange(s: Scene, i: nat, ok: bool): Scene
    requires i < |s.outstanding| && s.outstanding[i].RangePending? && (ok ==> s.outstanding[i].answer.Some?)
  {
    var response := if ok then s.outstanding[i].answer.value else RangeResponse(0, []);
    Continue(s, i, OnRangeRequest(s.o, ok, response)).(answer := if ok then Some(response) else s.answer)
  }

  function StepWatch(s: Scene, i: nat, ok: bool, id: int): Scene
    requires i < |s.outstanding| && s.outstanding[i].WatchPending?
  {
    var w := s.outstanding[i];
    Continue(s, i, OnWatchCreate(s.o, ok)).(
      watch := if ok then Some(Watch(id, w.key, w.rangeEnd, w.startRevision)) else s.watch)
  }

  function StepEvents(s: Scene, i: nat, batch: seq<Event>): Scene
    requires i < |s.outstanding| && s.watch.Some?
  {
    Continue(s, i, OnWatchRead(s.o, true, WatchResponse(false, 0, s.watch.value.id, batch))).(
      delivered := s.delivered + batch)
  }

  function StepCancel(s: Scene): Scene {
    var (o, requests) := CancelWatcher(s.o);
    s.(o := o, cancels := s.cancels + requests)
  }

  ghost function After(s: Scene, m: Move): Scene
    requires Possible(s, m)
  {
    match m
    case OthersChange(change) => s.(log := s.log + [change])
    case Starts => StepStart(s)
    case AnswerRange(i, kvs) => StepAnswer(s, i, kvs)
    case RangeDone(i, ok) => StepRange(s, i, ok)
    case WatchDone(i, ok, id) => StepWatch(s, i, ok, id)
    case EventsArrive(i, batch) => StepEvents(s, i, batch)
    case ReadEnds(i, ok, response) => Continue(s, i, OnWatchRead(s.o, ok, response))
    case Subscribes => s.(o := Subscribe(s.o).0)
    case Unsubscribes(token) => s.(o := Unsubscribe(s.o, token))
    case Cancels => StepCancel(s)
    case CancelDone(i) => s.(o := OnWatchCancel(s.o), cancels := Without(s.cancels, i))
    case ShutsDown => s.(o := s.o.(ops := s.o.ops.Shut()))
  }

  ghost predicate IsPath(scenes: seq<Scene>, moves: seq<Move>) {
    && |scenes| == |moves| + 1
    && forall i :: 0 <= i < |moves| ==> Possible(scenes[i], moves[i]) && scenes[i + 1] == After(scenes[i], moves[i])
  }

  ghost predicate IsRun(scenes: seq<Scene>, moves: seq<Move>) {
    && IsPath(scenes, moves)
    && ValidLog(scenes[0].log) && scenes[0] == NewScene(scenes[0].log, scenes[0].o.name)
  }

  // ---- what the subscribers were told ----------------------------------------------------------------------------

  /** What a subscriber was last told; a subscriber that was never called knows of no leader. */
  function LastNotice(calls: seq<Notice>): Notice {
    if calls == [] then Notice([], []) else calls[|calls| - 1]
  }

  ghost predicate Notified(o: Observer) {
    && (forall t :: t in o.received ==> t <= o.tokenGen)
    && (forall t :: t in o.subscriptions ==> t in o.received)
    && (forall t :: t in o.subscriptions ==> LastNotice(o.received[t]) == Leader(o.participants))
  }

  /** The key-value pair was created by the change that made its create revision. */
  predicate Created(log: Log, kv: KeyValue) {
    && 2 <= kv.createRevision <= Revision(log)
    && log[kv.createRevision - 2].PutKey? && log[kv.createRevision - 2].key == kv.key
  }

  ghost predicate FromLog(log: Log, m: Participants) {
    forall c :: c in m ==> Created(log, m[c]) && m[c].createRevision == c
  }

  ghost predicate EventsFromLog(log: Log, events: seq<Event>) {
    forall ev :: ev in events && ev.Put? ==> Created(log, ev.kv)
  }

  /** When an event reports no change of the leader, there is none. */
  lemma EventTells(log: Log, m: Participants, ev: Event)
    requires FromLog(log, m) && (ev.Put? ==> Created(log, ev.kv))
    ensures
      var (m', changed) := HandleEvent(m, ev);
      FromLog(log, m') && (!changed ==> Leader(m') == Leader(m))
  {
    var (m', changed) := HandleEvent(m, ev);
    if !changed && m' != m {
      match ev {
        case Put(kv) =>
          var c := kv.createRevision;
          if m != map[] {
            SameFirst(m, m', First(m'));
          }
        case Delete(kv) =>
          assert First(m) in m';
          SameFirst(m, m', First(m));
      }
    }
  }

  lemma SameFirst(m: Participants, m': Participants, c: nat)
    requires c in m && c in m' && First(m') == c
    requires First(m) == c || First(m) in m'
    ensures First(m) == First(m')
  {
  }

  lemma {:induction false} BatchTells(log: Log, m: Participants, events: seq<Event>)
    requires FromLog(log, m) && EventsFromLog(log, events)
    ensures
      var (m', changed) := HandleAll(m, events);
      FromLog(log, m') && (!changed ==> Leader(m') == Leader(m))
  {
    if events != [] {
      var init := events[..|events| - 1];
      assert forall ev :: ev in init ==> ev in events;
      BatchTells(log, m, init);
      EventTells(log, HandleAll(m, init).0, events[|events| - 1]);
    }
  }

  /** After a change of the participants, calling the subscribers, or not calling them because the leader is the same,
      leaves all of them up to date. */
  lemma CallsTell(o: Observer, m: Participants, changed: bool)
    requires Notified(o) && (!changed ==> Leader(m) == Leader(o.participants))
    ensures
      var o' := o.(participants := m);
      Notified(if changed then CallSubscribers(o') else o')
  {
  }

  // ---- the invariant ---------------------------------------------------------------------------------------------

  /** The request, or the watch, is on the whole election from the revision that the answer calls for. */
  predicate Follows(name: Bytes, response: RangeResponse, key: Bytes, rangeEnd: Bytes, startRevision: nat) {
    key == ElectionPrefix(name) && rangeEnd == EndOf(key) && startRevision == Start(response)
  }

  /** Until the observer has its answer it has nothing but the query in flight. */
  ghost predicate Asking(s: Scene) {
    && s.o.participants == map[] && s.delivered == [] && s.watch.None?
    && forall p :: p in s.outstanding ==>
         && p.RangePending? && p.req == LowestQuery(s.o.name)
         && (p.answer.Some? ==> Answered(s.log, s.o.name, p.answer.value))
  }

  /** From then on it has the watch, its request or a Read of it in flight. */
  predicate Requests(name: Bytes, response: RangeResponse, watch: Option<Watch>, p: Pending) {
    match p
    case RangePending(_, _) => false
    case WatchPending(key, rangeEnd, startRevision) =>
      watch.None? && Follows(name, response, key, rangeEnd, startRevision)
    case ReadPending => watch.Some?
  }

  ghost predicate Delivers(
    log: Log, name: Bytes, response: RangeResponse, watch: Option<Watch>, delivered: seq<Event>)
    requires ValidLog(log) && 1 <= Start(response) <= Revision(log)
  {
    match watch
    case None => delivered == []
    case Some(w) =>
      && Follows(name, response, w.key, w.rangeEnd, w.startRevision)
      && delivered <= AllEvents(log, w, Revision(log) + 1)
  }

  /** And it has replayed what the watch delivered. */
  ghost predicate Watching(s: Scene, response: RangeResponse) {
    && ValidLog(s.log) && Answered(s.log, s.o.name, response) && 1 <= Start(response) <= Revision(s.log)
    && (forall p :: p in s.outstanding ==> Requests(s.o.name, response, s.watch, p))
    && Delivers(s.log, s.o.name, response, s.watch, s.delivered)
    && s.o.participants == HandleAll(Initial(response), s.delivered).0
  }

  predicate Counts(s: Scene) {
    && |s.outstanding| <= 1 && s.o.ops.pending == |s.outstanding| + |s.cancels|
    && (!s.started ==> s.outstanding == [] && s.answer.None?)
  }

  ghost predicate Inv(s: Scene) {
    && ValidLog(s.log) && FromLog(s.log, s.o.participants) && Notified(s.o) && Counts(s)
    && (match s.answer
        case None => Asking(s)
        case Some(response) => Watching(s, response))
  }

  lemma EventsAreFromLog(
    log: Log, start: nat, end: nat, key: Bytes, rangeEnd: Bytes, ev: Event)
    requires ValidLog(log) && 1 <= start <= end <= Revision(log) + 1
    requires ev in Events(log, start, end, key, rangeEnd) && ev.Put?
    ensures Created(log, ev.kv)
  {
    var r := EventsOrigin(log, start, end, key, rangeEnd, ev);
    PutIsFromLog(log, r, key, rangeEnd, ev);
  }

  lemma PutIsFromLog(log: Log, r: nat, key: Bytes, rangeEnd: Bytes, ev: Event)
    requires ValidLog(log) && 1 <= r <= Revision(log) && ev in EventsAt(log, r, key, rangeEnd) && ev.Put?
    ensures Created(log, ev.kv)
  {
    AtStep(log, r);
    assert ValidAt(log, r);
    match log[r - 2] {
      case PutKey(k, _, _) => CreatedBy(log, r, k);
      case DeleteKeys(ks) => DeleteEventsAre(At(log, r - 1), ks, key, rangeEnd, ev);
    }
  }

  lemma EventsAtStable(log: Log, longer: Log, r: nat, key: Bytes, rangeEnd: Bytes)
    requires ValidLog(log) && ValidLog(longer) && log <= longer && 1 <= r <= Revision(log)
    ensures EventsAt(longer, r, key, rangeEnd) == EventsAt(log, r, key, rangeEnd)
  {
    AtStable(log, longer, r);
    if r > 1 {
      AtStable(log, longer, r - 1);
      assert log[r - 2] == longer[r - 2];
    }
  }

  lemma EventsStable(log: Log, longer: Log, start: nat, end: nat, key: Bytes, rangeEnd: Bytes)
    requires ValidLog(log) && ValidLog(longer) && log <= longer && 1 <= start <= end <= Revision(log) + 1
    ensures Events(longer, start, end, key, rangeEnd) == Events(log, start, end, key, rangeEnd)
  {
    var parts, others := EventLists(log, start, end, key, rangeEnd), EventLists(longer, start, end, key, rangeEnd);
    forall i | 0 <= i < |parts| ensures parts[i] == others[i] {
      EventsAtStable(log, longer, start + i, key, rangeEnd);
    }
    assert parts == others;
  }

  // ---- every move keeps it ---------------------------------------------------------------------------------------

  lemma SendOne(op: Op)
    ensures SendAll([op]) == [Send(op)]
  {
  }

  lemma ChangeKeepsInv(s: Scene, change: Change)
    requires Inv(s) && Possible(s, OthersChange(change))
    ensures Inv(After(s, OthersChange(change)))
  {
    ValidLogExtend(s.log, change);
    StillFromLog(s.log, change, s.o.participants);
    if s.answer.Some? {
      StillWatching(s, s.answer.value, change);
    } else {
      StillAsking(s, change);
    }
  }

  lemma StillFromLog(log: Log, change: Change, m: Participants)
    requires FromLog(log, m)
    ensures FromLog(log + [change], m)
  {
  }

  lemma StillAsking(s: Scene, change: Change)
    requires Asking(s)
    ensures Asking(s.(log := s.log + [change]))
  {
    forall p | p in s.outstanding && p.answer.Some?
      ensures Answered(s.log + [change], s.o.name, p.answer.value)
    {
      AnsweredStable(s.log, s.log + [change], s.o.name, p.answer.value);
    }
  }

  lemma StillWatching(s: Scene, response: RangeResponse, change: Change)
    requires Watching(s, response) && ValidLog(s.log + [change])
    ensures Watching(s.(log := s.log + [change]), response)
  {
    AnsweredStable(s.log, s.log + [change], s.o.name, response);
    StillDelivers(s.log, change, s.o.name, response, s.watch, s.delivered);
  }

  lemma StillDelivers(
    log: Log, change: Change, name: Bytes, response: RangeResponse, watch: Option<Watch>, delivered: seq<Event>)
    requires ValidLog(log) && ValidLog(log + [change]) && 1 <= Start(response) <= Revision(log)
    requires Delivers(log, name, response, watch, delivered)
    ensures Delivers(log + [change], name, response, watch, delivered)
  {
    if watch.Some? {
      var w, longer := watch.value, log + [change];
      EventsStable(log, longer, w.startRevision, Revision(log) + 1, w.key, w.rangeEnd);
      EventsStep(longer, w.startRevision, Revision(longer) + 1, w.key, w.rangeEnd);
    }
  }

  lemma AnsweredStable(log: Log, longer: Log, name: Bytes, response: RangeResponse)
    requires log <= longer && Answered(log, name, response)
    ensures Answered(longer, name, response)
  {
    AtStable(log, longer, response.revision);
  }

  lemma StartKeepsInv(s: Scene)
    requires Inv(s) && Possible(s, Starts)
    ensures Inv(After(s, Starts))
  {
    SendOne(PostRange(LowestQuery(s.o.name)));
  }

  lemma AnswerKeepsInv(s: Scene, i: nat, kvs: seq<KeyValue>)
    requires Inv(s) && Possible(s, AnswerRange(i, kvs))
    ensures Inv(After(s, AnswerRange(i, kvs)))
  {
    assert s.outstanding[i] in s.outstanding;
  }

  lemma RangeFailsKeepsInv(s: Scene, i: nat)
    requires Inv(s) && Possible(s, RangeDone(i, false))
    ensures Inv(After(s, RangeDone(i, false)))
  {
    assert After(s, RangeDone(i, false)).outstanding == [];
  }

  /** The watch that the callback of the Range posts. */
  lemma RangePosts(o: Observer, response: RangeResponse)
    requires |response.kvs| <= 1
    ensures
      var (o', posted) := OnRangeRequest(o, true, response);
      && o'.ops == o.ops.Done().Start() && o'.subscriptions == o.subscriptions && o'.tokenGen == o.tokenGen
      && posted == if o.ops.shutdown then []
                   else [PostWatch(ElectionPrefix(o.name), EndOf(ElectionPrefix(o.name)), Start(response))]
  {
    if response.kvs != [] {
      var (o1, _) := CreateWatcher(o.(ops := o.ops.Done()), Start(response));
      ReportLeavesRest(o1, response.kvs[0]);
    }
  }

  lemma ReportLeavesRest(o: Observer, kv: KeyValue)
    ensures
      var o' := ReportLeader(o, kv);
      o'.ops == o.ops && o'.subscriptions == o.subscriptions && o'.tokenGen == o.tokenGen
  {
  }

  /** The first answer puts the leader, if there is one, among the participants and tells the subscribers. */
  lemma FirstAnswerTells(log: Log, o: Observer, response: RangeResponse)
    requires Notified(o) && o.participants == map[] && |response.kvs| <= 1
    requires response.kvs != [] ==> Created(log, response.kvs[0])
    ensures
      var o' := OnRangeRequest(o, true, response).0;
      && o'.participants == Initial(response) && FromLog(log, Initial(response))
      && Notified(o') && o'.name == o.name
  {
    if response.kvs != [] {
      var kv := response.kvs[0];
      var (m, changed) := HandlePut(map[], kv);
      assert m == Initial(response);
      EventTells(log, map[], Put(kv));
      CallsTell(CreateWatcher(o.(ops := o.ops.Done()), Start(response)).0, m, changed);
    }
  }

  lemma RangeKeepsInv(s: Scene, i: nat)
    requires Inv(s) && Possible(s, RangeDone(i, true))
    ensures Inv(After(s, RangeDone(i, true)))
  {
    assert s.outstanding[i] in s.outstanding;
    var response := s.outstanding[i].answer.value;
    AnswerIsFirst(s.log, s.o.name, response);
    if response.kvs != [] {
      CreatedBy(s.log, response.revision, response.kvs[0].key);
    }
    FirstAnswerTells(s.log, s.o, response);
    RangePosts(s.o, response);
    RangeIsProcessed(s, i, response, After(s, RangeDone(i, true)));
  }

  lemma RangeIsProcessed(s: Scene, i: nat, response: RangeResponse, t: Scene)
    requires |s.outstanding| == 1 && i == 0 && s.watch.None? && s.delivered == []
    requires ValidLog(s.log) && Answered(s.log, s.o.name, response) && 1 <= Start(response) <= Revision(s.log)
    requires t == Continue(s, i, OnRangeRequest(s.o, true, response)).(answer := Some(response))
    requires t.o.participants == Initial(response) && t.o.name == s.o.name
    requires
      var posted := OnRangeRequest(s.o, true, response).1;
      posted == [] || posted == [PostWatch(ElectionPrefix(s.o.name), EndOf(ElectionPrefix(s.o.name)), Start(response))]
    ensures Watching(t, response)
  {
    SendOne(PostWatch(ElectionPrefix(s.o.name), EndOf(ElectionPrefix(s.o.name)), Start(response)));
    assert HandleAll(Initial(response), []) == (Initial(response), false);
    assert Without(s.outstanding, 0) == [];
  }

  /** What the completion of the request for the watch does. */
  predicate WatchEffect(s: Scene, w: Pending, ok: bool, id: int, t: Scene)
    requires w.WatchPending?
  {
    t == s.(
      o := s.o.(ops := if ok then s.o.ops.Done().Start() else s.o.ops.Done()),
      outstanding := if !ok || s.o.ops.shutdown then [] else [ReadPending],
      watch := if ok then Some(Watch(id, w.key, w.rangeEnd, w.startRevision)) else s.watch)
  }

  lemma WatchPosts(s: Scene, i: nat, ok: bool, id: int)
    requires |s.outstanding| == 1 && i == 0 && s.outstanding[0].WatchPending?
    ensures WatchEffect(s, s.outstanding[0], ok, id, StepWatch(s, i, ok, id))
  {
    assert Without(s.outstanding, 0) == [];
    SendOne(PostRead);
  }

  lemma WatchIsProcessed(s: Scene, response: RangeResponse, w: Pending, ok: bool, id: int, t: Scene)
    requires Watching(s, response) && w.WatchPending? && w in s.outstanding && WatchEffect(s, w, ok, id, t)
    ensures Watching(t, response)
  {
  }

  lemma WatchKeepsInv(s: Scene, i: nat, ok: bool, id: int)
    requires Inv(s) && Possible(s, WatchDone(i, ok, id))
    ensures Inv(After(s, WatchDone(i, ok, id)))
  {
    var t := After(s, WatchDone(i, ok, id));
    assert s.outstanding[i] in s.outstanding;
    WatchPosts(s, i, ok, id);
    WatchIsProcessed(s, s.answer.value, s.outstanding[0], ok, id, t);
    StillNotified(s.o, t.o);
  }

  /** The observer knows what it knew, and has the same subscribers. */
  predicate Quiet(o: Observer, o': Observer) {
    o' == o.(ops := o'.ops, watchId := o'.watchId)
  }

  lemma StillNotified(o: Observer, o': Observer)
    requires Notified(o) && Quiet(o, o')
    ensures Notified(o')
  {
  }

  lemma BatchIsFromLog(log: Log, w: Watch, delivered: seq<Event>, batch: seq<Event>)
    requires ValidLog(log) && 1 <= w.startRevision <= Revision(log) + 1
    requires delivered + batch <= AllEvents(log, w, Revision(log) + 1)
    ensures EventsFromLog(log, batch)
  {
    forall ev | ev in batch && ev.Put? ensures Created(log, ev.kv) {
      assert ev in delivered + batch;
      EventsAreFromLog(log, w.startRevision, Revision(log) + 1, w.key, w.rangeEnd, ev);
    }
  }

  lemma BatchKeepsNotified(o: Observer, batch: seq<Event>, id: int, log: Log)
    requires Notified(o) && FromLog(log, o.participants) && EventsFromLog(log, batch)
    ensures
      var o' := OnWatchRead(o, true, WatchResponse(false, 0, id, batch)).0;
      && Notified(o') && o'.participants == HandleAll(o.participants, batch).0 && o'.name == o.name
  {
    var (m, changed) := HandleAll(o.participants, batch);
    BatchTells(log, o.participants, batch);
    CallsTell(o.(ops := o.ops.Done(), watchId := id), m, changed);
  }

  lemma EventsKeepInv(s: Scene, i: nat, batch: seq<Event>)
    requires Inv(s) && Possible(s, EventsArrive(i, batch))
    ensures Inv(After(s, EventsArrive(i, batch)))
  {
    assert s.outstanding[i] in s.outstanding;
    BatchIsFromLog(s.log, s.watch.value, s.delivered, batch);
    BatchTells(s.log, s.o.participants, batch);
    BatchKeepsNotified(s.o, batch, s.watch.value.id, s.log);
    BatchPosts(s.o, batch, s.watch.value.id);
    EventsAreProcessed(s, s.answer.value, i, batch, After(s, EventsArrive(i, batch)));
  }

  lemma EventsAreProcessed(s: Scene, response: RangeResponse, i: nat, batch: seq<Event>, t: Scene)
    requires Watching(s, response) && |s.outstanding| == 1 && i == 0 && s.watch.Some?
    requires s.delivered + batch <= AllEvents(s.log, s.watch.value, Revision(s.log) + 1)
    requires t == s.(o := t.o, outstanding := t.outstanding, delivered := s.delivered + batch)
    requires t.o.name == s.o.name && t.o.participants == HandleAll(s.o.participants, batch).0
    requires t.outstanding == [] || t.outstanding == [ReadPending]
    ensures Watching(t, response)
  {
    HandleAppend(Initial(response), s.delivered, batch);
  }

  lemma BatchPosts(o: Observer, batch: seq<Event>, id: int)
    ensures
      var (o', posted) := OnWatchRead(o, true, WatchResponse(false, 0, id, batch));
      && o'.ops == o.ops.Done().Start() && posted == (if o.ops.shutdown then [] else [PostRead])
      && SendAll(posted) == if o.ops.shutdown then [] else [ReadPending]
  {
    SendOne(PostRead);
  }

  lemma ReadEndsKeepsInv(s: Scene, i: nat, ok: bool, response: WatchResponse)
    requires Inv(s) && Possible(s, ReadEnds(i, ok, response))
    ensures Inv(After(s, ReadEnds(i, ok, response)))
  {
    assert After(s, ReadEnds(i, ok, response)).outstanding == [];
  }

  lemma SubscribeTells(o: Observer)
    requires Notified(o)
    ensures
      var o' := Subscribe(o).0;
      o'.name == o.name && o'.participants == o.participants && Notified(o')
  {
    var token := o.tokenGen + 1;
    assert token !in o.subscriptions;
  }

  lemma UnsubscribeTells(o: Observer, token: int)
    requires Notified(o)
    ensures
      var o' := Unsubscribe(o, token);
      o'.name == o.name && o'.participants == o.participants && Notified(o')
  {
  }

  /** Subscribing, cancelling the watch and shutting down leave what the observer follows alone. */
  lemma AsideKeepsInv(s: Scene, t: Scene)
    requires Inv(s) && t == s.(o := t.o, cancels := t.cancels) && Notified(t.o)
    requires t.o.participants == s.o.participants && t.o.name == s.o.name
    requires t.o.ops.pending - |t.cancels| == s.o.ops.pending - |s.cancels|
    ensures Inv(t)
  {
  }

  lemma ApplicationKeepsInv(s: Scene, m: Move)
    requires Inv(s) && Possible(s, m)
    requires m.Subscribes? || m.Unsubscribes? || m.Cancels? || m.CancelDone? || m.ShutsDown?
    ensures Inv(After(s, m))
  {
    if m.Subscribes? {
      SubscribeTells(s.o);
    } else if m.Unsubscribes? {
      UnsubscribeTells(s.o, m.token);
    }
    AsideKeepsInv(s, After(s, m));
  }

  lemma MoveKeepsInv(s: Scene, m: Move)
    requires Inv(s) && Possible(s, m)
    ensures Inv(After(s, m))
  {
    if m.OthersChange? {
      ChangeKeepsInv(s, m.change);
    } else if m.Starts? {
      StartKeepsInv(s);
    } else if m.AnswerRange? {
      AnswerKeepsInv(s, m.i, m.kvs);
    } else if m.RangeDone? && m.ok {
      RangeKeepsInv(s, m.i);
    } else if m.RangeDone? {
      RangeFailsKeepsInv(s, m.i);
    } else if m.WatchDone? {
      WatchKeepsInv(s, m.i, m.ok, m.id);
    } else if m.EventsArrive? {
      EventsKeepInv(s, m.i, m.batch);
    } else if m.ReadEnds? {
      ReadEndsKeepsInv(s, m.i, m.ok, m.response);
    } else {
      ApplicationKeepsInv(s, m);
    }
  }

  lemma {:induction false} RunKeepsInv(scenes: seq<Scene>, moves: seq<Move>, k: nat)
    requires IsRun(scenes, moves) && k < |scenes|
    ensures Inv(scenes[k])
  {
    if k > 0 {
      RunKeepsInv(scenes, moves, k - 1);
      MoveKeepsInv(scenes[k - 1], moves[k - 1]);
    }
  }

  // ---- refinement ------------------------------------------------------------------------------------------------

  /** The observer has processed all that its watch reports up to and including revision r, which is not before its
      Range. */
  ghost predicate CaughtUp(s: Scene, r: nat) {
    && ValidLog(s.log) && s.watch.Some? && s.answer.Some? && s.answer.value.revision <= r <= Revision(s.log)
    && 1 <= s.watch.value.startRevision <= r + 1 && s.delivered == AllEvents(s.log, s.watch.value, r + 1)
  }

  /** A caught-up observer's participants are exactly the live nodes of the election. */
  lemma ObserverRefinesStore(scenes: seq<Scene>, moves: seq<Move>, k: nat, r: nat)
    requires IsRun(scenes, moves) && k < |scenes| && CaughtUp(scenes[k], r)
    ensures 1 <= r <= Revision(scenes[k].log)
    ensures IsIndex(scenes[k].log, r, scenes[k].o.name, scenes[k].o.participants)
  {
    RunKeepsInv(scenes, moves, k);
    CaughtUpIsIndex(scenes[k], r);
  }

  lemma CaughtUpIsIndex(s: Scene, r: nat)
    requires Inv(s) && CaughtUp(s, r)
    ensures 1 <= r <= Revision(s.log) && IsIndex(s.log, r, s.o.name, s.o.participants)
  {
    ReplayIsIndex(s.log, s.o.name, s.answer.value, r);
  }

  ghost predicate HasNode(live: Live, name: Bytes) {
    exists key :: key in live && InElection(name, key)
  }

  /** A caught-up observer names a leader exactly if the election has a live node, and throws otherwise. The leader is
      the live node that was created first. */
  lemma CurrentLeaderIff(scenes: seq<Scene>, moves: seq<Move>, k: nat, r: nat)
    requires IsRun(scenes, moves) && k < |scenes| && CaughtUp(scenes[k], r)
    ensures 1 <= r <= Revision(scenes[k].log)
    ensures
      var live, o := At(scenes[k].log, r), scenes[k].o;
      && (CurrentKey(o).Some? <==> HasNode(live, o.name))
      && (CurrentValue(o).Some? <==> HasNode(live, o.name))
      && forall key :: CurrentKey(o) == Some(key) ==>
           && key in live && InElection(o.name, key) && CurrentValue(o) == Some(live[key].value)
           && forall other :: other in live && InElection(o.name, other) ==>
                live[key].createRevision <= live[other].createRevision
  {
    ObserverRefinesStore(scenes, moves, k, r);
    var live, o := At(scenes[k].log, r), scenes[k].o;
    if o.participants != map[] {
      var first := First(o.participants);
      assert o.participants[first].key in live;
    }
  }
}
