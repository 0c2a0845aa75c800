/** A candidate's campaign against an etcd server: the operations it has in flight, the watches the server keeps for
    it, and what holds at every step. */
module Campaign {
  import opened ByteStrings
  import opened Keys
  import opened Etcd
  import opened Candidates

  /** An operation in flight. The server may have answered a Range whose completion is not delivered yet. */
  datatype Pending =
    | RangePending(req: RangeRequest, answer: Option<RangeResponse>)
    | WritePending(key: Bytes, startRevision: nat)
    | ReadPending(watchedKey: Bytes, watchRevision: nat)

  /** A watch on one key; the events of the revisions from `next` on are still to be delivered, as long as it is open.
      The response that reports it cancelled or compacted is its last. */
  datatype Watch = Watch(key: Bytes, next: nat, open: bool)

  datatype Phase = Fresh | Publishing | Ready | Campaigning | Failed

  /** A watched predecessor as the Range at `revision` reported it. */
  datatype Sighting = Sighting(createRevision: nat, revision: nat)

  /** What happened so far. The candidate does not keep any of this; the properties speak about it. */
  datatype History = History(
    queries: nat,                      // Range requests issued
    cancels: nat,                      // watch responses that report a cancelled or compacted watch
    cancelledRanges: nat,              // Range requests that completed with ok == false
    predecessorsAtCreation: nat,
    latest: Option<Bytes>,             // the predecessor in the last answer, until the next query
    sightings: map<Bytes, Sighting>,   // one for each watched key
    electedAt: Option<nat>,            // the revision of the Range that won
    clean: bool)                       // no cancel, failed operation, missing previous value or shutdown so far

  datatype Client = Client(
    cs: Candidate, phase: Phase, outstanding: seq<Pending>, watches: seq<Watch>, drain: Drain, tracers: nat,
    history: History)

  function NewClient(name: Bytes, leaseId: LeaseId, value: Bytes): Client {
    Client(NewCandidate(name, leaseId, value), Fresh, [], [], NotDraining, 0,
           History(0, 0, 0, 0, None, map[], None, true))
  }

  datatype Action =
    | CreateNode
    | PublishNode
    | RpcFails(applied: bool)                // a blocking transaction throws, whether or not the server ran it
    | BeginCampaign
    | ProclaimValue(value: Bytes, replyLost: bool)
    | AnswerRange(i: nat, kvs: seq<KeyValue>)
    | RangeDone(i: nat, ok: bool)
    | WriteDone(i: nat, ok: bool)
    | ReadFails(i: nat)
    | ReadDone(i: nat, delivery: Delivery)
    | TracerStarts | TracerEnds
    | ResignBegins | ResignShutsReads | ResignEnds
    | CleanupBegins | CleanupShutsReads | CleanupEnds

  /** A watch response: the events of watch `watch` for the revisions before `upTo`, with any flags. */
  datatype Delivery = Delivery(
    watch: nat, upTo: nat, created: bool, canceled: bool, compactRevision: int, prevKv: bool)
  {
    predicate Cancels() {
      canceled || compactRevision != 0
    }
  }

  function Send(op: Op): Pending {
    match op
    case PostRange(req) => RangePending(req, None)
    case PostWatch(k, r) => WritePending(k, r)
    case PostRead(k, r) => ReadPending(k, r)
  }

  function SendAll(posted: seq<Op>): seq<Pending> {
    seq(|posted|, i requires 0 <= i < |posted| => Send(posted[i]))
  }

  function Without(outstanding: seq<Pending>, i: nat): seq<Pending>
    requires i < |outstanding|
  {
    outstanding[..i] + outstanding[i + 1..]
  }

  /** The nodes of the election that come before the candidate's. */
  function Predecessors(live: Live, place: Place): set<Bytes> {
    set k | k in live && InElection(place.name, k) && live[k].createRevision < place.creationRevision
  }

  function AfterDelivery(watches: seq<Watch>, d: Delivery): seq<Watch>
    requires d.watch < |watches|
  {
    watches[d.watch := watches[d.watch].(next := d.upTo, open := !d.Cancels())]
  }

  function NextTxn(c: Client): Txn {
    if c.phase.Fresh? then CreateTxn(c.cs) else PublishTxn(c.cs, c.cs.value, DeleteOnFailure)
  }

  /** Events lose what the key held before when that revision was compacted. */
  function Strip(events: seq<Event>): seq<Event> {
    seq(|events|, i requires 0 <= i < |events| =>
      if events[i].Delete? then Delete(KeyValue([], [], 0)) else events[i])
  }

  ghost function Deliver(log: Log, c: Client, d: Delivery): WatchResponse
    requires ValidLog(log) && d.watch < |c.watches|
    requires 1 <= c.watches[d.watch].next <= d.upTo <= Revision(log) + 1
  {
    var w := c.watches[d.watch];
    var events := Events(log, w.next, d.upTo, w.key, []);
    WatchResponse(d.created, d.canceled, d.compactRevision, d.watch, if d.prevKv then events else Strip(events))
  }

  ghost predicate Enabled(log: Log, c: Client, a: Action) {
    match a
    case CreateNode => c.phase.Fresh? && !c.cs.ops.shutdown
    case PublishNode => c.phase.Publishing? && !c.cs.ops.shutdown
    case RpcFails(_) => c.phase.Fresh? || c.phase.Publishing?
    case BeginCampaign => c.phase.Ready?
    case ProclaimValue(_, _) => !c.cs.ops.shutdown
    case AnswerRange(i, kvs) =>
      && i < |c.outstanding| && c.outstanding[i].RangePending? && c.outstanding[i].answer.None?
      && IsAnswer(Now(log), c.outstanding[i].req, kvs)
    case RangeDone(i, ok) =>
      i < |c.outstanding| && c.outstanding[i].RangePending? && (ok ==> c.outstanding[i].answer.Some?)
    case WriteDone(i, ok) => i < |c.outstanding| && c.outstanding[i].WritePending?
    case ReadFails(i) => i < |c.outstanding| && c.outstanding[i].ReadPending?
    case ReadDone(i, d) =>
      && i < |c.outstanding| && c.outstanding[i].ReadPending?
      && d.watch < |c.watches| && c.watches[d.watch].open
      && 1 <= c.watches[d.watch].next <= d.upTo <= Revision(log) + 1
    case TracerStarts => !c.cs.ops.shutdown
    case TracerEnds => c.tracers > 0
    case ResignBegins => !c.cs.ops.shutdown
    case ResignShutsReads => true
    case ResignEnds => c.cs.readOps.Drained() && !c.cs.ops.shutdown
    case CleanupBegins => c.drain.NotDraining? && !c.cs.ops.shutdown
    case CleanupShutsReads => c.drain.WaitingForOps? && c.cs.ops.Drained()
    case CleanupEnds => c.drain.WaitingForReads? && c.cs.readOps.Drained()
  }

  /** The effect of a callback that took operation i: its posts join the operations in flight. */
  function Continue(c: Client, i: nat, result: (Candidate, seq<Op>)): Client
    requires i < |c.outstanding|
  {
    c.(cs := result.0, outstanding := Without(c.outstanding, i) + SendAll(result.1))
  }

  function StepCreate(log: Log, c: Client): (r: (Log, Client))
    requires CommitResponse(log, CreateTxn(c.cs)).succeeded || CommitResponse(log, CreateTxn(c.cs)).fetched != []
  {
    var log', response := Commit(log, CreateTxn(c.cs)), CommitResponse(log, CreateTxn(c.cs));
    var cs := AfterCreate(c.cs, response);
    (log', c.(cs := cs, phase := if MustPublish(c.cs, response) then Publishing else Ready,
              history := c.history.(predecessorsAtCreation := |Predecessors(Now(log'), cs.Rank())|)))
  }

  function StepPublish(log: Log, c: Client): (Log, Client) {
    (Commit(log, NextTxn(c)), c.(phase := if CommitResponse(log, NextTxn(c)).succeeded then Ready else Failed))
  }

  function StepBegin(c: Client): Client {
    var (cs, posted) := QueryPredecessor(c.cs);
    c.(cs := cs, phase := Campaigning, outstanding := c.outstanding + SendAll(posted),
       history := c.history.(queries := c.history.queries + |posted|))
  }

  function StepProclaim(log: Log, c: Client, value: Bytes, replyLost: bool): (Log, Client) {
    var txn := PublishTxn(c.cs, value, NothingOnFailure);
    (Commit(log, txn),
     if CommitResponse(log, txn).succeeded && !replyLost then c.(cs := c.cs.(value := value)) else c)
  }

  function StepAnswer(log: Log, c: Client, i: nat, kvs: seq<KeyValue>): Client
    requires i < |c.outstanding| && c.outstanding[i].RangePending?
  {
    c.(outstanding := c.outstanding[i := c.outstanding[i].(answer := Some(RangeResponse(Revision(log), kvs)))],
       history := c.history.(latest := if kvs == [] then None else Some(kvs[0].key)))
  }

  function StepRange(c: Client, i: nat, ok: bool): Client
    requires i < |c.outstanding| && c.outstanding[i].RangePending? && (ok ==> c.outstanding[i].answer.Some?)
  {
    var response := if ok then c.outstanding[i].answer.value else RangeResponse(0, []);
    var result := OnRangeRequest(c.cs, ok, response);
    var h := c.history;
    Continue(c, i, result).(history :=
      if !ok then h.(cancelledRanges := h.cancelledRanges + 1, clean := false)
      else if response.kvs == [] then
        if c.cs.watchedKeys == {} then h.(electedAt := Some(response.revision)) else h
      else if result.1 != [] then
        var kv := response.kvs[0];
        h.(sightings := h.sightings[kv.key := Sighting(kv.createRevision, response.revision)])
      else h)
  }

  function StepWrite(c: Client, i: nat, ok: bool): Client
    requires i < |c.outstanding| && c.outstanding[i].WritePending?
  {
    var w := c.outstanding[i];
    Continue(c, i, OnWatchCreate(c.cs, ok, w.key, w.startRevision)).(
      watches := if ok then c.watches + [Watch(w.key, w.startRevision, true)] else c.watches,
      history := c.history.(clean := c.history.clean && ok))
  }

  function StepReadFails(c: Client, i: nat): Client
    requires i < |c.outstanding| && c.outstanding[i].ReadPending?
  {
    var r := c.outstanding[i];
    Continue(c, i, OnWatchRead(c.cs, false, WatchResponse(false, false, 0, 0, []), r.watchedKey, r.watchRevision)).(
      history := c.history.(clean := false))
  }

  ghost function StepRead(log: Log, c: Client, i: nat, d: Delivery): Client
    requires ValidLog(log) && Enabled(log, c, ReadDone(i, d))
  {
    var r := c.outstanding[i];
    var result := OnWatchRead(c.cs, true, Deliver(log, c, d), r.watchedKey, r.watchRevision);
    var h := c.history;
    var queried := result.1 != [] && result.1[0].PostRange?;
    Continue(c, i, result).(
      watches := AfterDelivery(c.watches, d),
      history := h.(
        queries := h.queries + (if queried then 1 else 0),
        cancels := h.cancels + (if d.Cancels() then 1 else 0),
        latest := if queried then None else h.latest,
        sightings := map k | k in h.sightings && k in result.0.watchedKeys :: h.sightings[k],
        clean := h.clean && !d.Cancels() && d.prevKv))
  }

  ghost function Step(log: Log, c: Client, a: Action): (Log, Client)
    requires ValidLog(log) && Enabled(log, c, a)
  {
    match a
    case CreateNode =>
      CreateTxnOwns(c.cs, log);
      StepCreate(log, c)
    case PublishNode => StepPublish(log, c)
    case RpcFails(applied) => (if applied then Commit(log, NextTxn(c)) else log, c.(phase := Failed))
    case BeginCampaign => (log, StepBegin(c))
    case ProclaimValue(value, replyLost) => StepProclaim(log, c, value, replyLost)
    case AnswerRange(i, kvs) => (log, StepAnswer(log, c, i, kvs))
    case RangeDone(i, ok) => (log, StepRange(c, i, ok))
    case WriteDone(i, ok) => (log, StepWrite(c, i, ok))
    case ReadFails(i) => (log, StepReadFails(c, i))
    case ReadDone(i, d) => (log, StepRead(log, c, i, d))
    case TracerStarts => (log, c.(cs := c.cs.(ops := c.cs.ops.Start()), tracers := c.tracers + 1))
    case TracerEnds => (log, c.(cs := c.cs.(ops := c.cs.ops.Done()), tracers := c.tracers - 1))
    case ResignBegins => (log, c.(cs := TakeWatches(c.cs)))
    case ResignShutsReads => (log, c.(cs := ShutReads(c.cs), history := c.history.(clean := false)))
    case ResignEnds => (log, c.(cs := ElectionResult(c.cs, false), history := c.history.(clean := false)))
    case CleanupBegins =>
      (log, c.(cs := ShutOps(c.cs), drain := WaitingForOps, history := c.history.(clean := false)))
    case CleanupShutsReads => (log, c.(cs := ShutReads(c.cs), drain := WaitingForReads))
    case CleanupEnds => (log, c.(drain := Drained))
  }
}
