/** One election candidate and its callbacks (gh/detail/election_candidate_impl.hpp). Each callback is a function on
    the candidate's fields that also says which operations it posts; the class does the same in place. */
module Candidates {
  import opened ByteStrings
  import opened PrefixRange
  import opened Keys
  import opened Etcd
  import opened OpCounter
  import opened Waits

  /** Where a candidate stands: its election and the create revision of its node. */
  datatype Place = Place(name: Bytes, creationRevision: int)

  datatype Candidate = Candidate(
    name: Bytes,
    leaseId: LeaseId,
    value: Bytes,
    creationRevision: int,
    currentWatches: set<nat>,
    watchedKeys: set<Bytes>,
    elected: bool,
    promise: Option<bool>,
    ops: Counter,
    readOps: Counter)
  {
    function Key(): Bytes {
      CandidateKey(name, leaseId)
    }

    function Rank(): Place {
      Place(name, creationRevision)
    }
  }

  /** An operation handed to the completion queue. */
  datatype Op =
    | PostRange(req: RangeRequest)
    | PostWatch(key: Bytes, startRevision: nat)
    | PostRead(watchedKey: Bytes, watchRevision: nat)

  datatype WatchResponse = WatchResponse(
    created: bool, canceled: bool, compactRevision: int, watchId: nat, events: seq<Event>)

  function NewCandidate(name: Bytes, leaseId: LeaseId, value: Bytes): Candidate {
    Candidate(name, leaseId, value, 0, {}, {}, false, None, Counter(0, false), Counter(0, false))
  }

  /** The promise keeps its first value. */
  function ElectionResult(c: Candidate, result: bool): Candidate {
    c.(elected := result, promise := if c.promise.None? then Some(result) else c.promise)
  }

  function PredecessorQuery(c: Candidate): RangeRequest {
    RangeRequest(ElectionPrefix(c.name), EndOf(ElectionPrefix(c.name)), c.creationRevision - 1, Descend)
  }

  /** The start is not checked: the counter was not shut down a moment ago. */
  function QueryPredecessor(c: Candidate): (Candidate, seq<Op>) {
    if c.ops.shutdown then (ElectionResult(c, false), [])
    else (c.(ops := c.ops.Start()), [PostRange(PredecessorQuery(c))])
  }

  /** Post a watch for each key of the answer; the last component is false when the loop gave up. */
  function WatchAll(c: Candidate, kvs: seq<KeyValue>, revision: nat): (Candidate, seq<Op>, bool) {
    if kvs == [] then (c, [], true)
    else if c.ops.shutdown then (c, [], false)
    else
      var init := WatchAll(c, kvs[..|kvs| - 1], revision);
      var kv := kvs[|kvs| - 1];
      (init.0.(ops := init.0.ops.Start(), watchedKeys := init.0.watchedKeys + {kv.key}),
       init.1 + [PostWatch(kv.key, revision)], true)
  }

  function CheckElectionOver(c: Candidate): Candidate {
    if c.watchedKeys == {} then ElectionResult(c, true) else c
  }

  /** A cancelled Range does not count as done. */
  function OnRangeRequest(c: Candidate, ok: bool, response: RangeResponse): (Candidate, seq<Op>) {
    if !ok then (ElectionResult(c, false), [])
    else
      var all := WatchAll(c.(ops := c.ops.Done()), response.kvs, response.revision);
      (if all.2 then CheckElectionOver(all.0) else all.0, all.1)
  }

  function OnWatchCreate(c: Candidate, ok: bool, key: Bytes, revision: nat): (Candidate, seq<Op>) {
    var c := c.(ops := c.ops.Done());
    if !ok || c.readOps.shutdown then (c, [])
    else (c.(readOps := c.readOps.Start()), [PostRead(key, revision)])
  }

  function DeletedKeys(events: seq<Event>): set<Bytes> {
    set ev | ev in events && ev.Delete? :: ev.prevKv.key
  }

  function OnWatchRead(c: Candidate, ok: bool, response: WatchResponse, key: Bytes, revision: nat):
    (Candidate, seq<Op>)
  {
    var c := c.(readOps := c.readOps.Done());
    if !ok then (c, [])
    else
      var c := c.(
        currentWatches := if response.created then c.currentWatches + {response.watchId} else c.currentWatches,
        watchedKeys := c.watchedKeys - DeletedKeys(response.events));
      if response.canceled || response.compactRevision != 0 then
        QueryPredecessor(c.(currentWatches := c.currentWatches - {response.watchId}))
      else if c.watchedKeys == {} then QueryPredecessor(c)
      else if c.readOps.shutdown then (c, [])
      else (c.(readOps := c.readOps.Start()), [PostRead(key, revision)])
  }

  /** What the completion queue reports. */
  datatype Completion =
    | RangeCompletes(ok: bool, response: RangeResponse)
    | WriteCompletes(ok: bool, key: Bytes, revision: nat)
    | ReadCompletes(ok: bool, watched: WatchResponse, key: Bytes, revision: nat)

  function Handle(c: Candidate, done: Completion): (Candidate, seq<Op>) {
    match done
    case RangeCompletes(ok, response) => OnRangeRequest(c, ok, response)
    case WriteCompletes(ok, key, revision) => OnWatchCreate(c, ok, key, revision)
    case ReadCompletes(ok, response, key, revision) => OnWatchRead(c, ok, response, key, revision)
  }

  // Resigning and cleaning up block; they are split at their waits, where callbacks run.

  function TakeWatches(c: Candidate): Candidate {
    c.(currentWatches := {})
  }

  function ShutReads(c: Candidate): Candidate {
    c.(readOps := c.readOps.Shut())
  }

  function ShutOps(c: Candidate): Candidate {
    c.(ops := c.ops.Shut())
  }

  function Counted(c: Candidate, which: Which): Counter {
    if which.Ops? then c.ops else c.readOps
  }

  function PendingOn(which: Which): Candidate -> int {
    (c: Candidate) => Counted(c, which).pending
  }

  /** While resigning waits for its cancel requests, one of them completes, or something else does. */
  datatype Turn = CancelCompletes | Otherwise(done: Completion)

  /** The candidate, and the cancel requests that are pending. */
  type Resigning = (Candidate, int)

  function HandleTurn(r: Resigning, turn: Turn): (Resigning, seq<Op>) {
    match turn
    case CancelCompletes => ((r.0, r.1 - 1), [])
    case Otherwise(done) =>
      var (c, posted) := Handle(r.0, done);
      ((c, r.1), posted)
  }

  function PendingCancels(r: Resigning): int {
    r.1
  }

  /** Resigning from a stream: the watches are cancelled and waited for, then the reads, and the election is lost. */
  function GiveUp(c: Candidate, turns: seq<Turn>, dones: seq<Completion>): (Candidate, seq<Op>, bool) {
    var (r, posted, over) := Await((TakeWatches(c), |c.currentWatches|), PendingCancels, HandleTurn, turns);
    if !over then (r.0, posted, false)
    else
      var (c, more, over) := Await(ShutReads(r.0), PendingOn(Reads), Handle, dones);
      (if over then ElectionResult(c, false) else c, posted + more, over)
  }

  /** How far cleaning up has come. */
  datatype Drain = NotDraining | Cancelling | WaitingForOps | OpsDrained | WaitingForReads | Drained

  /** Cleaning up waits for the operations, then for the reads. */
  function CleanUp(c: Candidate, first: seq<Completion>, second: seq<Completion>): (Candidate, seq<Op>, bool) {
    var (c, posted, over) := Await(ShutOps(c), PendingOn(Ops), Handle, first);
    if !over then (c, posted, false)
    else
      var (c, more, over) := Await(ShutReads(c), PendingOn(Reads), Handle, second);
      (c, posted + more, over)
  }

  /** When cleanup returns nothing is pending on either counter, although callbacks ran all the while: the first wait
      ends with no operation, and with their counter shut down no callback starts another. */
  lemma CleanUpDrains(c: Candidate, first: seq<Completion>, second: seq<Completion>)
    requires CleanUp(c, first, second).2 && forall i :: 0 <= i < |second| ==> second[i].ReadCompletes?
    ensures CleanUp(c, first, second).0.ops.Drained() && CleanUp(c, first, second).0.readOps.Drained()
  {
    AwaitKeepsShut(ShutOps(c), Ops, first);
    AwaitKeepsShut(ShutReads(Await(ShutOps(c), PendingOn(Ops), Handle, first).0), Reads, second);
  }

  lemma {:induction false} AwaitKeepsShut(c: Candidate, which: Which, dones: seq<Completion>)
    ensures
      var (c', _, over) := Await(c, PendingOn(which), Handle, dones);
      && c'.ops.shutdown == c.ops.shutdown && c'.readOps.shutdown == c.readOps.shutdown
      && (over ==> Counted(c', which).pending == 0)
      && (c.ops.shutdown && (forall i :: 0 <= i < |dones| ==> dones[i].ReadCompletes?) ==>
            c'.ops.pending == c.ops.pending)
    decreases |dones|
  {
    if Counted(c, which).pending != 0 && dones != [] {
      HandleKeepsShut(c, dones[0]);
      AwaitKeepsShut(Handle(c, dones[0]).0, which, dones[1..]);
    }
  }

  lemma {:induction false} AwaitCancelsKeepsShut(r: Resigning, turns: seq<Turn>)
    ensures
      var (r', _, _) := Await(r, PendingCancels, HandleTurn, turns);
      r'.0.ops.shutdown == r.0.ops.shutdown && r'.0.readOps.shutdown == r.0.readOps.shutdown
    decreases |turns|
  {
    if r.1 != 0 && turns != [] {
      if turns[0].Otherwise? {
        HandleKeepsShut(r.0, turns[0].done);
      }
      AwaitCancelsKeepsShut(HandleTurn(r, turns[0]).0, turns[1..]);
    }
  }

  lemma HandleKeepsShut(c: Candidate, done: Completion)
    ensures
      var c' := Handle(c, done).0;
      && c'.ops.shutdown == c.ops.shutdown && c'.readOps.shutdown == c.readOps.shutdown
      && (c.ops.shutdown && done.ReadCompletes? ==> c'.ops == c.ops)
  {
    if done.RangeCompletes? && done.ok {
      WatchAllKeepsShut(c.(ops := c.ops.Done()), done.response.kvs, done.response.revision);
    }
  }

  lemma {:induction false} WatchAllKeepsShut(c: Candidate, kvs: seq<KeyValue>, revision: nat)
    ensures
      var c' := WatchAll(c, kvs, revision).0;
      c'.ops.shutdown == c.ops.shutdown && c'.readOps == c.readOps
  {
    if kvs != [] && !c.ops.shutdown {
      WatchAllKeepsShut(c, kvs[..|kvs| - 1], revision);
    }
  }

  // ---- the node that represents the candidate --------------------------------------------------------------------

  function CreateTxn(c: Candidate): Txn {
    Txn(c.Key(), 0, c.value, c.leaseId, FetchOnFailure)
  }

  function PublishTxn(c: Candidate, value: Bytes, failure: FailureOp): Txn {
    Txn(c.Key(), c.creationRevision, value, c.leaseId, failure)
  }

  /** What the candidate learns from the first transaction. */
  function AfterCreate(c: Candidate, response: TxnResponse): Candidate
    requires response.succeeded || response.fetched != []
  {
    c.(creationRevision := if response.succeeded then response.revision else response.fetched[0].createRevision)
  }

  /** Whether the second transaction is needed: the node was there with another value. */
  predicate MustPublish(c: Candidate, response: TxnResponse)
    requires response.succeeded || response.fetched != []
  {
    !response.succeeded && response.fetched[0].value != c.value
  }

  /** The candidate's node is live, with the create revision the candidate knows. */
  predicate OwnsNode(c: Candidate, live: Live) {
    c.Key() in live && live[c.Key()].createRevision == c.creationRevision
  }

  /** The lease of the node that is created or taken over: the candidate's, unless the node was there with the value it
      was to have, because then nothing is written. */
  function LeaseOfNode(c: Candidate, live: Live): int {
    if c.Key() in live && live[c.Key()].value == c.value then live[c.Key()].lease else c.leaseId
  }

  /** The first transaction leaves the store holding a node under the candidate's key, and the candidate knows its
      create revision. A new node has the candidate's value and lease; a node that was there stays as it was. */
  lemma CreateTxnOwns(c: Candidate, log: Log)
    requires ValidLog(log)
    ensures
      var txn := CreateTxn(c);
      var log', response := Commit(log, txn), CommitResponse(log, txn);
      && ValidLog(log')
      && (response.succeeded || |response.fetched| == 1)
      && var c' := AfterCreate(c, response);
         && OwnsNode(c', Now(log')) && 2 <= c'.creationRevision <= Revision(log')
         && (response.succeeded <==> c.Key() !in Now(log)) && (!response.succeeded ==> log' == log)
         && (!MustPublish(c, response) ==>
               Now(log')[c'.Key()] == Node(c.value, LeaseOfNode(c, Now(log)), c'.creationRevision))
         && (MustPublish(c, response) ==> LeaseOfNode(c, Now(log)) == c.leaseId)
  {
    var txn := CreateTxn(c);
    CommitIsValid(log, txn);
    if c.Key() in Now(log) {
      CreatedBy(log, Revision(log), c.Key());
    } else {
      NowStep(log, PutKey(txn.key, txn.value, txn.lease));
    }
  }

  /** A publication writes if and only if the node the candidate knows is still live (or, before any campaign, if no
      node is there): then the node has the new value and the candidate's lease, and keeps its create revision. The
      store keeps all other keys, and if nothing is written this one too, unless the failure operation deletes it. */
  lemma PublishTxnEffect(c: Candidate, log: Log, value: Bytes, failure: FailureOp)
    requires ValidLog(log)
    ensures
      var txn := PublishTxn(c, value, failure);
      var log', response := Commit(log, txn), CommitResponse(log, txn);
      && ValidLog(log')
      && (response.succeeded <==> OwnsNode(c, Now(log)) || (c.creationRevision == 0 && c.Key() !in Now(log)))
      && (OwnsNode(c, Now(log)) ==>
            && Now(log').Keys == Now(log).Keys
            && (forall k :: k in Now(log) && k != c.Key() ==> Now(log')[k] == Now(log)[k])
            && Now(log')[c.Key()] == Node(value, c.leaseId, c.creationRevision))
      && (response.succeeded && !OwnsNode(c, Now(log)) ==>
            Now(log') == Now(log)[c.Key() := Node(value, c.leaseId, Revision(log'))])
      && (!response.succeeded ==>
            Now(log') == if failure.DeleteOnFailure? then Now(log) - {c.Key()} else Now(log))
  {
    var txn := PublishTxn(c, value, failure);
    CommitIsValid(log, txn);
    if c.Key() in Now(log) {
      CreatedBy(log, Revision(log), c.Key());
    }
    if Commit(log, txn) != log {
      NowStep(log, Commit(log, txn)[|log|]);
    }
    if !CommitResponse(log, txn).succeeded && failure.DeleteOnFailure? {
      assert (set k | k in [c.Key()]) == {c.Key()};
    }
  }

  /** What the second transaction of create_node leaves behind. */
  lemma TakeOverEffect(c: Candidate, log: Log)
    requires ValidLog(log) && c.creationRevision >= 2
    ensures
      var txn := PublishTxn(c, c.value, DeleteOnFailure);
      var log' := Commit(log, txn);
      && ValidLog(log') && log <= log'
      && if CommitResponse(log, txn).succeeded then
           c.Key() in Now(log') && Now(log')[c.Key()] == Node(c.value, c.leaseId, c.creationRevision)
         else c.Key() !in Now(log')
  {
    PublishTxnEffect(c, log, c.value, DeleteOnFailure);
    CommitIsValid(log, PublishTxn(c, c.value, DeleteOnFailure));
  }

  /** The etcd server a blocking call talks to. */
  class EtcdServer {
    var log: Log

    constructor ()
      ensures log == []
    {
      log := [];
    }

    method Txn(txn: Txn) returns (response: TxnResponse)
      modifies this
      ensures log == Commit(old(log), txn) && response == CommitResponse(old(log), txn)
    {
      response := CommitResponse(log, txn);
      log := Commit(log, txn);
    }

    /** Other clients and expiring leases change the store. */
    method Others(changes: Log)
      modifies this
      ensures log == old(log) + changes
    {
      log := log + changes;
    }
  }

  datatype Outcome = Returned | Threw | Blocked

  class ElectionCandidate {
    const electionName: Bytes
    const leaseId: LeaseId
    const electionPrefix: Bytes
    const candidateKey: Bytes
    var candidateValue: Bytes
    var creationRevision: int
    var currentWatches: set<nat>
    var watchedKeys: set<Bytes>
    var elected: bool
    var promise: Option<bool>
    const ops: AsyncOpCounter
    const readOps: AsyncOpCounter

    ghost predicate Valid() {
      && electionPrefix == ElectionPrefix(electionName)
      && candidateKey == CandidateKey(electionName, leaseId)
      && ops != readOps
    }

    ghost function State(): Candidate
      reads this, ops, readOps
    {
      Candidate(electionName, leaseId, candidateValue, creationRevision, currentWatches, watchedKeys, elected,
                promise, ops.Value(), readOps.Value())
    }

    constructor (leaseId: LeaseId, electionName: Bytes, candidateValue: Bytes)
      ensures Valid() && fresh(ops) && fresh(readOps)
      ensures State() == NewCandidate(electionName, leaseId, candidateValue)
    {
      this.leaseId, this.electionName, this.candidateValue := leaseId, electionName, candidateValue;
      electionPrefix := electionName + [SLASH];
      candidateKey := electionName + [SLASH] + Hex(leaseId);
      creationRevision, currentWatches, watchedKeys := 0, {}, {};
      elected, promise := false, None;
      ops := new AsyncOpCounter();
      readOps := new AsyncOpCounter();
    }

    method SetElectionResult(result: bool)
      modifies this`elected, this`promise
      ensures State() == ElectionResult(old(State()), result)
    {
      elected := result;
      if promise.None? {
        promise := Some(result);
      }
    }

    method DoQueryPredecessor() returns (posted: seq<Op>)
      requires Valid()
      modifies this`elected, this`promise, ops
      ensures (State(), posted) == QueryPredecessor(old(State()))
    {
      var over := ops.InShutdown();
      if over {
        SetElectionResult(false);
        return [];
      }
      var rangeEnd := PrefixEnd(electionPrefix);
      var req := RangeRequest(electionPrefix, rangeEnd, creationRevision - 1, Descend);
      var _ := ops.AsyncOpStart();
      return [PostRange(req)];
    }

    method HandleRangeRequest(ok: bool, response: RangeResponse) returns (posted: seq<Op>)
      requires Valid()
      modifies this`elected, this`promise, this`watchedKeys, ops
      ensures (State(), posted) == OnRangeRequest(old(State()), ok, response)
    {
      posted := [];
      if !ok {
        SetElectionResult(false);
        return;
      }
      var _ := ops.AsyncOpDone();
      ghost var start := State();
      var kvs := response.kvs;
      assert kvs[..|kvs|] == kvs;
      for i := 0 to |kvs|
        invariant (State(), posted, true) == WatchAll(start, kvs[..i], response.revision)
        invariant ops.shutdown == start.ops.shutdown
        invariant i > 0 ==> !ops.shutdown
      {
        assert kvs[..i + 1][..i] == kvs[..i];
        var accepted := ops.AsyncOpStart();
        if !accepted {
          return;
        }
        watchedKeys := watchedKeys + {kvs[i].key};
        posted := posted + [PostWatch(kvs[i].key, response.revision)];
      }
      DoCheckElectionOver();
    }

    method DoCheckElectionOver()
      modifies this`elected, this`promise
      ensures State() == CheckElectionOver(old(State()))
    {
      if watchedKeys != {} {
        return;
      }
      SetElectionResult(true);
    }

    method HandleWatchCreate(ok: bool, key: Bytes, revision: nat) returns (posted: seq<Op>)
      requires Valid()
      modifies ops, readOps
      ensures (State(), posted) == OnWatchCreate(old(State()), ok, key, revision)
    {
      var _ := ops.AsyncOpDone();
      if !ok {
        return [];
      }
      var accepted := readOps.AsyncOpStart();
      if !accepted {
        return [];
      }
      return [PostRead(key, revision)];
    }

    method HandleWatchRead(ok: bool, response: WatchResponse, key: Bytes, revision: nat) returns (posted: seq<Op>)
      requires Valid()
      modifies this`elected, this`promise, this`watchedKeys, this`currentWatches, ops, readOps
      ensures (State(), posted) == OnWatchRead(old(State()), ok, response, key, revision)
    {
      var _ := readOps.AsyncOpDone();
      if !ok {
        return [];
      }
      if response.created {
        currentWatches := currentWatches + {response.watchId};
      }
      var events := response.events;
      assert events[..|events|] == events;
      for i := 0 to |events|
        invariant watchedKeys == old(watchedKeys) - DeletedKeys(events[..i])
        modifies this`watchedKeys
      {
        assert events[..i + 1] == events[..i] + [events[i]];
        if events[i].Delete? {
          watchedKeys := watchedKeys - {events[i].prevKv.key};
        }
      }
      if response.canceled || response.compactRevision != 0 {
        currentWatches := currentWatches - {response.watchId};
        posted := DoQueryPredecessor();
        return;
      }
      if watchedKeys == {} {
        posted := DoQueryPredecessor();
        return;
      }
      var accepted := readOps.AsyncOpStart();
      if !accepted {
        return [];
      }
      return [PostRead(key, revision)];
    }

    method Callback(done: Completion) returns (posted: seq<Op>)
      requires Valid()
      modifies this`elected, this`promise, this`watchedKeys, this`currentWatches, ops, readOps
      ensures (State(), posted) == Handle(old(State()), done)
    {
      match done {
        case RangeCompletes(ok, response) => posted := HandleRangeRequest(ok, response);
        case WriteCompletes(ok, key, revision) => posted := HandleWatchCreate(ok, key, revision);
        case ReadCompletes(ok, response, key, revision) => posted := HandleWatchRead(ok, response, key, revision);
      }
    }

    /** The wait of block_until_all_done; `dones` is what completes meanwhile. */
    method Wait(which: Which, dones: seq<Completion>) returns (posted: seq<Op>, over: bool)
      requires Valid()
      modifies this`elected, this`promise, this`watchedKeys, this`currentWatches, ops, readOps
      ensures (State(), posted, over) == Await(old(State()), PendingOn(which), Handle, dones)
    {
      var i := 0;
      posted := [];
      UnderwayBegins(State(), PendingOn(which), Handle, dones);
      var counter := if which.Ops? then ops else readOps;
      while counter.pending != 0 && i < |dones|
        invariant 0 <= i <= |dones|
        invariant Underway(old(State()), State(), PendingOn(which), Handle, dones, i, posted)
        decreases |dones| - i
      {
        UnderwayGoesOn(old(State()), State(), PendingOn(which), Handle, dones, i, posted);
        var more := Callback(dones[i]);
        posted := posted + more;
        i := i + 1;
      }
      over := counter.pending == 0;
      UnderwayEnds(old(State()), State(), PendingOn(which), Handle, dones, i, posted);
    }

    /** Cancels the watches, waits for the cancel requests on a counter of their own and then for the read, and gives up
        the election. `turns` and `dones` are what completes during the two waits. */
    method Resign(hasStream: bool, turns: seq<Turn>, dones: seq<Completion>)
      returns (outcome: Outcome, cancelled: set<nat>, posted: seq<Op>)
      requires Valid()
      modifies this`elected, this`promise, this`watchedKeys, this`currentWatches, ops, readOps
      ensures outcome.Threw? <==> old(ops.shutdown)
      ensures outcome.Threw? ==> State() == old(State()) && cancelled == {} && posted == []
      ensures !old(ops.shutdown) && !hasStream ==>
                outcome.Returned? && State() == TakeWatches(old(State())) && cancelled == {} && posted == []
      ensures !old(ops.shutdown) && hasStream ==>
                cancelled == old(currentWatches)
                && (State(), posted, outcome.Returned?) == GiveUp(old(State()), turns, dones)
    {
      posted, cancelled := [], {};
      var over := ops.InShutdown();
      if over {
        return Threw, {}, [];
      }
      var watches := currentWatches;
      currentWatches := {};
      if !hasStream {
        return Returned, {}, [];
      }
      AwaitCancelsKeepsShut((State(), |watches|), turns);
      var cancels;
      cancels, cancelled := CancelAll(watches);
      posted, over := WaitForCancels(cancels, turns);
      if !over {
        return Blocked, cancelled, posted;
      }
      readOps.Shutdown();
      AwaitKeepsShut(State(), Reads, dones);
      var more;
      more, over := Wait(Reads, dones);
      posted := posted + more;
      if !over {
        return Blocked, cancelled, posted;
      }
      CloseStream();
      return Returned, cancelled, posted;
    }

    /** The end of resign: two blocking calls, counted while they last, and the election is lost. */
    method CloseStream()
      requires Valid() && !ops.shutdown
      modifies this`elected, this`promise, ops
      ensures State() == ElectionResult(old(State()), false)
    {
      var writesDone := new AsyncOpTracer(ops);
      var finish := new AsyncOpTracer(ops);
      SetElectionResult(false);
      finish.Destroy();
      writesDone.Destroy();
    }

    /** The wait for the cancel requests, with the callbacks that run meanwhile. */
    method WaitForCancels(cancels: AsyncOpCounter, turns: seq<Turn>) returns (posted: seq<Op>, over: bool)
      requires Valid() && cancels != ops && cancels != readOps
      modifies this`elected, this`promise, this`watchedKeys, this`currentWatches, ops, readOps, cancels
      ensures ((State(), cancels.pending), posted, over)
              == Await((old(State()), old(cancels.pending)), PendingCancels, HandleTurn, turns)
    {
      cancels.Shutdown();
      var i := 0;
      posted := [];
      ghost var start := (old(State()), old(cancels.pending));
      UnderwayBegins(start, PendingCancels, HandleTurn, turns);
      while cancels.pending != 0 && i < |turns|
        invariant 0 <= i <= |turns|
        invariant Underway(start, (State(), cancels.pending), PendingCancels, HandleTurn, turns, i, posted)
        decreases |turns| - i
      {
        UnderwayGoesOn(start, (State(), cancels.pending), PendingCancels, HandleTurn, turns, i, posted);
        match turns[i] {
          case CancelCompletes =>
            var _ := cancels.AsyncOpDone();
            Neutral(posted);
          case Otherwise(done) =>
            var more := Callback(done);
            posted := posted + more;
        }
        i := i + 1;
      }
      over := cancels.pending == 0;
      UnderwayEnds(start, (State(), cancels.pending), PendingCancels, HandleTurn, turns, i, posted);
    }

    /** One cancel request for each watch, counted on a counter of its own. */
    method CancelAll(watches: set<nat>) returns (cancels: AsyncOpCounter, requested: set<nat>)
      ensures requested == watches
      ensures fresh(cancels) && cancels.Value() == Counter(|watches|, false)
    {
      cancels := new AsyncOpCounter();
      requested := {};
      var rest := watches;
      while rest != {}
        invariant rest <= watches && requested == watches - rest
        invariant cancels.Value() == Counter(|watches| - |rest|, false)
        decreases |rest|
      {
        var watch :| watch in rest;
        rest := rest - {watch};
        var _ := cancels.AsyncOpStart();
        requested := requested + {watch};
      }
    }

    /** Waits for the operations, then for the reads. The arguments are what completes during the two waits, where the
        callbacks hand work from one counter to the other. */
    method Cleanup(first: seq<Completion>, second: seq<Completion>) returns (posted: seq<Op>, returned: bool)
      requires Valid()
      modifies this`elected, this`promise, this`watchedKeys, this`currentWatches, ops, readOps
      ensures old(ops.shutdown) ==> returned && posted == [] && State() == old(State())
      ensures !old(ops.shutdown) ==> (State(), posted, returned) == CleanUp(old(State()), first, second)
    {
      var over := ops.InShutdown();
      if over {
        return [], true;
      }
      ops.Shutdown();
      posted, returned := Wait(Ops, first);
      if returned {
        readOps.Shutdown();
        var more;
        more, returned := Wait(Reads, second);
        posted := posted + more;
      }
    }

    method PublishValue(server: EtcdServer, value: Bytes, failure: FailureOp) returns (succeeded: bool)
      requires Valid()
      modifies server, ops
      ensures server.log == Commit(old(server.log), PublishTxn(State(), value, failure))
      ensures succeeded == CommitResponse(old(server.log), PublishTxn(State(), value, failure)).succeeded
      ensures !old(ops.shutdown) ==> ops.Value() == old(ops.Value())
    {
      var tracer := new AsyncOpTracer(ops);
      var response := server.Txn(Txn(candidateKey, creationRevision, value, leaseId, failure));
      tracer.Destroy();
      return response.succeeded;
    }

    /** Create the node, or take over the one a previous instance left. `between` is what other clients and expiring
        leases do to the store between the two transactions. */
    method CreateNode(server: EtcdServer, between: Log) returns (outcome: Outcome)
      requires Valid() && ValidLog(server.log)
      requires ValidLog(Commit(server.log, CreateTxn(State())) + between)
      modifies this`creationRevision, server, ops
      ensures old(ops.shutdown) ==> outcome.Threw? && unchanged(this) && unchanged(server) && unchanged(ops)
      ensures !old(ops.shutdown) ==> ops.Value() == old(ops.Value())
      ensures ValidLog(server.log) && old(server.log) <= server.log
      ensures outcome.Returned? ==>
                && 2 <= creationRevision <= Revision(server.log) && candidateKey in Now(server.log)
                && Now(server.log)[candidateKey] ==
                     Node(candidateValue, LeaseOfNode(old(State()), Now(old(server.log))), creationRevision)
      ensures outcome.Threw? && !old(ops.shutdown) ==> candidateKey !in Now(server.log)
    {
      var over := ops.InShutdown();
      if over {
        return Threw;
      }
      CreateTxnOwns(State(), server.log);
      CommitIsValid(server.log, CreateTxn(State()));
      var tracer := new AsyncOpTracer(ops);
      var response := server.Txn(Txn(candidateKey, 0, candidateValue, leaseId, FetchOnFailure));
      tracer.Destroy();
      creationRevision := response.revision;
      if !response.succeeded {
        var kv := response.fetched[0];
        creationRevision := kv.createRevision;
        if kv.value != candidateValue {
          server.Others(between);
          TakeOverEffect(State(), server.log);
          var published := PublishValue(server, candidateValue, DeleteOnFailure);
          if !published {
            return Threw;
          }
        }
      }
      return Returned;
    }

    /** Change the value of the node. */
    method Proclaim(server: EtcdServer, newValue: Bytes) returns (outcome: Outcome)
      requires Valid() && ValidLog(server.log)
      modifies this`candidateValue, server, ops
      ensures old(ops.shutdown) ==> outcome.Threw? && unchanged(this) && unchanged(server) && unchanged(ops)
      ensures !old(ops.shutdown) ==>
                && server.log == Commit(old(server.log), PublishTxn(old(State()), newValue, NothingOnFailure))
                && (outcome.Returned? <==>
                      CommitResponse(old(server.log), PublishTxn(old(State()), newValue, NothingOnFailure)).succeeded)
                && State() == if outcome.Returned? then old(State()).(value := newValue) else old(State())
      ensures outcome.Returned? ==>
                && candidateKey in Now(server.log) && Now(server.log)[candidateKey].value == newValue
                && Now(server.log)[candidateKey].lease == leaseId
                && (creationRevision != 0 ==> Now(server.log)[candidateKey].createRevision == creationRevision)
    {
      var over := ops.InShutdown();
      if over {
        return Threw;
      }
      PublishTxnEffect(State(), server.log, newValue, NothingOnFailure);
      var succeeded := PublishValue(server, newValue, NothingOnFailure);
      if succeeded {
        candidateValue := newValue;
        return Returned;
      }
      return Threw;
    }
  }
}
