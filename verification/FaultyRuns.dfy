/** Runs in which something goes wrong, for every election and every candidate: a node is taken over under another lease,
    a Range fails, the compaction of a watch hides a deletion, or a deletion comes without the previous value. */
module FaultyRuns {
  import opened ByteStrings
  import opened Keys
  import opened Etcd
  import opened Candidates
  import opened Campaign
  import opened CampaignInvariants
  import opened CampaignSteps
  import opened CampaignReads
  import opened Elections
  import opened Progress
  import opened Winning
  import opened DueDeletions
  import opened FirstInLine
  import opened OnCourseRuns

  /** Some run ends in this state. */
  ghost predicate Reachable(s: System) {
    exists states: seq<System>, moves: seq<Move> :: IsRun(states, moves) && states[|moves|] == s
  }

  lemma StartIsReachable()
    ensures Reachable(System([], []))
  {
    assert IsRun([System([], [])], []);
  }

  lemma ReachableNext(s: System, m: Move)
    requires Reachable(s) && Possible(s, m)
    ensures Reachable(After(s, m))
  {
    var states, moves :| IsRun(states, moves) && states[|moves|] == s;
    var longer, more := states + [After(s, m)], moves + [m];
    forall i | 0 <= i < |more| ensures Possible(longer[i], more[i]) && longer[i + 1] == After(longer[i], more[i]) {
      if i < |moves| {
        assert longer[i] == states[i] && longer[i + 1] == states[i + 1] && more[i] == moves[i];
      }
    }
    assert IsRun(longer, more) && longer[|more|] == After(s, m);
  }

  lemma ReachableIsCovered(s: System)
    requires Reachable(s)
    ensures SystemCovered(s)
  {
    var states, moves :| IsRun(states, moves) && states[|moves|] == s;
    RunKeepsCovered(states, moves, |moves|);
  }

  lemma Act(s: System, a: Action) returns (t: System)
    requires Reachable(s) && |s.clients| == 1 && Enabled(s.log, s.clients[0], a)
    ensures Possible(s, Acts(0, a)) && t == After(s, Acts(0, a))
    ensures Reachable(t) && |t.clients| == 1
    ensures t.log == Step(s.log, s.clients[0], a).0 && t.clients[0] == Step(s.log, s.clients[0], a).1
  {
    ReachableIsCovered(s);
    t := After(s, Acts(0, a));
    ReachableNext(s, Acts(0, a));
  }

  lemma ChangeByOthers(s: System, change: Change) returns (t: System)
    requires Reachable(s) && ValidChange(Now(s.log), change)
    ensures Reachable(t) && t.clients == s.clients && t.log == s.log + [change]
    ensures Now(t.log) == Apply(Now(s.log), change, Revision(s.log) + 1)
  {
    NowStep(s.log, change);
    t := After(s, OthersChange(change));
    ReachableNext(s, OthersChange(change));
  }

  lemma DeleteByOthers(s: System, k: Bytes) returns (t: System)
    requires Reachable(s) && k in Now(s.log)
    ensures Reachable(t) && t.clients == s.clients
    ensures t.log == s.log + [DeleteKeys([k])] && Now(t.log) == Now(s.log) - {k}
  {
    assert (set x | x in [k]) == {k};
    t := ChangeByOthers(s, DeleteKeys([k]));
  }

  /** The only candidate waits, and the campaign goes on. */
  ghost predicate Waits(c: Client, cs: Candidate, watched: set<Bytes>, watches: seq<Watch>) {
    && InTheRunning(c) && SameNode(cs, c.cs) && !c.cs.ops.shutdown && !c.cs.readOps.shutdown
    && c.cs.watchedKeys == watched && c.watches == watches
  }

  ghost predicate WaitsForAnswer(s: System, cs: Candidate, watched: set<Bytes>, watches: seq<Watch>) {
    && Reachable(s) && |s.clients| == 1 && Waits(s.clients[0], cs, watched, watches)
    && |s.clients[0].outstanding| == 1 && Asked(s.clients[0].outstanding[0])
  }

  ghost predicate WaitsForRead(s: System, cs: Candidate, watched: set<Bytes>, watches: seq<Watch>) {
    && Reachable(s) && |s.clients| == 1 && Waits(s.clients[0], cs, watched, watches)
    && |s.clients[0].outstanding| == 1 && s.clients[0].outstanding[0].ReadPending?
  }

  lemma JoinFirst(s: System, name: Bytes, leaseId: LeaseId, value: Bytes) returns (t: System)
    requires Reachable(s) && s.clients == []
    ensures Reachable(t) && t.log == s.log && t.clients == [NewClient(name, leaseId, value)]
  {
    var joins := Joins(name, leaseId, value);
    ReachableIsCovered(s);
    ReachableNext(s, joins);
    t := After(s, joins);
  }

  /** A candidate joins, creates its node and asks who precedes it. */
  lemma JoinAndAsk(s: System, name: Bytes, leaseId: LeaseId, value: Bytes) returns (t: System, cs: Candidate)
    requires Reachable(s) && s.clients == [] && CandidateKey(name, leaseId) !in Now(s.log)
    ensures cs == NewCandidate(name, leaseId, value).(creationRevision := Revision(s.log) + 1)
    ensures WaitsForAnswer(t, cs, {}, []) && Revision(t.log) == Revision(s.log) + 1
    ensures Now(t.log) == Now(s.log)[cs.Key() := Node(value, leaseId, Revision(s.log) + 1)]
  {
    t := JoinFirst(s, name, leaseId, value);
    cs := NewCandidate(name, leaseId, value).(creationRevision := Revision(s.log) + 1);
    NowStep(s.log, PutKey(cs.Key(), value, leaseId));
    t := Act(t, CreateNode);
    ReachableIsCovered(t);
    BeginPosts(t.clients[0]);
    t := Act(t, BeginCampaign);
  }

  lemma AnswerWith(s: System, cs: Candidate, watched: set<Bytes>, watches: seq<Watch>, kv: KeyValue) returns (t: System)
    requires WaitsForAnswer(s, cs, watched, watches)
    requires IsAnswer(Now(s.log), PredecessorQuery(s.clients[0].cs), [kv])
    ensures Reachable(t) && t.log == s.log && |t.clients| == 1 && Waits(t.clients[0], cs, watched, watches)
    ensures t.clients[0].outstanding ==
              [RangePending(PredecessorQuery(s.clients[0].cs), Some(RangeResponse(Revision(s.log), [kv])))]
  {
    var c := s.clients[0];
    ReachableIsCovered(s);
    assert c.outstanding[0] in c.outstanding;
    AnswerPosts(s.log, c, 0, [kv]);
    t := Act(s, AnswerRange(0, [kv]));
  }

  lemma CompleteAnswer(
    s: System, cs: Candidate, watched: set<Bytes>, watches: seq<Watch>, req: RangeRequest, kv: KeyValue, r: nat)
    returns (t: System)
    requires Reachable(s) && |s.clients| == 1 && Waits(s.clients[0], cs, watched, watches)
    requires s.clients[0].outstanding == [RangePending(req, Some(RangeResponse(r, [kv])))]
    ensures Reachable(t) && t.log == s.log && |t.clients| == 1
    ensures Waits(t.clients[0], cs, watched + {kv.key}, watches)
    ensures t.clients[0].outstanding == [WritePending(kv.key, r)]
  {
    ReachableIsCovered(s);
    RangePosts(s.clients[0], 0, RangeResponse(r, [kv]));
    t := Act(s, RangeDone(0, true));
    CompleteAnswerKeeps(s.clients[0], t.clients[0], RangeResponse(r, [kv]));
  }

  lemma CompleteAnswerKeeps(c: Client, d: Client, response: RangeResponse)
    requires Tokens(c) && |c.outstanding| == 1 && c.outstanding[0].RangePending?
    requires c.outstanding[0].answer == Some(response) && |response.kvs| == 1 && d == StepRange(c, 0, true)
    ensures d.phase == c.phase && d.watches == c.watches && d.history.electedAt == c.history.electedAt
    ensures d.cs.ops.shutdown == c.cs.ops.shutdown && d.cs.readOps.shutdown == c.cs.readOps.shutdown
  {
    RangeResult(c.cs, response);
  }

  /** The server names a predecessor, and its watch is created. */
  lemma WatchPredecessor(s: System, cs: Candidate, watched: set<Bytes>, watches: seq<Watch>, kv: KeyValue)
    returns (t: System)
    requires WaitsForAnswer(s, cs, watched, watches)
    requires IsAnswer(Now(s.log), PredecessorQuery(s.clients[0].cs), [kv])
    ensures t.log == s.log
    ensures WaitsForRead(t, cs, watched + {kv.key}, watches + [Watch(kv.key, Revision(s.log), true)])
  {
    t := AnswerWith(s, cs, watched, watches, kv);
    t := CompleteAnswer(t, cs, watched, watches, PredecessorQuery(s.clients[0].cs), kv, Revision(s.log));
    ReachableIsCovered(t);
    WritePosts(t.clients[0], 0, true);
    t := Act(t, WriteDone(0, true));
  }

  /** A watch is compacted before it has delivered anything. */
  lemma CompactWatch(s: System, cs: Candidate, watched: set<Bytes>, watches: seq<Watch>, j: nat) returns (t: System)
    requires WaitsForRead(s, cs, watched, watches)
    requires j < |watches| && watches[j].open && 1 <= watches[j].next <= Revision(s.log)
    ensures t.log == s.log
    ensures WaitsForAnswer(t, cs, watched, watches[j := watches[j].(open := false)])
  {
    var d := Delivery(j, watches[j].next, false, true, 1, true);
    var c := s.clients[0];
    ReachableIsCovered(s);
    assert Deliver(s.log, c, d).events == [];
    assert DeletedKeys([]) == {};
    ReadPosts(s.log, c, 0, d);
    t := Act(s, ReadDone(0, d));
  }

  /** A delivery leaves keys watched, and the candidate reads on. */
  lemma ReadOn(s: System, cs: Candidate, watched: set<Bytes>, watches: seq<Watch>, d: Delivery, left: set<Bytes>)
    returns (t: System)
    requires ValidLog(s.log) && WaitsForRead(s, cs, watched, watches)
    requires Enabled(s.log, s.clients[0], ReadDone(0, d)) && !d.Cancels()
    requires left == watched - DeletedKeys(Deliver(s.log, s.clients[0], d).events) && left != {}
    ensures t.log == s.log && WaitsForRead(t, cs, left, AfterDelivery(watches, d))
  {
    ReachableIsCovered(s);
    ReadPosts(s.log, s.clients[0], 0, d);
    t := Act(s, ReadDone(0, d));
  }

  /** A watch delivers the deletion of its key while another key is watched. */
  lemma DeliverDeletion(s: System, cs: Candidate, watched: set<Bytes>, watches: seq<Watch>, j: nat) returns (t: System)
    requires WaitsForRead(s, cs, watched, watches)
    requires j < |watches| && watches[j].open && 1 <= watches[j].next <= Revision(s.log)
    requires JustDeleted(s.log, watches[j].key) && watched - {watches[j].key} != {}
    ensures t.log == s.log
    ensures WaitsForRead(t, cs, watched - {watches[j].key}, watches[j := watches[j].(next := Revision(s.log) + 1)])
  {
    var d := Delivery(j, Revision(s.log) + 1, false, false, 0, true);
    ReachableIsCovered(s);
    ErasesItsKey(s.log, s.clients[0], d, watches[j].key);
    t := ReadOn(s, cs, watched, watches, d, watched - {watches[j].key});
  }

  /** The node under the key is the last one that precedes the candidate's. */
  lemma IsLast(log: Log, cs: Candidate, k: Bytes)
    requires cs.creationRevision >= 2 && k in Predecessors(Now(log), cs.Rank())
    requires forall other :: other in Predecessors(Now(log), cs.Rank()) ==>
               Now(log)[other].createRevision <= Now(log)[k].createRevision
    ensures IsAnswer(Now(log), PredecessorQuery(cs), [ToKeyValue(k, Now(log)[k])])
  {
    forall other ensures Matches(Now(log), PredecessorQuery(cs), other) <==> other in Predecessors(Now(log), cs.Rank())
    {
      ElectionRangeIsExact(cs.name, other);
    }
  }

  /** First in line with a live node. */
  ghost predicate IsFirst(s: System) {
    && Reachable(s) && |s.clients| == 1
    && var c := s.clients[0];
       InTheRunning(c) && OwnsNode(c.cs, Now(s.log)) && Leads(Now(s.log), c.cs.Rank())
  }

  lemma CanWinNow(s: System)
    requires Reachable(s) && |s.clients| == 1 && InTheRunning(s.clients[0])
    requires !s.clients[0].cs.ops.shutdown && !s.clients[0].cs.readOps.shutdown
    ensures CanWin(s, 0) <==> !Lost(s.log, s.clients[0])
    ensures Leads(Now(s.log), s.clients[0].cs.Rank()) ==> (CanWinAlone(s, 0) <==> OnCourse(s.log, s.clients[0]))
  {
    var states, moves :| IsRun(states, moves) && states[|moves|] == s;
    CanWinIff(states, moves, |moves|, 0);
    if Leads(Now(s.log), s.clients[0].cs.Rank()) {
      CanWinAloneIff(states, moves, |moves|, 0);
    }
  }

  /** The candidate finds a node under its key with the value it was to write, but under another lease, and takes it
      over as it is. */
  lemma TakesOverForeignNode(name: Bytes, leaseId: LeaseId, value: Bytes, lease: int) returns (s: System)
    ensures Reachable(s) && |s.clients| == 1 && s.clients[0].phase.Ready?
    ensures
      var cs := s.clients[0].cs;
      && cs.leaseId == leaseId && OwnsNode(cs, Now(s.log)) && Now(s.log)[cs.Key()].lease == lease
  {
    StartIsReachable();
    var put := PutKey(CandidateKey(name, leaseId), value, lease);
    s := ChangeByOthers(System([], []), put);
    s := JoinFirst(s, name, leaseId, value);
    s := Act(s, CreateNode);
  }

  /** The query fails, and its count stays behind. */
  lemma RangeFailure(name: Bytes, leaseId: LeaseId, value: Bytes) returns (s: System)
    ensures Reachable(s) && |s.clients| == 1 && s.clients[0].history.cancelledRanges > 0
  {
    StartIsReachable();
    var cs;
    s, cs := JoinAndAsk(System([], []), name, leaseId, value);
    s := Act(s, RangeDone(0, false));
  }

  /** The last predecessor is watched and deleted. */
  lemma WatchAndDelete(s: System, cs: Candidate, watched: set<Bytes>, watches: seq<Watch>, k: Bytes)
    returns (t: System)
    requires WaitsForAnswer(s, cs, watched, watches) && k in Predecessors(Now(s.log), cs.Rank())
    requires forall other :: other in Predecessors(Now(s.log), cs.Rank()) ==>
               Now(s.log)[other].createRevision <= Now(s.log)[k].createRevision
    ensures WaitsForRead(t, cs, watched + {k}, watches + [Watch(k, Revision(s.log), true)])
    ensures t.log == s.log + [DeleteKeys([k])] && Now(t.log) == Now(s.log) - {k}
  {
    ReachableIsCovered(s);
    IsLast(s.log, s.clients[0].cs, k);
    t := WatchPredecessor(s, cs, watched, watches, ToKeyValue(k, Now(s.log)[k]));
    t := DeleteByOthers(t, k);
  }

  /** The last predecessor is watched and deleted, and the compaction of its watch hides that. */
  lemma HideDeletion(s: System, cs: Candidate, watched: set<Bytes>, watches: seq<Watch>, k: Bytes) returns (t: System)
    requires WaitsForAnswer(s, cs, watched, watches) && k in Predecessors(Now(s.log), cs.Rank())
    requires forall other :: other in Predecessors(Now(s.log), cs.Rank()) ==>
               Now(s.log)[other].createRevision <= Now(s.log)[k].createRevision
    ensures WaitsForAnswer(t, cs, watched + {k}, watches + [Watch(k, Revision(s.log), false)])
    ensures t.log == s.log + [DeleteKeys([k])] && Now(t.log) == Now(s.log) - {k}
  {
    t := WatchAndDelete(s, cs, watched, watches, k);
    var now := watches + [Watch(k, Revision(s.log), true)];
    t := CompactWatch(t, cs, watched + {k}, now, |watches|);
    assert now[|watches| := now[|watches|].(open := false)] == watches + [Watch(k, Revision(s.log), false)];
  }

  lemma DeliverLast(s: System, cs: Candidate, watched: set<Bytes>, watches: seq<Watch>, k: Bytes, next: nat)
    returns (t: System)
    requires WaitsForRead(s, cs, watched + {k}, watches + [Watch(k, next, true)])
    requires 1 <= next <= Revision(s.log) && watched != {} && k !in watched && JustDeleted(s.log, k)
    ensures t.log == s.log && WaitsForRead(t, cs, watched, watches + [Watch(k, Revision(s.log) + 1, true)])
  {
    var now := watches + [Watch(k, next, true)];
    assert watched + {k} - {k} == watched;
    assert now[|watches|] == Watch(k, next, true);
    t := DeliverDeletion(s, cs, watched + {k}, now, |watches|);
    assert now[|watches| := Watch(k, Revision(s.log) + 1, true)] == watches + [Watch(k, Revision(s.log) + 1, true)];
  }

  /** The last predecessor is watched, deleted and reported, while other keys are watched. */
  lemma ReportDeletion(s: System, cs: Candidate, watched: set<Bytes>, watches: seq<Watch>, k: Bytes) returns (t: System)
    requires WaitsForAnswer(s, cs, watched, watches) && k in Predecessors(Now(s.log), cs.Rank())
    requires forall other :: other in Predecessors(Now(s.log), cs.Rank()) ==>
               Now(s.log)[other].createRevision <= Now(s.log)[k].createRevision
    requires watched != {} && k !in watched
    ensures WaitsForRead(t, cs, watched, watches + [Watch(k, Revision(s.log) + 2, true)])
    ensures t.log == s.log + [DeleteKeys([k])] && Now(t.log) == Now(s.log) - {k}
  {
    t := WatchAndDelete(s, cs, watched, watches, k);
    t := DeliverLast(t, cs, watched, watches, k, Revision(s.log));
  }

  /** One node precedes the candidate's. It is deleted, and the watch that would say so is compacted. */
  lemma CompactionHidesDeletion(name: Bytes, leaseId: LeaseId, value: Bytes, other: Bytes) returns (s: System)
    requires InElection(name, other) && other != CandidateKey(name, leaseId)
    ensures IsFirst(s) && !CanWin(s, 0) && |s.clients[0].outstanding| == 1 && Asked(s.clients[0].outstanding[0])
  {
    var cs;
    s, cs := OneBefore(name, leaseId, value, other);
    s := HideDeletion(s, cs, {}, [], other);
    AloneIsFirst(s, cs, {other}, [Watch(other, 3, false)]);
    assert other in s.clients[0].cs.watchedKeys;
    CanWinNow(s);
  }

  lemma OneBefore(name: Bytes, leaseId: LeaseId, value: Bytes, other: Bytes) returns (s: System, cs: Candidate)
    requires InElection(name, other) && other != CandidateKey(name, leaseId)
    ensures cs == NewCandidate(name, leaseId, value).(creationRevision := 3) && WaitsForAnswer(s, cs, {}, [])
    ensures Revision(s.log) == 3
    ensures Now(s.log) == map[other := Node([], 0, 2), cs.Key() := Node(value, leaseId, 3)]
  {
    StartIsReachable();
    s := ChangeByOthers(System([], []), PutKey(other, [], 0));
    s, cs := JoinAndAsk(s, name, leaseId, value);
  }

  lemma TwoBefore(name: Bytes, leaseId: LeaseId, value: Bytes, a: Bytes, b: Bytes) returns (s: System, cs: Candidate)
    requires InElection(name, a) && InElection(name, b) && a != b
    requires a != CandidateKey(name, leaseId) && b != CandidateKey(name, leaseId)
    ensures cs == NewCandidate(name, leaseId, value).(creationRevision := 4) && WaitsForAnswer(s, cs, {}, [])
    ensures Revision(s.log) == 4
    ensures Now(s.log) == map[a := Node([], 0, 2), b := Node([], 0, 3), cs.Key() := Node(value, leaseId, 4)]
  {
    StartIsReachable();
    s := ChangeByOthers(System([], []), PutKey(a, [], 0));
    s := ChangeByOthers(s, PutKey(b, [], 0));
    s, cs := JoinAndAsk(s, name, leaseId, value);
  }

  lemma LaterHidden(name: Bytes, leaseId: LeaseId, value: Bytes, a: Bytes, b: Bytes) returns (s: System, cs: Candidate)
    requires InElection(name, a) && InElection(name, b) && a != b
    requires a != CandidateKey(name, leaseId) && b != CandidateKey(name, leaseId)
    ensures cs == NewCandidate(name, leaseId, value).(creationRevision := 4)
    ensures WaitsForAnswer(s, cs, {b}, [Watch(b, 4, false)]) && Revision(s.log) == 5
    ensures Now(s.log) == map[a := Node([], 0, 2), cs.Key() := Node(value, leaseId, 4)]
  {
    s, cs := TwoBefore(name, leaseId, value, a, b);
    LastOfTwo(Now(s.log), cs, a, b, value);
    s := HideDeletion(s, cs, {}, [], b);
  }

  lemma LastOfTwo(live: Live, cs: Candidate, a: Bytes, b: Bytes, value: Bytes)
    requires live == map[a := Node([], 0, 2), b := Node([], 0, 3), cs.Key() := Node(value, cs.leaseId, 4)]
    requires InElection(cs.name, b) && cs.creationRevision == 4 && a != b && a != cs.Key() && b != cs.Key()
    ensures b in Predecessors(live, cs.Rank())
    ensures forall k :: k in Predecessors(live, cs.Rank()) ==> live[k].createRevision <= live[b].createRevision
    ensures live - {b} == map[a := Node([], 0, 2), cs.Key() := Node(value, cs.leaseId, 4)]
  {
  }

  /** The candidate's node is the only one left. */
  lemma AloneIsFirst(s: System, cs: Candidate, watched: set<Bytes>, watches: seq<Watch>)
    requires Reachable(s) && |s.clients| == 1 && Waits(s.clients[0], cs, watched, watches)
    requires Now(s.log).Keys == {cs.Key()} && Now(s.log)[cs.Key()].createRevision == cs.creationRevision
    requires cs.name == s.clients[0].cs.name
    ensures IsFirst(s)
  {
  }

  /** Two nodes precede the candidate's. The later one is deleted, and the watch that would say so is compacted; then
      the earlier one is watched, deleted and reported. The candidate goes on reading, for a key that nobody watches. */
  lemma StaleKeyKeepsReading(name: Bytes, leaseId: LeaseId, value: Bytes, a: Bytes, b: Bytes) returns (s: System)
    requires InElection(name, a) && InElection(name, b) && a != b
    requires a != CandidateKey(name, leaseId) && b != CandidateKey(name, leaseId)
    ensures IsFirst(s) && !CanWin(s, 0) && ReadsInVain(s, 0, b)
  {
    var cs;
    s, cs := LaterHidden(name, leaseId, value, a, b);
    s := ReportDeletion(s, cs, {b}, [Watch(b, 4, false)], a);
    AloneIsFirst(s, cs, {b}, [Watch(b, 4, false), Watch(a, 7, true)]);
    KeepsReading(s, cs, b, a);
  }

  lemma KeepsReading(s: System, cs: Candidate, k: Bytes, other: Bytes)
    requires k != other && WaitsForRead(s, cs, {k}, [Watch(k, 4, false), Watch(other, 7, true)]) && k !in Now(s.log)
    ensures !CanWin(s, 0) && ReadsInVain(s, 0, k)
  {
    ReachableIsCovered(s);
    UnwatchedIsStale(s.log, s.clients[0], k, other);
    CanWinNow(s);
  }

  lemma UnwatchedIsStale(log: Log, c: Client, k: Bytes, other: Bytes)
    requires c.cs.watchedKeys == {k} && k != other && k !in Now(log)
    requires c.watches == [Watch(k, 4, false), Watch(other, 7, true)]
    requires |c.outstanding| == 1 && c.outstanding[0].ReadPending?
    ensures Stale(log, c, k) && Lost(log, c)
  {
    assert Stale(log, c, k);
  }

  lemma StrippedErasesNothing(log: Log, c: Client, d: Delivery, k: Bytes)
    requires ValidLog(log) && d.watch < |c.watches| && !d.prevKv && k != []
    requires 1 <= c.watches[d.watch].next <= d.upTo <= Revision(log) + 1
    ensures {k} - DeletedKeys(Deliver(log, c, d).events) == {k}
  {
    var w := c.watches[d.watch];
    StrippedNamesNothing(Events(log, w.next, d.upTo, w.key, []));
  }

  /** A watch delivers the deletion of its key without the previous value, so the candidate does not learn the key. */
  lemma StripDeletion(s: System, cs: Candidate, k: Bytes, next: nat) returns (t: System)
    requires WaitsForRead(s, cs, {k}, [Watch(k, next, true)]) && 1 <= next <= Revision(s.log) && k != []
    ensures t.log == s.log && WaitsForRead(t, cs, {k}, [Watch(k, Revision(s.log) + 1, true)])
  {
    var d := Delivery(0, Revision(s.log) + 1, false, false, 0, false);
    ReachableIsCovered(s);
    StrippedErasesNothing(s.log, s.clients[0], d, k);
    t := ReadOn(s, cs, {k}, [Watch(k, next, true)], d, {k});
  }

  /** One node precedes the candidate's. It is deleted, and the deletion comes without its previous value. The watch is
      open, so the campaign is not lost: somebody may create and delete that node again. But nothing the candidate has
      in flight will ever make it the leader. */
  lemma DeletionWithoutValue(name: Bytes, leaseId: LeaseId, value: Bytes, other: Bytes) returns (s: System)
    requires InElection(name, other) && other != CandidateKey(name, leaseId)
    ensures IsFirst(s) && CanWin(s, 0) && !CanWinAlone(s, 0)
    ensures s.clients[0].watches == [Watch(other, Revision(s.log) + 1, true)]
  {
    var cs;
    s, cs := OneBefore(name, leaseId, value, other);
    s := WatchAndDelete(s, cs, {}, [], other);
    s := StripDeletion(s, cs, other, 3);
    AloneIsFirst(s, cs, {other}, [Watch(other, Revision(s.log) + 1, true)]);
    OnlyOthersHelp(s, cs, other);
  }

  lemma OnlyOthersHelp(s: System, cs: Candidate, k: Bytes)
    requires WaitsForRead(s, cs, {k}, [Watch(k, Revision(s.log) + 1, true)]) && IsFirst(s)
    ensures CanWin(s, 0) && !CanWinAlone(s, 0)
  {
    NothingDue(s.log, s.clients[0], k);
    CanWinNow(s);
  }

  lemma NothingDue(log: Log, c: Client, k: Bytes)
    requires |c.outstanding| == 1 && c.outstanding[0].ReadPending?
    requires c.cs.watchedKeys == {k} && c.watches == [Watch(k, Revision(log) + 1, true)]
    ensures !OnCourse(log, c) && !Lost(log, c)
  {
    assert c.watches[0].open && c.watches[0].key == k;
    assert !DueOnWatch(log, c, k);
    assert k in c.cs.watchedKeys;
  }
}
