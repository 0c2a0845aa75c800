/** Every step of a campaign keeps the invariant. */
module CampaignSteps {
  import opened ByteStrings
  import opened Keys
  import opened Etcd
  import opened Candidates
  import opened Campaign
  import opened CampaignInvariants

  // ---- transactions ----------------------------------------------------------------------------------------------

  lemma CreateKeepsInv(log: Log, c: Client)
    requires ValidLog(log) && Inv(log, c) && Enabled(log, c, CreateNode)
    ensures
      var (log', c') := Step(log, c, CreateNode);
      ValidLog(log') && log <= log' && Inv(log', c')
  {
    CommitIsValid(log, CreateTxn(c.cs));
    CreateTxnOwns(c.cs, log);
  }

  lemma PublishKeepsInv(log: Log, c: Client)
    requires ValidLog(log) && Inv(log, c) && Enabled(log, c, PublishNode)
    ensures
      var (log', c') := Step(log, c, PublishNode);
      ValidLog(log') && log <= log' && Inv(log', c')
  {
    var log' := Commit(log, NextTxn(c));
    CommitIsValid(log, NextTxn(c));
    InvStable(log, log', c);
  }

  lemma RpcFailsKeepsInv(log: Log, c: Client, applied: bool)
    requires ValidLog(log) && Inv(log, c) && Enabled(log, c, RpcFails(applied))
    ensures
      var (log', c') := Step(log, c, RpcFails(applied));
      ValidLog(log') && log <= log' && Inv(log', c')
  {
    CommitIsValid(log, NextTxn(c));
    InvStable(log, Commit(log, NextTxn(c)), c);
  }

  lemma ProclaimKeepsInv(log: Log, c: Client, value: Bytes, replyLost: bool)
    requires ValidLog(log) && Inv(log, c) && Enabled(log, c, ProclaimValue(value, replyLost))
    ensures
      var (log', c') := Step(log, c, ProclaimValue(value, replyLost));
      ValidLog(log') && log <= log' && Inv(log', c')
  {
    var txn := PublishTxn(c.cs, value, NothingOnFailure);
    CommitIsValid(log, txn);
    InvStable(log, Commit(log, txn), c);
    UnchangedKeeps(Commit(log, txn), c, Step(log, c, ProclaimValue(value, replyLost)).1);
  }

  /** Two candidates for the same node. */
  predicate SameNode(a: Candidate, b: Candidate) {
    a.leaseId == b.leaseId && a.Rank() == b.Rank()
  }

  /** What the invariant says about the store carries over when only other fields change. */
  lemma UnchangedKeeps(log: Log, c: Client, d: Client)
    requires Inv(log, c) && Tokens(d) && SameNode(c.cs, d.cs) && d.cs.watchedKeys == c.cs.watchedKeys
    requires d.phase == c.phase && d.outstanding == c.outstanding && d.watches == c.watches
    requires d.history == c.history.(clean := d.history.clean) && (d.history.clean ==> c.history.clean)
    requires ThinksElected(d.cs) ==> ThinksElected(c.cs)
    requires d.history.clean ==>
      d.cs.elected == c.cs.elected && !d.cs.ops.shutdown && !d.cs.readOps.shutdown
    ensures Inv(log, d)
  {
    if c.phase.Campaigning? && d.history.clean && !c.cs.elected && Waiting(c.outstanding[0]) {
      var k :| c.cs.watchedKeys == {k} && WaitsFor(log, c, k);
      assert WaitsFor(log, d, k);
    }
  }

  lemma SendOne(op: Op)
    ensures SendAll([op]) == [Send(op)]
  {
  }

  /** What the beginning of a campaign does, without the rest of the candidate. */
  predicate Begun(c: Client, d: Client) {
    && c.phase.Ready? && d.phase.Campaigning? && SameNode(c.cs, d.cs) && d.watches == c.watches
    && d.cs.watchedKeys == c.cs.watchedKeys && (ThinksElected(d.cs) ==> ThinksElected(c.cs))
    && d.cs.ops.shutdown == c.cs.ops.shutdown && d.cs.readOps.shutdown == c.cs.readOps.shutdown
    && (!c.cs.ops.shutdown ==> d.cs.elected == c.cs.elected)
    && d.outstanding == (if c.cs.ops.shutdown then [] else [RangePending(PredecessorQuery(d.cs), None)])
    && d.history == c.history.(queries := c.history.queries + (if c.cs.ops.shutdown then 0 else 1))
  }

  lemma BeginPosts(c: Client)
    requires Tokens(c) && c.phase.Ready?
    ensures Begun(c, StepBegin(c)) && Tokens(StepBegin(c))
  {
    SendOne(PostRange(PredecessorQuery(c.cs)));
    assert c.outstanding == [];
  }

  lemma BeginKeepsKnowledge(log: Log, c: Client, d: Client)
    requires Knows(log, c) && Sighted(log, c) && Begun(c, d)
    ensures Knows(log, d) && Sighted(log, d)
  {
  }

  lemma BeginKeepsRest(log: Log, c: Client, d: Client)
    requires Knows(log, c) && Chain(log, c) && Sighted(log, c) && Bounded(log, c) && Begun(c, d)
    ensures Chain(log, d) && Bounded(log, d)
  {
  }

  lemma BeginKeepsInv(log: Log, c: Client)
    requires ValidLog(log) && Inv(log, c) && Enabled(log, c, BeginCampaign)
    ensures Inv(log, StepBegin(c))
  {
    BeginPosts(c);
    BeginKeepsKnowledge(log, c, StepBegin(c));
    BeginKeepsRest(log, c, StepBegin(c));
  }

  // ---- Range -----------------------------------------------------------------------------------------------------

  /** What an answer to the predecessor query says: either nothing precedes the candidate, or here is the last node
      that does. The query's bound is never zero, so it is never taken for no bound. */
  lemma AnswerMeans(log: Log, cs: Candidate, response: RangeResponse)
    requires cs.creationRevision >= 2 && AnsweredAt(log, cs, PredecessorQuery(cs), response)
    ensures |response.kvs| <= 1
    ensures response.kvs == [] <==> Leads(At(log, response.revision), cs.Rank())
    ensures response.kvs != [] ==>
              Sees(log, cs.Rank(), response.kvs[0].key, Sighting(response.kvs[0].createRevision, response.revision))
  {
    var live, req := At(log, response.revision), PredecessorQuery(cs);
    forall k ensures Matches(live, req, k) <==> k in Predecessors(live, cs.Rank()) {
      ElectionRangeIsExact(cs.name, k);
    }
    if response.kvs == [] {
      forall k ensures k !in Predecessors(live, cs.Rank()) {
        assert !Matches(live, req, k);
      }
    } else {
      assert response.kvs[0].key in Predecessors(live, cs.Rank());
      forall other | other in Predecessors(live, cs.Rank())
        ensures live[other].createRevision <= response.kvs[0].createRevision
      {
        assert Matches(live, req, other);
      }
    }
  }

  lemma AnswerPosts(log: Log, c: Client, i: nat, kvs: seq<KeyValue>)
    requires Inv(log, c) && Enabled(log, c, AnswerRange(i, kvs))
    ensures
      var response := RangeResponse(Revision(log), kvs);
      && Answers(log, c, i, kvs) && AnsweredAt(log, c.cs, PredecessorQuery(c.cs), response)
      && |kvs| <= 1 && (kvs == [] <==> Leads(Now(log), c.cs.Rank()))
      && (kvs != [] ==> kvs[0].key in Predecessors(Now(log), c.cs.Rank()))
  {
    AnswerIsSent(log, c, i, kvs);
    AnswerMeans(log, c.cs, RangeResponse(Revision(log), kvs));
  }

  lemma AnswerIsSent(log: Log, c: Client, i: nat, kvs: seq<KeyValue>)
    requires Tokens(c) && Knows(log, c) && Enabled(log, c, AnswerRange(i, kvs))
    ensures Answers(log, c, i, kvs) && c.cs.creationRevision >= 2
    ensures AnsweredAt(log, c.cs, PredecessorQuery(c.cs), RangeResponse(Revision(log), kvs))
  {
    assert c.outstanding[i] in c.outstanding && c.outstanding == [c.outstanding[0]];
  }

  lemma AnswerKeepsInv(log: Log, c: Client, i: nat, kvs: seq<KeyValue>)
    requires ValidLog(log) && Inv(log, c) && Enabled(log, c, AnswerRange(i, kvs))
    ensures Inv(log, StepAnswer(log, c, i, kvs))
  {
    AnswerPosts(log, c, i, kvs);
    AnswerKeepsKnowledge(log, c, i, kvs);
    AnswerKeepsRest(log, c, i, kvs);
    AnswerKeepsBounded(log, c, i, kvs);
  }

  predicate Answers(log: Log, c: Client, i: nat, kvs: seq<KeyValue>) {
    && i == 0 && c.outstanding == [RangePending(PredecessorQuery(c.cs), None)]
    && StepAnswer(log, c, i, kvs).outstanding ==
         [RangePending(PredecessorQuery(c.cs), Some(RangeResponse(Revision(log), kvs)))]
  }

  lemma AnswerKeepsKnowledge(log: Log, c: Client, i: nat, kvs: seq<KeyValue>)
    requires Knows(log, c) && Sighted(log, c) && Answers(log, c, i, kvs)
    requires AnsweredAt(log, c.cs, PredecessorQuery(c.cs), RangeResponse(Revision(log), kvs))
    ensures Knows(log, StepAnswer(log, c, i, kvs)) && Sighted(log, StepAnswer(log, c, i, kvs))
  {
  }

  lemma AnswerKeepsRest(log: Log, c: Client, i: nat, kvs: seq<KeyValue>)
    requires Tokens(c) && Chain(log, c) && Answers(log, c, i, kvs)
    ensures Tokens(StepAnswer(log, c, i, kvs)) && Chain(log, StepAnswer(log, c, i, kvs))
  {
  }

  lemma AnswerKeepsBounded(log: Log, c: Client, i: nat, kvs: seq<KeyValue>)
    requires Tokens(c) && Bounded(log, c) && Answers(log, c, i, kvs)
    requires kvs != [] ==> kvs[0].key in Predecessors(Now(log), c.cs.Rank())
    ensures Bounded(log, StepAnswer(log, c, i, kvs))
  {
    assert c.outstanding[0] in c.outstanding;
  }

  /** The three ways a callback can take an answer of at most one key. */
  lemma RangeResult(cs: Candidate, response: RangeResponse)
    requires |response.kvs| <= 1
    ensures
      var done := cs.(ops := cs.ops.Done());
      OnRangeRequest(cs, true, response) ==
        if response.kvs == [] then (CheckElectionOver(done), [])
        else if cs.ops.shutdown then (done, [])
        else
          (done.(ops := done.ops.Start(), watchedKeys := done.watchedKeys + {response.kvs[0].key}),
           [PostWatch(response.kvs[0].key, response.revision)])
  {
    var done, kvs := cs.(ops := cs.ops.Done()), response.kvs;
    if kvs != [] {
      assert kvs[..|kvs| - 1] == [];
      assert WatchAll(done, [], response.revision) == (done, [], true);
      assert [] + [PostWatch(kvs[0].key, response.revision)] == [PostWatch(kvs[0].key, response.revision)];
      if !cs.ops.shutdown {
        var one := done.(ops := done.ops.Start(), watchedKeys := done.watchedKeys + {kvs[0].key});
        assert WatchAll(done, kvs, response.revision) == (one, [PostWatch(kvs[0].key, response.revision)], true);
        assert CheckElectionOver(one) == one;
      }
    }
  }

  lemma RangeFailsKeepsInv(log: Log, c: Client, i: nat)
    requires ValidLog(log) && Inv(log, c) && Enabled(log, c, RangeDone(i, false))
    ensures Inv(log, StepRange(c, i, false))
  {
    RangeFailsLeavesNothing(c, i);
    RangeFailsKeepsRest(log, c, StepRange(c, i, false));
  }

  lemma RangeFailsLeavesNothing(c: Client, i: nat)
    requires Tokens(c) && i < |c.outstanding| && c.outstanding[i].RangePending?
    ensures Tokens(StepRange(c, i, false)) && RangeFailed(c, StepRange(c, i, false))
  {
    assert c.outstanding == [c.outstanding[0]];
  }

  predicate RangeFailed(c: Client, d: Client) {
    && SameNode(c.cs, d.cs) && d.phase == c.phase && d.watches == c.watches && d.outstanding == []
    && d.cs.watchedKeys == c.cs.watchedKeys && (ThinksElected(d.cs) ==> ThinksElected(c.cs))
    && d.history == c.history.(cancelledRanges := c.history.cancelledRanges + 1, clean := false)
  }

  lemma RangeFailsKeepsRest(log: Log, c: Client, d: Client)
    requires Inv(log, c) && Tokens(d) && RangeFailed(c, d)
    ensures Inv(log, d)
  {
  }

  /** What the completion of a query does, without the rest of the candidate. */
  predicate RangeEffect(c: Client, response: RangeResponse, d: Client) {
    && SameNode(c.cs, d.cs) && d.phase == c.phase && d.watches == c.watches
    && d.cs.ops.shutdown == c.cs.ops.shutdown && d.cs.readOps.shutdown == c.cs.readOps.shutdown
    && (response.kvs == [] && c.cs.watchedKeys == {} ==>
          && d.outstanding == [] && d.cs.watchedKeys == {} && d.cs.elected
          && d.cs.promise == (if c.cs.promise.None? then Some(true) else c.cs.promise)
          && d.history == c.history.(electedAt := Some(response.revision)))
    && (response.kvs != [] || c.cs.watchedKeys != {} ==>
          d.cs.elected == c.cs.elected && d.cs.promise == c.cs.promise)
    && ((if response.kvs == [] then c.cs.watchedKeys != {} else c.cs.ops.shutdown) ==>
          d.outstanding == [] && d.cs.watchedKeys == c.cs.watchedKeys && d.history == c.history)
    && (response.kvs != [] && !c.cs.ops.shutdown ==>
          var kv := response.kvs[0];
          && d.outstanding == [WritePending(kv.key, response.revision)]
          && d.cs.watchedKeys == c.cs.watchedKeys + {kv.key}
          && d.history == c.history.(sightings :=
               c.history.sightings[kv.key := Sighting(kv.createRevision, response.revision)]))
  }

  lemma RangePosts(c: Client, i: nat, response: RangeResponse)
    requires Tokens(c) && i < |c.outstanding| && c.outstanding[i].RangePending?
    requires c.outstanding[i].answer == Some(response) && |response.kvs| <= 1
    ensures RangeEffect(c, response, StepRange(c, i, true)) && Tokens(StepRange(c, i, true))
  {
    RangeResult(c.cs, response);
    assert Without(c.outstanding, 0) == [];
    if response.kvs != [] {
      SendOne(PostWatch(response.kvs[0].key, response.revision));
    }
  }

  lemma RangeKeepsKnows(log: Log, c: Client, d: Client, response: RangeResponse)
    requires Knows(log, c) && c.phase.Campaigning? && RangeEffect(c, response, d)
    requires c.cs.creationRevision <= response.revision && 1 <= response.revision <= Revision(log)
    requires response.kvs == [] ==> Leads(At(log, response.revision), c.cs.Rank())
    ensures Knows(log, d)
  {
  }

  lemma RangeKeepsSighted(log: Log, c: Client, d: Client, response: RangeResponse)
    requires Sighted(log, c) && c.phase.Campaigning? && RangeEffect(c, response, d)
    requires c.cs.creationRevision <= response.revision
    requires response.kvs != [] ==> Sees(log, c.cs.Rank(), response.kvs[0].key,
                                         Sighting(response.kvs[0].createRevision, response.revision))
    ensures Sighted(log, d)
  {
    assert d.history.sightings.Keys == d.cs.watchedKeys;
  }

  lemma RangeKeepsBounded(log: Log, c: Client, d: Client, response: RangeResponse)
    requires Bounded(log, c) && c.phase.Campaigning? && RangeEffect(c, response, d)
    requires response.kvs != [] ==> c.history.latest == Some(response.kvs[0].key)
    ensures Bounded(log, d)
  {
  }

  lemma RangeKeepsChain(log: Log, c: Client, d: Client, response: RangeResponse)
    requires Chain(log, c) && c.phase.Campaigning? && RangeEffect(c, response, d)
    requires c.outstanding != [] && c.outstanding[0].RangePending?
    ensures Chain(log, d)
  {
    if c.history.clean && response.kvs != [] {
      var k := response.kvs[0].key;
      assert d.cs.watchedKeys == {k} && WaitsFor(log, d, k);
    }
  }

  lemma RangeKeepsInv(log: Log, c: Client, i: nat)
    requires ValidLog(log) && Inv(log, c) && Enabled(log, c, RangeDone(i, true))
    ensures Inv(log, StepRange(c, i, true))
  {
    assert c.outstanding[i] in c.outstanding;
    var response, d := c.outstanding[i].answer.value, StepRange(c, i, true);
    AnswerMeans(log, c.cs, response);
    RangePosts(c, i, response);
    RangeKeepsKnows(log, c, d, response);
    RangeKeepsSighted(log, c, d, response);
    RangeKeepsChain(log, c, d, response);
    RangeKeepsBounded(log, c, d, response);
  }
}
