/** The watch callbacks keep the invariant too; with them, every step does. */
module CampaignReads {
  import opened ByteStrings
  import opened Keys
  import opened Etcd
  import opened Candidates
  import opened Campaign
  import opened CampaignInvariants
  import opened CampaignSteps

  /** What the completion of the Write that creates a watch does, without the rest of the candidate. */
  predicate WriteEffect(c: Client, w: Pending, ok: bool, d: Client)
    requires w.WritePending?
  {
    && SameNode(c.cs, d.cs) && d.phase == c.phase && d.cs.watchedKeys == c.cs.watchedKeys
    && d.cs.elected == c.cs.elected && d.cs.promise == c.cs.promise
    && d.cs.ops == c.cs.ops.Done() && d.drain == c.drain && d.tracers == c.tracers
    && d.cs.readOps == (if ok then c.cs.readOps.Start() else c.cs.readOps)
    && d.outstanding == (if ok && !c.cs.readOps.shutdown then [ReadPending(w.key, w.startRevision)] else [])
    && d.watches == (if ok then c.watches + [Watch(w.key, w.startRevision, true)] else c.watches)
    && d.history == c.history.(clean := c.history.clean && ok)
  }

  lemma WriteIsDone(c: Client, i: nat, ok: bool)
    requires |c.outstanding| == 1 && i < |c.outstanding| && c.outstanding[i].WritePending?
    ensures WriteEffect(c, c.outstanding[i], ok, StepWrite(c, i, ok))
  {
    SendOne(PostRead(c.outstanding[i].key, c.outstanding[i].startRevision));
    assert Without(c.outstanding, 0) == [];
  }

  lemma WriteKeepsTokens(c: Client, w: Pending, ok: bool, d: Client)
    requires Tokens(c) && w.WritePending? && c.outstanding == [w] && WriteEffect(c, w, ok, d)
    ensures Tokens(d)
  {
    assert w in c.outstanding;
    CountAtMostOne(c.outstanding);
    CountAtMostOne(d.outstanding);
  }

  lemma WritePosts(c: Client, i: nat, ok: bool)
    requires Tokens(c) && i < |c.outstanding| && c.outstanding[i].WritePending?
    ensures WriteEffect(c, c.outstanding[i], ok, StepWrite(c, i, ok)) && Tokens(StepWrite(c, i, ok))
  {
    WriteIsDone(c, i, ok);
    WriteKeepsTokens(c, c.outstanding[i], ok, StepWrite(c, i, ok));
  }

  lemma WriteKeepsChain(log: Log, c: Client, ok: bool, d: Client)
    requires Tokens(c) && Sighted(log, c) && Chain(log, c) && c.outstanding != [] && c.outstanding[0].WritePending?
    requires WriteEffect(c, c.outstanding[0], ok, d)
    ensures Chain(log, d)
  {
    var w := c.outstanding[0];
    if d.history.clean {
      var k :| c.cs.watchedKeys == {k} && WaitsFor(log, c, k);
      assert Sees(log, c.cs.Rank(), k, c.history.sightings[k]);
      assert Tracks(log, Watch(w.key, w.startRevision, true), k, c.history.sightings[k]);
      assert d.watches[|d.watches| - 1] == Watch(w.key, w.startRevision, true);
      assert WaitsFor(log, d, k);
    }
  }

  lemma WriteKeepsRest(log: Log, c: Client, ok: bool, d: Client)
    requires Knows(log, c) && Sighted(log, c) && Bounded(log, c)
    requires |c.outstanding| == 1 && c.outstanding[0].WritePending? && WriteEffect(c, c.outstanding[0], ok, d)
    ensures Knows(log, d) && Sighted(log, d) && Bounded(log, d)
  {
    assert c.outstanding[0] in c.outstanding;
  }

  lemma WriteKeepsInv(log: Log, c: Client, i: nat, ok: bool)
    requires i < |c.outstanding| && c.outstanding[i].WritePending?
    requires Inv(log, c)
    ensures Inv(log, StepWrite(c, i, ok))
  {
    WritePosts(c, i, ok);
    WriteKeepsRest(log, c, ok, StepWrite(c, i, ok));
    WriteKeepsChain(log, c, ok, StepWrite(c, i, ok));
  }

  predicate ReadFailed(c: Client, d: Client) {
    && SameNode(c.cs, d.cs) && d.phase == c.phase && d.watches == c.watches && d.outstanding == []
    && d.cs.watchedKeys == c.cs.watchedKeys && (ThinksElected(d.cs) ==> ThinksElected(c.cs))
    && d.history == c.history.(clean := false)
  }

  lemma ReadFailsPosts(c: Client, i: nat)
    requires Tokens(c) && i < |c.outstanding| && c.outstanding[i].ReadPending?
    ensures ReadFailed(c, StepReadFails(c, i)) && Tokens(StepReadFails(c, i))
  {
    assert c.outstanding == [c.outstanding[0]];
  }

  lemma ReadFailsKeepsRest(log: Log, c: Client, d: Client)
    requires Inv(log, c) && Tokens(d) && ReadFailed(c, d)
    ensures Inv(log, d)
  {
  }

  lemma ReadFailsKeepsInv(log: Log, c: Client, i: nat)
    requires i < |c.outstanding| && c.outstanding[i].ReadPending? && Inv(log, c)
    ensures Inv(log, StepReadFails(c, i))
  {
    ReadFailsPosts(c, i);
    ReadFailsKeepsRest(log, c, StepReadFails(c, i));
  }

  // ---- what a delivery says about the store ----------------------------------------------------------------------

  lemma NoEmptyKey(place: Place, live: Live)
    ensures [] !in Predecessors(live, place)
  {
  }

  lemma StrippedNamesNothing(events: seq<Event>)
    ensures DeletedKeys(Strip(events)) <= {[]}
  {
    forall ev | ev in Strip(events) && ev.Delete? ensures ev.prevKv.key == [] {
      var i :| 0 <= i < |events| && Strip(events)[i] == ev;
    }
  }

  /** A key a delivery reports as deleted is gone from the predecessors for good: the watch starts at or after the
      candidate's own creation, so whatever comes back under that key comes back behind the candidate. */
  lemma DeliveredIsGone(log: Log, c: Client, d: Delivery, k: Bytes)
    requires ValidLog(log) && Knows(log, c) && Sighted(log, c) && c.phase.Campaigning? && d.watch < |c.watches|
    requires 1 <= c.watches[d.watch].next <= d.upTo <= Revision(log) + 1
    requires k in DeletedKeys(Deliver(log, c, d).events)
    ensures k !in Predecessors(Now(log), c.cs.Rank())
  {
    var w := c.watches[d.watch];
    assert w in c.watches;
    NoEmptyKey(c.cs.Rank(), Now(log));
    var events := Events(log, w.next, d.upTo, w.key, []);
    if d.prevKv {
      var ev :| ev in events && ev.Delete? && ev.prevKv.key == k;
      var r := EventsOrigin(log, w.next, d.upTo, w.key, [], ev);
      DeleteEventMeans(log, r, w.key, [], ev.prevKv);
      if k in Predecessors(Now(log), c.cs.Rank()) {
        LiveSinceCreation(log, r, Revision(log), k);
      }
    } else {
      StrippedNamesNothing(events);
    }
  }

  /** Revisions that report no deletion of the key leave the node where it was. */
  lemma {:induction false} NodeStays(log: Log, from: nat, r: nat, k: Bytes, c: nat)
    requires ValidLog(log) && from <= r <= Revision(log) && HoldsNode(log, from, k, c)
    requires forall q :: from < q <= r ==> k !in DeletedKeys(EventsAt(log, q, k, []))
    ensures HoldsNode(log, r, k, c)
    decreases r
  {
    if from < r {
      NodeStays(log, from, r - 1, k, c);
      AtStep(log, r);
      var kv := ToKeyValue(k, At(log, r - 1)[k]);
      DeleteEventMeans(log, r, k, [], kv);
      assert Delete(kv).prevKv.key == k;
    }
  }

  /** A watch that delivers more without a deletion of its key still tracks the node. */
  lemma TracksOn(log: Log, w: Watch, k: Bytes, s: Sighting, upTo: nat)
    requires ValidLog(log) && Tracks(log, w, k, s) && 1 <= w.next <= upTo <= Revision(log) + 1
    requires k !in DeletedKeys(Events(log, w.next, upTo, w.key, []))
    ensures Tracks(log, w.(next := upTo), k, s)
  {
    var from, to := LastSeen(w, s), LastSeen(w.(next := upTo), s);
    forall q | from < q <= to ensures k !in DeletedKeys(EventsAt(log, q, k, [])) {
      if k in DeletedKeys(EventsAt(log, q, k, [])) {
        var ev :| ev in EventsAt(log, q, k, []) && ev.Delete? && ev.prevKv.key == k;
        EventsInclude(log, w.next, upTo, k, [], q, ev);
      }
    }
    NodeStays(log, from, to, k, s.createRevision);
  }

  // ---- Read ------------------------------------------------------------------------------------------------------

  lemma ReadResult(cs: Candidate, response: WatchResponse, key: Bytes, revision: nat)
    ensures
      var (cs', posted) := OnWatchRead(cs, true, response, key, revision);
      var asks := response.canceled || response.compactRevision != 0 || cs'.watchedKeys == {};
      && SameNode(cs, cs')
      && cs'.watchedKeys == cs.watchedKeys - DeletedKeys(response.events)
      && posted ==
           (if asks then (if cs.ops.shutdown then [] else [PostRange(PredecessorQuery(cs))])
            else if cs.readOps.shutdown then [] else [PostRead(key, revision)])
      && (ThinksElected(cs') ==> ThinksElected(cs)) && (!cs.ops.shutdown ==> cs'.elected == cs.elected)
      && cs'.ops == (if asks then cs.ops.Start() else cs.ops)
      && cs'.readOps == (if asks then cs.readOps.Done() else cs.readOps.Done().Start())
  {
  }

  /** What a delivery does to the candidate and its operations, without the callback's code. */
  ghost predicate ReadEffectOnCandidate(log: Log, c: Client, i: nat, d: Delivery, e: Client)
    requires ValidLog(log) && Enabled(log, c, ReadDone(i, d))
  {
    var asks := d.Cancels() || e.cs.watchedKeys == {};
    && SameNode(c.cs, e.cs)
    && e.cs.watchedKeys == c.cs.watchedKeys - DeletedKeys(Deliver(log, c, d).events)
    && e.outstanding ==
         (if asks then (if c.cs.ops.shutdown then [] else [RangePending(PredecessorQuery(c.cs), None)])
          else if c.cs.readOps.shutdown then [] else [c.outstanding[i]])
    && (ThinksElected(e.cs) ==> ThinksElected(c.cs)) && (!c.cs.ops.shutdown ==> e.cs.elected == c.cs.elected)
    && e.cs.ops == (if asks then c.cs.ops.Start() else c.cs.ops)
    && e.cs.readOps == (if asks then c.cs.readOps.Done() else c.cs.readOps.Done().Start())
  }

  /** And what it does to everything else. */
  ghost predicate ReadEffectOnRest(log: Log, c: Client, i: nat, d: Delivery, e: Client)
    requires ValidLog(log) && Enabled(log, c, ReadDone(i, d))
  {
    var asks := d.Cancels() || e.cs.watchedKeys == {};
    var queries := if asks && !c.cs.ops.shutdown then 1 else 0;
    && e.phase == c.phase && e.drain == c.drain && e.tracers == c.tracers
    && e.watches == AfterDelivery(c.watches, d)
    && e.history == c.history.(
         queries := c.history.queries + queries,
         cancels := c.history.cancels + (if d.Cancels() then 1 else 0),
         latest := if queries == 1 then None else c.history.latest,
         sightings := map k | k in c.history.sightings && k in e.cs.watchedKeys :: c.history.sightings[k],
         clean := c.history.clean && !d.Cancels() && d.prevKv)
  }

  ghost predicate ReadEffect(log: Log, c: Client, i: nat, d: Delivery, e: Client)
    requires ValidLog(log) && Enabled(log, c, ReadDone(i, d))
  {
    ReadEffectOnCandidate(log, c, i, d, e) && ReadEffectOnRest(log, c, i, d, e)
  }

  lemma ReadPostsForCandidate(log: Log, c: Client, i: nat, d: Delivery)
    requires ValidLog(log) && Tokens(c) && Enabled(log, c, ReadDone(i, d))
    ensures ReadEffectOnCandidate(log, c, i, d, StepRead(log, c, i, d))
  {
    var r := c.outstanding[i];
    ReadResult(c.cs, Deliver(log, c, d), r.watchedKey, r.watchRevision);
    assert Without(c.outstanding, 0) == [];
    SendOne(PostRead(r.watchedKey, r.watchRevision));
    SendOne(PostRange(PredecessorQuery(c.cs)));
  }

  lemma ReadPosts(log: Log, c: Client, i: nat, d: Delivery)
    requires ValidLog(log) && Tokens(c) && Enabled(log, c, ReadDone(i, d))
    ensures ReadEffect(log, c, i, d, StepRead(log, c, i, d))
  {
    var r := c.outstanding[i];
    ReadPostsForCandidate(log, c, i, d);
    ReadResult(c.cs, Deliver(log, c, d), r.watchedKey, r.watchRevision);
  }

  lemma ReadKeepsTokens(log: Log, c: Client, i: nat, d: Delivery, e: Client)
    requires ValidLog(log) && Tokens(c) && Enabled(log, c, ReadDone(i, d)) && ReadEffect(log, c, i, d, e)
    ensures Tokens(e)
  {
    assert c.outstanding == [c.outstanding[0]];
    CountAtMostOne(c.outstanding);
    CountAtMostOne(e.outstanding);
  }

  lemma CountAtMostOne(outstanding: seq<Pending>)
    requires |outstanding| <= 1
    ensures CountOps(outstanding) == if outstanding != [] && !OnReadCounter(outstanding[0]) then 1 else 0
  {
  }

  lemma ReadKeepsKnows(log: Log, c: Client, i: nat, d: Delivery, e: Client)
    requires ValidLog(log) && Tokens(c) && Knows(log, c)
    requires Enabled(log, c, ReadDone(i, d)) && ReadEffect(log, c, i, d, e)
    ensures Knows(log, e)
  {
    assert c.outstanding[i] in c.outstanding;
  }

  lemma ReadKeepsSighted(log: Log, c: Client, i: nat, d: Delivery, e: Client)
    requires ValidLog(log) && Tokens(c) && Knows(log, c) && Sighted(log, c)
    requires Enabled(log, c, ReadDone(i, d)) && ReadEffect(log, c, i, d, e)
    ensures Sighted(log, e)
  {
    assert c.outstanding[i] in c.outstanding;
    assert c.watches[d.watch] in c.watches;
    assert e.history.sightings.Keys == e.cs.watchedKeys;
  }

  /** The watch on the predecessor still tracks it after any delivery that does not report it deleted. */
  lemma ReadKeepsTracking(log: Log, c: Client, d: Delivery, k: Bytes)
    requires ValidLog(log) && d.watch < |c.watches| && d.prevKv && !d.Cancels()
    requires 1 <= c.watches[d.watch].next <= d.upTo <= Revision(log) + 1
    requires k in c.history.sightings && Tracks(log, c.watches[|c.watches| - 1], k, c.history.sightings[k])
    requires k !in DeletedKeys(Deliver(log, c, d).events)
    ensures
      var watches := AfterDelivery(c.watches, d);
      Tracks(log, watches[|watches| - 1], k, c.history.sightings[k])
  {
    var w := c.watches[d.watch];
    var last := |c.watches| - 1;
    if d.watch == last {
      TracksOn(log, w, k, c.history.sightings[k], d.upTo);
      assert AfterDelivery(c.watches, d)[last] == w.(next := d.upTo);
    } else {
      assert AfterDelivery(c.watches, d)[last] == c.watches[last];
    }
  }

  lemma ReadKeepsWaiting(log: Log, c: Client, i: nat, d: Delivery, e: Client, k: Bytes)
    requires ValidLog(log) && Enabled(log, c, ReadDone(i, d)) && ReadEffect(log, c, i, d, e)
    requires c.outstanding == [c.outstanding[0]] && WaitsFor(log, c, k)
    requires k in e.cs.watchedKeys && e.history.clean && !c.cs.readOps.shutdown
    ensures e.outstanding == c.outstanding && WaitsFor(log, e, k)
  {
    ReadKeepsTracking(log, c, d, k);
    assert k in e.history.sightings && e.history.sightings[k] == c.history.sightings[k];
  }

  lemma ReadKeepsChain(log: Log, c: Client, i: nat, d: Delivery, e: Client)
    requires ValidLog(log) && Tokens(c) && Chain(log, c)
    requires Enabled(log, c, ReadDone(i, d)) && ReadEffect(log, c, i, d, e)
    ensures Chain(log, e)
  {
    assert c.outstanding[i] in c.outstanding;
    if e.history.clean && e.cs.watchedKeys != {} {
      var k :| c.cs.watchedKeys == {k} && WaitsFor(log, c, k);
      assert e.cs.watchedKeys == {k};
      ReadKeepsWaiting(log, c, i, d, e, k);
    }
  }

  lemma ErasedIsGone(log: Log, c: Client, i: nat, d: Delivery, e: Client, k: Bytes)
    requires ValidLog(log) && Knows(log, c) && Sighted(log, c) && c.phase.Campaigning?
    requires Enabled(log, c, ReadDone(i, d)) && ReadEffect(log, c, i, d, e)
    requires k in c.cs.watchedKeys || k !in Predecessors(Now(log), c.cs.Rank())
    ensures k in e.cs.watchedKeys || k !in Predecessors(Now(log), c.cs.Rank())
  {
    if k in c.cs.watchedKeys && k !in e.cs.watchedKeys {
      DeliveredIsGone(log, c, d, k);
    }
  }

  lemma ReadKeepsBounded(log: Log, c: Client, i: nat, d: Delivery, e: Client)
    requires ValidLog(log) && Tokens(c) && Knows(log, c) && Sighted(log, c) && Bounded(log, c)
    requires Enabled(log, c, ReadDone(i, d)) && ReadEffect(log, c, i, d, e)
    ensures Bounded(log, e)
  {
    assert c.outstanding[i] in c.outstanding;
    ErasedIsGone(log, c, i, d, e, c.history.latest.value);
  }

  lemma ReadKeepsInv(log: Log, c: Client, i: nat, d: Delivery)
    requires ValidLog(log) && Inv(log, c) && Enabled(log, c, ReadDone(i, d))
    ensures Inv(log, StepRead(log, c, i, d))
  {
    var e := StepRead(log, c, i, d);
    ReadPosts(log, c, i, d);
    ReadKeepsTokens(log, c, i, d, e);
    ReadKeepsKnows(log, c, i, d, e);
    ReadKeepsSighted(log, c, i, d, e);
    ReadKeepsChain(log, c, i, d, e);
    ReadKeepsBounded(log, c, i, d, e);
  }

  // ---- all steps -------------------------------------------------------------------------------------------------

  predicate Local(a: Action) {
    a.TracerStarts? || a.TracerEnds? || a.ResignBegins? || a.ResignShutsReads? || a.ResignEnds?
    || a.CleanupBegins? || a.CleanupShutsReads? || a.CleanupEnds?
  }

  lemma LocalChanges(log: Log, c: Client, a: Action)
    requires ValidLog(log) && Inv(log, c) && Enabled(log, c, a) && Local(a)
    ensures
      var (log', d) := Step(log, c, a);
      && log' == log && SameNode(c.cs, d.cs) && d.cs.watchedKeys == c.cs.watchedKeys
      && d.phase == c.phase && d.outstanding == c.outstanding && d.watches == c.watches
      && d.history == c.history.(clean := d.history.clean)
      && (ThinksElected(d.cs) ==> ThinksElected(c.cs)) && (d.history.clean ==> d.cs.elected == c.cs.elected)
      && (d.history.clean ==> c.history.clean && !d.cs.ops.shutdown && !d.cs.readOps.shutdown)
      && Tokens(d)
  {
  }

  /** Steps of the application's own thread do not touch what the candidate knows. */
  lemma LocalKeepsInv(log: Log, c: Client, a: Action)
    requires ValidLog(log) && Inv(log, c) && Enabled(log, c, a) && Local(a)
    ensures Step(log, c, a).0 == log && Inv(log, Step(log, c, a).1)
  {
    LocalChanges(log, c, a);
    UnchangedKeeps(log, c, Step(log, c, a).1);
  }

  lemma OwnStepKeepsInv(log: Log, c: Client, a: Action)
    requires ValidLog(log) && Inv(log, c) && Enabled(log, c, a) && !OfStream(a)
    ensures
      var (log', c') := Step(log, c, a);
      ValidLog(log') && log <= log' && Inv(log', c')
  {
    if a.CreateNode? {
      CreateKeepsInv(log, c);
    } else if a.PublishNode? {
      PublishKeepsInv(log, c);
    } else if a.RpcFails? {
      RpcFailsKeepsInv(log, c, a.applied);
    } else if a.BeginCampaign? {
      BeginKeepsInv(log, c);
    } else if a.ProclaimValue? {
      ProclaimKeepsInv(log, c, a.value, a.replyLost);
    } else {
      LocalKeepsInv(log, c, a);
    }
  }

  lemma StepKeepsInv(log: Log, c: Client, a: Action)
    requires ValidLog(log) && Inv(log, c) && Enabled(log, c, a)
    ensures
      var (log', c') := Step(log, c, a);
      ValidLog(log') && log <= log' && Inv(log', c')
  {
    if OfStream(a) {
      StreamStepKeepsInv(log, c, a);
    } else {
      OwnStepKeepsInv(log, c, a);
    }
  }

  /** The answers to the query, and the completions of the operations. */
  predicate OfStream(a: Action) {
    a.AnswerRange? || a.RangeDone? || a.WriteDone? || a.ReadFails? || a.ReadDone?
  }

  lemma StreamStepKeepsInv(log: Log, c: Client, a: Action)
    requires ValidLog(log) && Inv(log, c) && Enabled(log, c, a) && OfStream(a)
    ensures Step(log, c, a).0 == log && Inv(log, Step(log, c, a).1)
  {
    match a
    case AnswerRange(i, kvs) => AnswerKeepsInv(log, c, i, kvs);
    case RangeDone(i, ok) => if ok { RangeKeepsInv(log, c, i); } else { RangeFailsKeepsInv(log, c, i); }
    case WriteDone(i, ok) => WriteKeepsInv(log, c, i, ok);
    case ReadFails(i) => ReadFailsKeepsInv(log, c, i);
    case ReadDone(i, d) => ReadKeepsInv(log, c, i, d);
  }

  /** Nothing but its first transaction gives a candidate a create revision, a campaign does not end, a victory is
      not forgotten, the promise keeps its first value, and a failed Range stays counted. */
  predicate SameCampaign(c: Client, d: Client) {
    && d.cs.name == c.cs.name && d.cs.leaseId == c.cs.leaseId
    && (!c.phase.Fresh? ==> d.cs.creationRevision == c.cs.creationRevision && !d.phase.Fresh?)
    && (c.phase.Campaigning? ==> d.phase.Campaigning?)
    && (c.history.electedAt.Some? ==> d.history.electedAt.Some?)
    && (c.cs.promise.Some? ==> d.cs.promise == c.cs.promise)
    && c.history.cancelledRanges <= d.history.cancelledRanges
  }

  lemma StepKeepsIdentity(log: Log, c: Client, a: Action)
    requires ValidLog(log) && Inv(log, c) && Enabled(log, c, a)
    ensures SameCampaign(c, Step(log, c, a).1)
  {
    if a.RangeDone? {
      RangeKeepsIdentity(log, c, a.i, a.ok);
    } else if a.ReadDone? {
      ReadKeepsIdentity(log, c, a.i, a.delivery);
    } else if !a.WriteDone? && !a.ReadFails? {
      AppKeepsIdentity(log, c, a);
    }
  }

  lemma AppKeepsIdentity(log: Log, c: Client, a: Action)
    requires ValidLog(log) && Inv(log, c) && Enabled(log, c, a)
    requires !a.RangeDone? && !a.ReadDone? && !a.WriteDone? && !a.ReadFails?
    ensures SameCampaign(c, Step(log, c, a).1)
  {
    if Local(a) {
      LocalKeepsIdentity(log, c, a);
    }
  }

  lemma LocalKeepsIdentity(log: Log, c: Client, a: Action)
    requires ValidLog(log) && Enabled(log, c, a) && Local(a)
    ensures SameCampaign(c, Step(log, c, a).1)
  {
  }

  lemma ReadKeepsIdentity(log: Log, c: Client, i: nat, d: Delivery)
    requires ValidLog(log) && Inv(log, c) && Enabled(log, c, ReadDone(i, d))
    ensures SameCampaign(c, StepRead(log, c, i, d))
  {
    ReadPosts(log, c, i, d);
  }

  lemma RangeKeepsIdentity(log: Log, c: Client, i: nat, ok: bool)
    requires Inv(log, c) && Enabled(log, c, RangeDone(i, ok))
    ensures SameCampaign(c, StepRange(c, i, ok))
  {
    if ok {
      assert c.outstanding[i] in c.outstanding;
      AnswerMeans(log, c.cs, c.outstanding[i].answer.value);
      RangePosts(c, i, c.outstanding[i].answer.value);
      RangeResult(c.cs, c.outstanding[i].answer.value);
    }
  }

  lemma NewClientInv(log: Log, name: Bytes, leaseId: LeaseId, value: Bytes)
    ensures Inv(log, NewClient(name, leaseId, value))
  {
  }
}
