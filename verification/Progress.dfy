/** When a campaign can no longer be won. A watch that is cancelled or compacted can hide a deletion; the candidate then
    keeps a stale key among those it watches, and never wins. */
module Progress {
  import opened Runs
  import opened ByteStrings
  import opened Etcd
  import opened Candidates
  import opened Campaign
  import opened CampaignInvariants
  import opened CampaignSteps
  import opened CampaignReads
  import opened Elections

  // ---- watched keys and their watches ----------------------------------------------------------------------------

  predicate OpenWatchOn(c: Client, k: Bytes) {
    exists i :: 0 <= i < |c.watches| && c.watches[i].open && c.watches[i].key == k
  }

  /** The operation in flight creates a watch on the key, or will lead to it. */
  predicate WillWatch(p: Pending, k: Bytes) {
    match p
    case RangePending(_, answer) => answer.Some? && answer.value.kvs != [] && answer.value.kvs[0].key == k
    case WritePending(key, _) => key == k
    case ReadPending(_, _) => false
  }

  predicate Watched(c: Client, k: Bytes) {
    OpenWatchOn(c, k) || exists p :: p in c.outstanding && WillWatch(p, k)
  }

  /** The candidate waits for a node that is gone, and no watch will ever say so. */
  predicate Stale(log: Log, c: Client, k: Bytes) {
    k in c.cs.watchedKeys && k !in Predecessors(Now(log), c.cs.Rank()) && !Watched(c, k)
  }

  /** The query in flight has an empty answer, or will have one. */
  predicate AnswersNothing(log: Log, c: Client, p: Pending) {
    p.RangePending? && if p.answer.None? then Leads(Now(log), c.cs.Rank()) else p.answer.value.kvs == []
  }

  /** Nothing is in flight, or the last query will find nothing while keys are still watched, or a key is stale. */
  ghost predicate Lost(log: Log, c: Client) {
    || c.outstanding == []
    || (AnswersNothing(log, c, c.outstanding[0]) && c.cs.watchedKeys != {})
    || exists k :: Stale(log, c, k)
  }

  ghost predicate InTheRunning(c: Client) {
    c.phase.Campaigning? && c.history.electedAt.None?
  }

  // ---- a lost campaign stays lost --------------------------------------------------------------------------------

  lemma StaleLogGrows(log: Log, longer: Log, c: Client, k: Bytes)
    requires Inv(log, c) && InTheRunning(c) && log <= longer && Stale(log, c, k)
    ensures Stale(longer, c, k)
  {
    NowShrinks(log, longer, c.cs.Rank());
  }

  lemma LostLogGrows(log: Log, longer: Log, c: Client)
    requires Inv(log, c) && InTheRunning(c) && log <= longer && Lost(log, c)
    ensures Lost(longer, c)
  {
    NowShrinks(log, longer, c.cs.Rank());
    if k :| Stale(log, c, k) {
      StaleLogGrows(log, longer, c, k);
    }
  }

  /** A key stays stale as long as it is watched and nothing new watches it. */
  lemma StaysStale(log: Log, c: Client, d: Client, k: Bytes)
    requires Stale(log, c, k) && SameNode(c.cs, d.cs) && k in d.cs.watchedKeys
    requires OpenWatchOn(d, k) ==> OpenWatchOn(c, k)
    requires forall p :: p in d.outstanding ==> !WillWatch(p, k)
    ensures Stale(log, d, k) && Lost(log, d)
  {
    assert Stale(log, d, k);
  }

  lemma LostAfterFailedRange(log: Log, c: Client, i: nat)
    requires Tokens(c) && InTheRunning(c) && Enabled(log, c, RangeDone(i, false))
    ensures InTheRunning(StepRange(c, i, false)) && Lost(log, StepRange(c, i, false))
  {
    assert c.outstanding == [c.outstanding[0]];
  }

  /** Keys are still watched, so the answer does not make the candidate the leader. */
  lemma LostAfterEmptyRange(log: Log, c: Client, i: nat, response: RangeResponse)
    requires Tokens(c) && InTheRunning(c) && Enabled(log, c, RangeDone(i, true)) && c.cs.watchedKeys != {}
    requires c.outstanding[i].answer == Some(response) && response.kvs == []
    ensures InTheRunning(StepRange(c, i, true)) && Lost(log, StepRange(c, i, true))
  {
    RangePosts(c, i, response);
  }

  lemma StaleAfterRange(log: Log, c: Client, i: nat, response: RangeResponse, k: Bytes)
    requires Tokens(c) && InTheRunning(c) && Enabled(log, c, RangeDone(i, true)) && Stale(log, c, k)
    requires c.outstanding[i].answer == Some(response) && |response.kvs| == 1
    ensures InTheRunning(StepRange(c, i, true)) && Lost(log, StepRange(c, i, true))
  {
    var d := StepRange(c, i, true);
    RangePosts(c, i, response);
    assert c.outstanding[i] in c.outstanding && !WillWatch(c.outstanding[i], k);
    if d.outstanding != [] {
      StaysStale(log, c, d, k);
    }
  }

  lemma LostAfterRange(log: Log, c: Client, i: nat)
    requires ValidLog(log) && Inv(log, c) && InTheRunning(c) && Lost(log, c) && Enabled(log, c, RangeDone(i, true))
    ensures InTheRunning(StepRange(c, i, true)) && Lost(log, StepRange(c, i, true))
  {
    assert c.outstanding == [c.outstanding[0]] && c.outstanding[i] in c.outstanding;
    var response := c.outstanding[i].answer.value;
    AnswerMeans(log, c.cs, response);
    if response.kvs == [] {
      LostAfterEmptyRange(log, c, i, response);
    } else {
      var k :| Stale(log, c, k);
      StaleAfterRange(log, c, i, response, k);
    }
  }

  lemma LostAfterAnswer(log: Log, c: Client, i: nat, kvs: seq<KeyValue>)
    requires ValidLog(log) && Inv(log, c) && InTheRunning(c) && Lost(log, c) && Enabled(log, c, AnswerRange(i, kvs))
    ensures Lost(log, StepAnswer(log, c, i, kvs))
  {
    AnswerPosts(log, c, i, kvs);
    if k :| Stale(log, c, k) {
      StaleAfterAnswer(log, c, i, kvs, k);
    }
  }

  lemma StaleAfterAnswer(log: Log, c: Client, i: nat, kvs: seq<KeyValue>, k: Bytes)
    requires Answers(log, c, i, kvs) && Stale(log, c, k)
    requires kvs != [] ==> kvs[0].key in Predecessors(Now(log), c.cs.Rank())
    ensures Stale(log, StepAnswer(log, c, i, kvs), k)
  {
    assert OpenWatchOn(StepAnswer(log, c, i, kvs), k) ==> OpenWatchOn(c, k);
  }

  lemma WriteOpensOne(c: Client, i: nat, ok: bool, k: Bytes)
    requires i < |c.outstanding| && c.outstanding[i].WritePending?
    ensures OpenWatchOn(StepWrite(c, i, ok), k) ==> OpenWatchOn(c, k) || c.outstanding[i].key == k
  {
    var d := StepWrite(c, i, ok);
    if OpenWatchOn(d, k) && c.outstanding[i].key != k {
      var j :| 0 <= j < |d.watches| && d.watches[j].open && d.watches[j].key == k;
      assert c.watches[j] == d.watches[j];
    }
  }

  lemma LostAfterWrite(log: Log, c: Client, i: nat, ok: bool)
    requires Tokens(c) && InTheRunning(c) && Lost(log, c) && Enabled(log, c, WriteDone(i, ok))
    ensures InTheRunning(StepWrite(c, i, ok)) && Lost(log, StepWrite(c, i, ok))
  {
    var d := StepWrite(c, i, ok);
    WritePosts(c, i, ok);
    var k :| Stale(log, c, k);
    assert c.outstanding[i] in c.outstanding && !WillWatch(c.outstanding[i], k);
    WriteOpensOne(c, i, ok, k);
    StaysStale(log, c, d, k);
  }

  /** A watch reports deletions of its own key only. */
  lemma DeliversItsKey(log: Log, c: Client, d: Delivery, k: Bytes)
    requires ValidLog(log) && d.watch < |c.watches|
    requires 1 <= c.watches[d.watch].next <= d.upTo <= Revision(log) + 1
    requires k in DeletedKeys(Deliver(log, c, d).events)
    ensures k == c.watches[d.watch].key || k == []
  {
    var w := c.watches[d.watch];
    var events := Events(log, w.next, d.upTo, w.key, []);
    if d.prevKv {
      var ev :| ev in events && ev.Delete? && ev.prevKv.key == k;
      var r := EventsOrigin(log, w.next, d.upTo, w.key, [], ev);
      DeleteEventMeans(log, r, w.key, [], ev.prevKv);
    } else {
      StrippedNamesNothing(events);
    }
  }

  lemma WatchedKeyNotEmpty(log: Log, c: Client, k: Bytes)
    requires Sighted(log, c) && k in c.cs.watchedKeys
    ensures k != []
  {
    assert Sees(log, c.cs.Rank(), k, c.history.sightings[k]);
  }

  lemma StaleNotDelivered(log: Log, c: Client, d: Delivery, k: Bytes)
    requires ValidLog(log) && d.watch < |c.watches| && c.watches[d.watch].open
    requires 1 <= c.watches[d.watch].next <= d.upTo <= Revision(log) + 1
    requires Sighted(log, c) && Stale(log, c, k)
    ensures k !in DeletedKeys(Deliver(log, c, d).events)
  {
    WatchedKeyNotEmpty(log, c, k);
    assert OpenWatchOn(c, c.watches[d.watch].key);
    if k in DeletedKeys(Deliver(log, c, d).events) {
      DeliversItsKey(log, c, d, k);
    }
  }

  /** A delivery opens no watch. */
  lemma NoNewWatch(c: Client, d: Delivery, e: Client, k: Bytes)
    requires d.watch < |c.watches| && c.watches[d.watch].open && e.watches == AfterDelivery(c.watches, d)
    ensures OpenWatchOn(e, k) ==> OpenWatchOn(c, k)
    ensures !d.Cancels() ==> OpenWatchOn(c, k) ==> OpenWatchOn(e, k)
  {
    forall i | 0 <= i < |e.watches| ensures e.watches[i].key == c.watches[i].key {}
    if !d.Cancels() && OpenWatchOn(c, k) {
      var i :| 0 <= i < |c.watches| && c.watches[i].open && c.watches[i].key == k;
      assert e.watches[i].open && e.watches[i].key == k;
    }
  }

  lemma LostAfterDelivery(log: Log, c: Client, i: nat, d: Delivery, e: Client, k: Bytes)
    requires ValidLog(log) && Tokens(c) && Sighted(log, c) && Enabled(log, c, ReadDone(i, d)) && Stale(log, c, k)
    requires ReadEffect(log, c, i, d, e)
    ensures Lost(log, e)
  {
    StaleNotDelivered(log, c, d, k);
    NoNewWatch(c, d, e, k);
    StaysStale(log, c, e, k);
  }

  lemma LostAfterRead(log: Log, c: Client, i: nat, d: Delivery)
    requires ValidLog(log) && Inv(log, c) && InTheRunning(c) && Lost(log, c) && Enabled(log, c, ReadDone(i, d))
    ensures InTheRunning(StepRead(log, c, i, d)) && Lost(log, StepRead(log, c, i, d))
  {
    var e := StepRead(log, c, i, d);
    ReadPosts(log, c, i, d);
    var k :| Stale(log, c, k);
    LostAfterDelivery(log, c, i, d, e, k);
  }

  lemma LostAfterStep(log: Log, c: Client, a: Action)
    requires ValidLog(log) && Inv(log, c) && InTheRunning(c) && Lost(log, c) && Enabled(log, c, a)
    ensures
      var (log', d) := Step(log, c, a);
      InTheRunning(d) && Lost(log', d)
  {
    if a.AnswerRange? {
      LostAfterAnswer(log, c, a.i, a.kvs);
    } else if a.RangeDone? && a.ok {
      LostAfterRange(log, c, a.i);
    } else if a.RangeDone? {
      LostAfterFailedRange(log, c, a.i);
    } else if a.WriteDone? {
      LostAfterWrite(log, c, a.i, a.ok);
    } else if a.ReadDone? {
      LostAfterRead(log, c, a.i, a.delivery);
    } else {
      LostAfterOther(log, c, a);
    }
  }

  lemma LostAfterOther(log: Log, c: Client, a: Action)
    requires ValidLog(log) && Inv(log, c) && InTheRunning(c) && Lost(log, c) && Enabled(log, c, a)
    requires !a.AnswerRange? && !a.RangeDone? && !a.WriteDone? && !a.ReadDone?
    ensures
      var (log', d) := Step(log, c, a);
      InTheRunning(d) && Lost(log', d)
  {
    if a.ReadFails? {
      LostAfterFailedRead(log, c, a.i);
    } else if a.ProclaimValue? {
      LostAfterProclaim(log, c, a.value, a.replyLost);
    } else {
      LostAfterLocal(log, c, a);
    }
  }

  lemma LostAfterFailedRead(log: Log, c: Client, i: nat)
    requires Tokens(c) && InTheRunning(c) && Enabled(log, c, ReadFails(i))
    ensures InTheRunning(StepReadFails(c, i)) && Lost(log, StepReadFails(c, i))
  {
    assert c.outstanding == [c.outstanding[0]] && StepReadFails(c, i).outstanding == [];
  }

  lemma LostAfterProclaim(log: Log, c: Client, value: Bytes, replyLost: bool)
    requires ValidLog(log) && Inv(log, c) && InTheRunning(c) && Lost(log, c)
    ensures
      var (log', d) := StepProclaim(log, c, value, replyLost);
      InTheRunning(d) && Lost(log', d)
  {
    var (log', d) := StepProclaim(log, c, value, replyLost);
    CommitIsValid(log, PublishTxn(c.cs, value, NothingOnFailure));
    LostLogGrows(log, log', c);
    SameWatches(log', c, d);
  }

  lemma LostAfterLocal(log: Log, c: Client, a: Action)
    requires ValidLog(log) && Inv(log, c) && InTheRunning(c) && Lost(log, c) && Enabled(log, c, a)
    requires !a.AnswerRange? && !a.RangeDone? && !a.WriteDone? && !a.ReadDone? && !a.ReadFails? && !a.ProclaimValue?
    ensures
      var (log', d) := Step(log, c, a);
      InTheRunning(d) && Lost(log', d)
  {
    LocalChanges(log, c, a);
    SameWatches(log, c, Step(log, c, a).1);
  }

  lemma SameWatches(log: Log, c: Client, d: Client)
    requires Lost(log, c) && SameNode(c.cs, d.cs) && d.cs.watchedKeys == c.cs.watchedKeys
    requires d.outstanding == c.outstanding && d.watches == c.watches
    ensures Lost(log, d)
  {
    if k :| Stale(log, c, k) {
      assert OpenWatchOn(d, k) ==> OpenWatchOn(c, k);
      assert Stale(log, d, k);
    }
  }

  ghost predicate LostIn(s: System, who: nat) {
    SystemInv(s) && who < |s.clients| && InTheRunning(s.clients[who]) && Lost(s.log, s.clients[who])
  }

  lemma LostStays(s: System, m: Move, who: nat)
    requires LostIn(s, who) && Possible(s, m)
    ensures LostIn(After(s, m), who)
  {
    MoveKeepsInv(s, m);
    if m.Acts? && m.who == who {
      LostAfterStep(s.log, s.clients[who], m.action);
    } else {
      LostLogGrows(s.log, After(s, m).log, s.clients[who]);
    }
  }

  /** The states and moves of a part of a run, from any state on. */
  ghost predicate IsPath(states: seq<System>, moves: seq<Move>) {
    && |states| == |moves| + 1
    && forall i :: 0 <= i < |moves| ==> Possible(states[i], moves[i]) && states[i + 1] == After(states[i], moves[i])
  }

  lemma LostForGood(states: seq<System>, moves: seq<Move>, k: nat, who: nat)
    requires IsPath(states, moves) && k < |states| && LostIn(states[0], who)
    ensures LostIn(states[k], who) && !ThinksElected(states[k].clients[who].cs)
  {
    var lost := (s: System) => LostIn(s, who);
    forall j | 0 <= j < k && lost(states[j]) ensures lost(states[j + 1]) {
      LostStays(states[j], moves[j], who);
    }
    Carries(states, lost, 0, k);
  }

  // ---- what a cancelled watch costs ------------------------------------------------------------------------------

  /** Another watch on the key is open. */
  predicate OtherWatchOn(c: Client, j: nat, k: Bytes) {
    exists i :: 0 <= i < |c.watches| && i != j && c.watches[i].open && c.watches[i].key == k
  }

  /** A response that cancels a watch loses the campaign exactly if it leaves keys watched, and nobody precedes the
      candidate any more, or one of those keys does not and has no other watch. */
  lemma CancelLosesIff(states: seq<System>, moves: seq<Move>, k: nat, who: nat, i: nat, d: Delivery)
    requires IsRun(states, moves) && k < |moves| && moves[k] == Acts(who, ReadDone(i, d)) && d.Cancels()
    requires InTheRunning(states[k].clients[who]) && !states[k].clients[who].cs.ops.shutdown
    ensures InTheRunning(states[k + 1].clients[who])
    ensures
      var c, log := states[k].clients[who], states[k].log;
      var left := c.cs.watchedKeys - DeletedKeys(Deliver(log, c, d).events);
      Lost(states[k + 1].log, states[k + 1].clients[who]) <==>
        left != {} && (Leads(Now(log), c.cs.Rank())
                       || exists key :: key in left && key !in Predecessors(Now(log), c.cs.Rank())
                                        && !OtherWatchOn(c, d.watch, key))
  {
    RunKeepsInv(states, moves, k);
    var c, log := states[k].clients[who], states[k].log;
    var e := StepRead(log, c, i, d);
    ReadPosts(log, c, i, d);
    LostAfterCancelIff(log, c, d, e);
  }

  lemma LostAfterCancelIff(log: Log, c: Client, d: Delivery, e: Client)
    requires d.watch < |c.watches| && d.Cancels() && e.watches == AfterDelivery(c.watches, d) && SameNode(c.cs, e.cs)
    requires e.outstanding == [RangePending(PredecessorQuery(c.cs), None)]
    ensures Lost(log, e) <==>
              e.cs.watchedKeys != {}
              && (Leads(Now(log), c.cs.Rank())
                  || exists key :: key in e.cs.watchedKeys && key !in Predecessors(Now(log), c.cs.Rank())
                                   && !OtherWatchOn(c, d.watch, key))
  {
    forall key
      ensures Stale(log, e, key) <==>
              key in e.cs.watchedKeys && key !in Predecessors(Now(log), c.cs.Rank()) && !OtherWatchOn(c, d.watch, key)
    {
      WatchedAfterCancel(c, d, e, key);
    }
  }

  lemma WatchedAfterCancel(c: Client, d: Delivery, e: Client, key: Bytes)
    requires d.watch < |c.watches| && d.Cancels() && e.watches == AfterDelivery(c.watches, d)
    requires |e.outstanding| == 1 && e.outstanding[0].RangePending? && e.outstanding[0].answer.None?
    ensures Watched(e, key) <==> OtherWatchOn(c, d.watch, key)
  {
    if OtherWatchOn(c, d.watch, key) {
      var i :| 0 <= i < |c.watches| && i != d.watch && c.watches[i].open && c.watches[i].key == key;
      assert e.watches[i] == c.watches[i];
    }
    if OpenWatchOn(e, key) {
      var i :| 0 <= i < |e.watches| && e.watches[i].open && e.watches[i].key == key;
      assert i != d.watch && c.watches[i] == e.watches[i];
    }
  }
}
