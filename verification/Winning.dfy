/** A campaign that is not lost can be won: the predecessors can go, the watches can report it, and the last query finds
    nobody. */
module Winning {
  import opened ByteStrings
  import opened Keys
  import opened Etcd
  import opened Candidates
  import opened Campaign
  import opened CampaignInvariants
  import opened CampaignSteps
  import opened CampaignReads
  import opened Elections
  import opened Progress

  // ---- every live predecessor the candidate waits for has a watch ------------------------------------------------

  predicate Asked(p: Pending) {
    p.RangePending? && p.answer.None?
  }

  predicate AllCovered(log: Log, c: Client) {
    forall k :: k in c.cs.watchedKeys ==> Watched(c, k) || k !in Predecessors(Now(log), c.cs.Rank())
  }

  /** Only while the server has yet to answer the query can a watched predecessor be live and have no watch. */
  predicate Covered(log: Log, c: Client) {
    c.phase.Campaigning? && c.outstanding != [] && !Asked(c.outstanding[0]) ==> AllCovered(log, c)
  }

  lemma CoveredLogGrows(log: Log, longer: Log, c: Client)
    requires Inv(log, c) && Covered(log, c) && log <= longer
    ensures Covered(longer, c)
  {
    if c.phase.Campaigning? {
      NowShrinks(log, longer, c.cs.Rank());
    }
  }

  lemma KeepsCovered(log: Log, c: Client, d: Client)
    requires AllCovered(log, c) && SameNode(c.cs, d.cs) && d.cs.watchedKeys <= c.cs.watchedKeys
    requires forall k :: k in d.cs.watchedKeys && Watched(c, k) ==> Watched(d, k)
    ensures AllCovered(log, d)
  {
  }

  /** The last predecessor there ever was is the last one there is, as long as it is live. */
  lemma SeenIsAnswered(log: Log, c: Client, k: Bytes, kvs: seq<KeyValue>)
    requires Inv(log, c) && c.phase.Campaigning? && k in c.cs.watchedKeys
    requires k in Predecessors(Now(log), c.cs.Rank()) && IsAnswer(Now(log), PredecessorQuery(c.cs), kvs)
    ensures kvs != [] && kvs[0].key == k
  {
    var place, s := c.cs.Rank(), c.history.sightings[k];
    assert Sees(log, place, k, s);
    AnswerMeans(log, c.cs, RangeResponse(Revision(log), kvs));
    PredecessorsShrink(log, s.revision, Revision(log), place);
    var p := kvs[0].key;
    assert p in Predecessors(At(log, s.revision), place) && k in Predecessors(At(log, s.revision), place);
    CreateRevisionsAreUnique(log, Revision(log), p, Revision(log), k);
  }

  lemma CoveredAfterAnswer(log: Log, c: Client, i: nat, kvs: seq<KeyValue>)
    requires ValidLog(log) && Inv(log, c) && Enabled(log, c, AnswerRange(i, kvs))
    ensures AllCovered(log, StepAnswer(log, c, i, kvs))
  {
    var d := StepAnswer(log, c, i, kvs);
    AnswerPosts(log, c, i, kvs);
    forall k | k in d.cs.watchedKeys && k in Predecessors(Now(log), d.cs.Rank()) ensures Watched(d, k) {
      SeenIsAnswered(log, c, k, kvs);
      assert WillWatch(d.outstanding[0], k);
    }
  }

  /** The watch the answer calls for is on its way. */
  lemma WatchedAfterRange(log: Log, c: Client, i: nat, response: RangeResponse)
    requires Tokens(c) && Enabled(log, c, RangeDone(i, true))
    requires c.outstanding[i].answer == Some(response) && |response.kvs| == 1 && !c.cs.ops.shutdown
    ensures
      var d := StepRange(c, i, true);
      && SameNode(c.cs, d.cs) && d.outstanding == [WritePending(response.kvs[0].key, response.revision)]
      && d.cs.watchedKeys == c.cs.watchedKeys + {response.kvs[0].key}
      && Watched(d, response.kvs[0].key) && forall k :: Watched(c, k) ==> Watched(d, k)
  {
    var d := StepRange(c, i, true);
    RangePosts(c, i, response);
    assert WillWatch(d.outstanding[0], response.kvs[0].key);
    forall k | Watched(c, k) ensures Watched(d, k) {
      if OpenWatchOn(c, k) {
        assert OpenWatchOn(d, k);
      } else {
        assert c.outstanding == [c.outstanding[0]] && WillWatch(c.outstanding[0], k);
      }
    }
  }

  lemma CoveredAfterRange(log: Log, c: Client, i: nat, ok: bool)
    requires i < |c.outstanding| && c.outstanding[i].RangePending? && (ok ==> c.outstanding[i].answer.Some?)
    requires Inv(log, c) && Covered(log, c)
    ensures Covered(log, StepRange(c, i, ok))
  {
    assert c.outstanding == [c.outstanding[0]] && c.outstanding[i] in c.outstanding;
    if !ok {
      assert StepRange(c, i, ok).outstanding == [];
    } else {
      AnswerMeans(log, c.cs, c.outstanding[i].answer.value);
      CoveredByAnswer(log, c, i, c.outstanding[i].answer.value);
    }
  }

  lemma CoveredByAnswer(log: Log, c: Client, i: nat, response: RangeResponse)
    requires Tokens(c) && Enabled(log, c, RangeDone(i, true)) && Covered(log, c)
    requires c.outstanding[i].answer == Some(response) && |response.kvs| <= 1
    ensures Covered(log, StepRange(c, i, true))
  {
    if response.kvs != [] && !c.cs.ops.shutdown {
      WatchedAfterRange(log, c, i, response);
    } else {
      RangePosts(c, i, response);
    }
  }

  lemma WatchedAfterWrite(log: Log, c: Client, i: nat)
    requires Tokens(c) && Enabled(log, c, WriteDone(i, true)) && !c.cs.readOps.shutdown
    ensures
      var d := StepWrite(c, i, true);
      && SameNode(c.cs, d.cs) && d.cs.watchedKeys == c.cs.watchedKeys
      && |d.outstanding| == 1 && d.outstanding[0].ReadPending?
      && forall k :: Watched(c, k) ==> Watched(d, k)
  {
    var d, w := StepWrite(c, i, true), c.outstanding[i];
    WritePosts(c, i, true);
    assert d.watches == c.watches + [Watch(w.key, w.startRevision, true)];
    forall k | Watched(c, k) ensures Watched(d, k) {
      if OpenWatchOn(c, k) {
        var j :| 0 <= j < |c.watches| && c.watches[j].open && c.watches[j].key == k;
        assert d.watches[j] == c.watches[j];
      } else {
        assert c.outstanding == [w] && WillWatch(w, k);
        assert d.watches[|c.watches|].key == k;
      }
    }
  }

  lemma CoveredAfterWrite(log: Log, c: Client, i: nat, ok: bool)
    requires i < |c.outstanding| && c.outstanding[i].WritePending?
    requires Inv(log, c) && Covered(log, c)
    ensures Covered(log, StepWrite(c, i, ok))
  {
    assert c.outstanding == [c.outstanding[0]] && c.outstanding[i] in c.outstanding;
    if ok && !c.cs.readOps.shutdown {
      WatchedAfterWrite(log, c, i);
    } else {
      WritePosts(c, i, ok);
    }
  }

  lemma WatchedAfterDelivery(log: Log, c: Client, i: nat, d: Delivery, e: Client)
    requires ValidLog(log) && Tokens(c) && Enabled(log, c, ReadDone(i, d)) && ReadEffect(log, c, i, d, e)
    requires !d.Cancels()
    ensures forall k :: Watched(c, k) ==> Watched(e, k)
  {
    assert c.outstanding == [c.outstanding[0]];
    forall k | Watched(c, k) ensures Watched(e, k) {
      NoNewWatch(c, d, e, k);
    }
  }

  lemma CoveredAfterRead(log: Log, c: Client, i: nat, d: Delivery)
    requires ValidLog(log) && Inv(log, c) && Covered(log, c) && Enabled(log, c, ReadDone(i, d))
    ensures Covered(log, StepRead(log, c, i, d))
  {
    var e := StepRead(log, c, i, d);
    assert c.outstanding == [c.outstanding[0]] && c.outstanding[i] in c.outstanding;
    ReadPosts(log, c, i, d);
    if !d.Cancels() {
      WatchedAfterDelivery(log, c, i, d, e);
      KeepsCovered(log, c, e);
    }
  }

  lemma CoveredAfterStep(log: Log, c: Client, a: Action)
    requires ValidLog(log) && Inv(log, c) && Covered(log, c) && Enabled(log, c, a)
    ensures
      var (log', d) := Step(log, c, a);
      Covered(log', d)
  {
    if a.AnswerRange? {
      CoveredAfterAnswer(log, c, a.i, a.kvs);
    } else if a.RangeDone? {
      CoveredAfterRange(log, c, a.i, a.ok);
    } else if a.WriteDone? {
      CoveredAfterWrite(log, c, a.i, a.ok);
    } else if a.ReadDone? {
      CoveredAfterRead(log, c, a.i, a.delivery);
    } else if a.ReadFails? {
      FailedReadLeavesNothing(log, c, a.i);
    } else {
      CoveredAfterOther(log, c, a);
    }
  }

  lemma FailedReadLeavesNothing(log: Log, c: Client, i: nat)
    requires Tokens(c) && Enabled(log, c, ReadFails(i))
    ensures StepReadFails(c, i).outstanding == []
  {
    assert c.outstanding == [c.outstanding[0]];
  }

  lemma CoveredAfterOther(log: Log, c: Client, a: Action)
    requires ValidLog(log) && Inv(log, c) && Covered(log, c) && Enabled(log, c, a)
    requires !a.AnswerRange? && !a.RangeDone? && !a.WriteDone? && !a.ReadDone? && !a.ReadFails?
    ensures
      var (log', d) := Step(log, c, a);
      Covered(log', d)
  {
    if Local(a) {
      LocalChanges(log, c, a);
    } else if a.BeginCampaign? {
      BeginPosts(c);
    } else if a.ProclaimValue? {
      CoveredAfterProclaim(log, c, a.value, a.replyLost);
    }
  }

  lemma CoveredAfterProclaim(log: Log, c: Client, value: Bytes, replyLost: bool)
    requires ValidLog(log) && Inv(log, c) && Covered(log, c)
    ensures
      var (log', d) := StepProclaim(log, c, value, replyLost);
      Covered(log', d)
  {
    CommitIsValid(log, PublishTxn(c.cs, value, NothingOnFailure));
    CoveredLogGrows(log, StepProclaim(log, c, value, replyLost).0, c);
  }

  /** No watch starts or stands beyond the present. */
  predicate InSync(log: Log, c: Client) {
    && (forall w :: w in c.watches ==> w.next <= Revision(log) + 1)
    && (forall p :: p in c.outstanding && p.WritePending? ==> p.startRevision <= Revision(log) + 1)
  }

  lemma InSyncAfterStep(log: Log, c: Client, a: Action)
    requires ValidLog(log) && Inv(log, c) && InSync(log, c) && Enabled(log, c, a)
    ensures
      var (log', d) := Step(log, c, a);
      InSync(log', d)
  {
    if a.AnswerRange? {
      AnswerPosts(log, c, a.i, a.kvs);
    } else if a.RangeDone? {
      InSyncAfterRange(log, c, a.i, a.ok);
    } else if a.WriteDone? {
      InSyncAfterWrite(log, c, a.i, a.ok);
    } else if a.ReadDone? {
      InSyncAfterRead(log, c, a.i, a.delivery);
    } else if a.ReadFails? {
      FailedReadLeavesNothing(log, c, a.i);
    } else {
      InSyncAfterOther(log, c, a);
    }
  }

  lemma InSyncAfterRange(log: Log, c: Client, i: nat, ok: bool)
    requires ValidLog(log) && Inv(log, c) && InSync(log, c) && Enabled(log, c, RangeDone(i, ok))
    ensures InSync(log, StepRange(c, i, ok))
  {
    assert c.outstanding == [c.outstanding[0]] && c.outstanding[i] in c.outstanding;
    if ok {
      AnswerMeans(log, c.cs, c.outstanding[i].answer.value);
      RangePosts(c, i, c.outstanding[i].answer.value);
    } else {
      assert StepRange(c, i, ok).outstanding == [];
    }
  }

  lemma InSyncAfterWrite(log: Log, c: Client, i: nat, ok: bool)
    requires i < |c.outstanding| && c.outstanding[i].WritePending?
    requires Tokens(c) && InSync(log, c)
    ensures InSync(log, StepWrite(c, i, ok))
  {
    assert c.outstanding[i] in c.outstanding;
    WritePosts(c, i, ok);
  }

  lemma InSyncAfterRead(log: Log, c: Client, i: nat, d: Delivery)
    requires ValidLog(log) && Inv(log, c) && InSync(log, c) && Enabled(log, c, ReadDone(i, d))
    ensures InSync(log, StepRead(log, c, i, d))
  {
    ReadPosts(log, c, i, d);
  }

  lemma InSyncAfterOther(log: Log, c: Client, a: Action)
    requires ValidLog(log) && Inv(log, c) && InSync(log, c) && Enabled(log, c, a)
    requires !a.AnswerRange? && !a.RangeDone? && !a.WriteDone? && !a.ReadDone? && !a.ReadFails?
    ensures
      var (log', d) := Step(log, c, a);
      InSync(log', d)
  {
    StepKeepsInv(log, c, a);
    if a.BeginCampaign? {
      BeginPosts(c);
    }
  }

  ghost predicate SystemCovered(s: System) {
    SystemInv(s) && forall j :: 0 <= j < |s.clients| ==> Covered(s.log, s.clients[j]) && InSync(s.log, s.clients[j])
  }

  lemma MoveKeepsCovered(s: System, m: Move)
    requires SystemCovered(s) && Possible(s, m)
    ensures SystemCovered(After(s, m))
  {
    var t := After(s, m);
    MoveKeepsInv(s, m);
    forall j | 0 <= j < |t.clients| ensures Covered(t.log, t.clients[j]) && InSync(t.log, t.clients[j]) {
      if m.Acts? && j == m.who {
        CoveredAfterStep(s.log, s.clients[j], m.action);
        InSyncAfterStep(s.log, s.clients[j], m.action);
      } else if j < |s.clients| {
        CoveredLogGrows(s.log, t.log, s.clients[j]);
      }
    }
  }

  lemma {:induction false} RunKeepsCovered(states: seq<System>, moves: seq<Move>, k: nat)
    requires IsRun(states, moves) && k < |states|
    ensures SystemCovered(states[k])
  {
    if k > 0 {
      RunKeepsCovered(states, moves, k - 1);
      MoveKeepsCovered(states[k - 1], moves[k - 1]);
    }
  }

  // ---- winning ---------------------------------------------------------------------------------------------------

  ghost predicate Wins(path: seq<System>, moves: seq<Move>, s: System, who: nat) {
    && IsPath(path, moves) && path[0] == s
    && who < |path[|moves|].clients| && path[|moves|].clients[who].cs.elected
  }

  /** Some way to go on from here makes the candidate the leader. */
  ghost predicate CanWin(s: System, who: nat) {
    exists path: seq<System>, moves: seq<Move> :: Wins(path, moves, s, who)
  }

  lemma WinsFromEarlier(path: seq<System>, moves: seq<Move>, s: System, m: Move, who: nat)
    requires Possible(s, m) && Wins(path, moves, After(s, m), who)
    ensures Wins([s] + path, [m] + moves, s, who)
  {
    var longer, more := [s] + path, [m] + moves;
    forall i | 0 <= i < |more| ensures Possible(longer[i], more[i]) && longer[i + 1] == After(longer[i], more[i]) {
      assert i > 0 ==> more[i] == moves[i - 1] && longer[i] == path[i - 1] && longer[i + 1] == path[i];
    }
  }

  lemma CanWinEarlier(s: System, m: Move, who: nat)
    requires Possible(s, m) && CanWin(After(s, m), who)
    ensures CanWin(s, who)
  {
    var path, moves :| Wins(path, moves, After(s, m), who);
    WinsFromEarlier(path, moves, s, m, who);
  }

  lemma WinsNow(s: System, who: nat)
    requires who < |s.clients| && s.clients[who].cs.elected
    ensures CanWin(s, who)
  {
    assert Wins([s], [], s, who);
  }

  lemma ActsOn(s: System, who: nat, a: Action)
    requires SystemCovered(s) && who < |s.clients| && Enabled(s.log, s.clients[who], a)
    ensures Possible(s, Acts(who, a))
    ensures
      var t, (log, c) := After(s, Acts(who, a)), Step(s.log, s.clients[who], a);
      SystemCovered(t) && t.log == log && who < |t.clients| && t.clients[who] == c
  {
    MoveKeepsCovered(s, Acts(who, a));
  }

  lemma OthersChangeOn(s: System, who: nat, change: Change)
    requires SystemCovered(s) && who < |s.clients| && ValidChange(Now(s.log), change)
    ensures Possible(s, OthersChange(change))
    ensures
      var t := After(s, OthersChange(change));
      SystemCovered(t) && t.log == s.log + [change] && t.clients == s.clients
  {
    MoveKeepsCovered(s, OthersChange(change));
  }

  predicate AllWatched(c: Client) {
    forall k :: k in c.cs.watchedKeys ==> Watched(c, k)
  }

  predicate FindsNobody(p: Pending) {
    p.RangePending? && (p.answer.Some? ==> p.answer.value.kvs == [])
  }

  /** The campaign goes on, every watched key has a watch, and none is watched when the last query may find nobody. */
  ghost predicate Promising(c: Client) {
    && InTheRunning(c) && !c.cs.ops.shutdown && !c.cs.readOps.shutdown
    && |c.outstanding| == 1 && AllWatched(c)
    && (FindsNobody(c.outstanding[0]) ==> c.cs.watchedKeys == {})
  }

  /** The watched keys, and the one that is about to be. */
  function Marked(c: Client): set<Bytes>
    requires |c.outstanding| == 1
  {
    var p := c.outstanding[0];
    if p.RangePending? && !Asked(p) && p.answer.value.kvs != [] then c.cs.watchedKeys + {p.answer.value.kvs[0].key}
    else c.cs.watchedKeys
  }

  function Unmarked(log: Log, c: Client): set<Bytes>
    requires |c.outstanding| == 1
  {
    Predecessors(Now(log), c.cs.Rank()) - Marked(c)
  }

  function Stage(p: Pending): nat {
    match p
    case RangePending(_, None) => 3
    case RangePending(_, Some(_)) => 2
    case WritePending(_, _) => 1
    case ReadPending(_, _) => 0
  }

  /** If somebody precedes the candidate, the server can answer its query. */
  lemma LastPredecessor(log: Log, c: Client) returns (kvs: seq<KeyValue>)
    requires Knows(log, c) && c.phase.Campaigning? && !Leads(Now(log), c.cs.Rank())
    ensures kvs != [] && IsAnswer(Now(log), PredecessorQuery(c.cs), kvs)
  {
    var live, place := Now(log), c.cs.Rank();
    kvs := RangeHasAnswer(live, PredecessorQuery(c.cs));
    forall other ensures Matches(live, PredecessorQuery(c.cs), other) <==> other in Predecessors(live, place) {
      ElectionRangeIsExact(c.cs.name, other);
    }
  }

  lemma EmptyAnswerWins(s: System, who: nat)
    requires SystemCovered(s) && who < |s.clients| && Promising(s.clients[who])
    requires FindsNobody(s.clients[who].outstanding[0]) && !Asked(s.clients[who].outstanding[0])
    ensures CanWin(s, who)
  {
    var c := s.clients[who];
    assert c.outstanding[0] in c.outstanding;
    RangeResult(c.cs, c.outstanding[0].answer.value);
    ActsOn(s, who, RangeDone(0, true));
    WinsNow(After(s, Acts(who, RangeDone(0, true))), who);
    CanWinEarlier(s, Acts(who, RangeDone(0, true)), who);
  }

  lemma PromisingAfterAnswer(log: Log, c: Client, kvs: seq<KeyValue>)
    requires ValidLog(log) && Inv(log, c) && InTheRunning(c) && !c.cs.ops.shutdown && !c.cs.readOps.shutdown
    requires Enabled(log, c, AnswerRange(0, kvs)) && (kvs == [] ==> c.cs.watchedKeys == {})
    requires forall k :: k in c.cs.watchedKeys ==> !Stale(log, c, k)
    ensures Promising(StepAnswer(log, c, 0, kvs))
    ensures kvs != [] ==>
              Marked(StepAnswer(log, c, 0, kvs)) == c.cs.watchedKeys + {kvs[0].key}
              && kvs[0].key in Predecessors(Now(log), c.cs.Rank())
  {
    var d := StepAnswer(log, c, 0, kvs);
    CoveredAfterAnswer(log, c, 0, kvs);
    AnswerPosts(log, c, 0, kvs);
    forall k | k in d.cs.watchedKeys ensures Watched(d, k) {
      assert !Stale(log, c, k) && !WillWatch(c.outstanding[0], k);
      assert OpenWatchOn(c, k) ==> OpenWatchOn(d, k);
    }
  }

  /** The last revision deleted this key. */
  ghost predicate JustDeleted(log: Log, k: Bytes) {
    log != [] && log[|log| - 1] == DeleteKeys([k]) && k !in Now(log)
  }

  /** The node is there, and gone one revision later; a watch on its key that is delivered to the end reports it. */
  lemma DeliversDeletion(log: Log, c: Client, d: Delivery, k: Bytes)
    requires ValidLog(log) && JustDeleted(log, k)
    requires d.watch < |c.watches| && c.watches[d.watch].key == k && d.prevKv && d.upTo == Revision(log) + 1
    requires 1 <= c.watches[d.watch].next <= Revision(log)
    ensures k in DeletedKeys(Deliver(log, c, d).events)
  {
    var r, w := Revision(log), c.watches[d.watch];
    assert ValidAt(log, r);
    assert DeleteKeys([k]).keys[0] in At(log, r - 1);
    var kv := ToKeyValue(k, At(log, r - 1)[k]);
    DeleteEventMeans(log, r, k, [], kv);
    EventsInclude(log, w.next, d.upTo, k, [], r, Delete(kv));
    assert Delete(kv) in Deliver(log, c, d).events && Delete(kv).prevKv.key == k;
  }

  lemma ErasesItsKey(log: Log, c: Client, d: Delivery, k: Bytes)
    requires ValidLog(log) && Sighted(log, c) && JustDeleted(log, k)
    requires d.watch < |c.watches| && c.watches[d.watch].key == k && d.prevKv && d.upTo == Revision(log) + 1
    requires 1 <= c.watches[d.watch].next <= Revision(log)
    ensures c.cs.watchedKeys - DeletedKeys(Deliver(log, c, d).events) == c.cs.watchedKeys - {k}
  {
    DeliversDeletion(log, c, d, k);
    forall x | x in c.cs.watchedKeys && x in DeletedKeys(Deliver(log, c, d).events) ensures x == k {
      WatchedKeyNotEmpty(log, c, x);
      DeliversItsKey(log, c, d, x);
    }
  }

  lemma PromisingAfterDeletion(log: Log, c: Client, k: Bytes, j: nat, d: Delivery)
    requires ValidLog(log) && Inv(log, c) && Promising(c) && c.outstanding[0].ReadPending?
    requires k in c.cs.watchedKeys && j < |c.watches| && c.watches[j].open && c.watches[j].key == k
    requires JustDeleted(log, k) && c.watches[j].next <= Revision(log)
    requires d == Delivery(j, Revision(log) + 1, false, false, 0, true)
    ensures Enabled(log, c, ReadDone(0, d))
    ensures
      var e := StepRead(log, c, 0, d);
      && Promising(e) && SameNode(c.cs, e.cs)
      && Marked(e) == c.cs.watchedKeys - {k}
  {
    assert c.watches[j] in c.watches;
    var e := StepRead(log, c, 0, d);
    ReadPosts(log, c, 0, d);
    ErasesItsKey(log, c, d, k);
    PromisingStays(log, c, d, e);
  }

  lemma PromisingStays(log: Log, c: Client, d: Delivery, e: Client)
    requires ValidLog(log) && Tokens(c) && Promising(c) && Enabled(log, c, ReadDone(0, d))
    requires ReadEffect(log, c, 0, d, e) && !d.Cancels()
    ensures Promising(e) && Marked(e) == e.cs.watchedKeys
  {
    WatchedAfterDelivery(log, c, 0, d, e);
  }

  /** One or more moves lead on to t, from where the candidate can win only if it can from s. */
  ghost predicate LeadsOn(s: System, t: System, who: nat) {
    && SystemCovered(t) && who < |s.clients| && who < |t.clients| && Promising(t.clients[who])
    && t.clients[who].cs.Rank() == s.clients[who].cs.Rank()
    && (CanWin(t, who) ==> CanWin(s, who))
  }

  lemma AskedLeadsOn(s: System, who: nat, kvs: seq<KeyValue>) returns (t: System)
    requires SystemCovered(s) && who < |s.clients| && Promising(s.clients[who])
    requires Enabled(s.log, s.clients[who], AnswerRange(0, kvs))
    ensures LeadsOn(s, t, who) && Stage(t.clients[who].outstanding[0]) == 2
    ensures FindsNobody(t.clients[who].outstanding[0]) <==> kvs == []
    ensures kvs != [] ==> Unmarked(t.log, t.clients[who]) < Unmarked(s.log, s.clients[who])
  {
    var c := s.clients[who];
    assert c.outstanding[0] in c.outstanding;
    PromisingAfterAnswer(s.log, c, kvs);
    ActsOn(s, who, AnswerRange(0, kvs));
    t := After(s, Acts(who, AnswerRange(0, kvs)));
    if CanWin(t, who) {
      CanWinEarlier(s, Acts(who, AnswerRange(0, kvs)), who);
    }
    if kvs != [] {
      assert kvs[0].key in Unmarked(s.log, c) && kvs[0].key !in Unmarked(t.log, t.clients[who]);
    }
  }

  lemma ActLeadsOn(s: System, who: nat, a: Action) returns (t: System)
    requires SystemCovered(s) && who < |s.clients| && Enabled(s.log, s.clients[who], a)
    requires Promising(Step(s.log, s.clients[who], a).1)
    requires Step(s.log, s.clients[who], a).1.cs.Rank() == s.clients[who].cs.Rank()
    ensures LeadsOn(s, t, who)
    ensures t.log == Step(s.log, s.clients[who], a).0 && t.clients[who] == Step(s.log, s.clients[who], a).1
  {
    ActsOn(s, who, a);
    t := After(s, Acts(who, a));
    if CanWin(t, who) {
      CanWinEarlier(s, Acts(who, a), who);
    }
  }

  lemma PromisingAfterRange(log: Log, c: Client, response: RangeResponse)
    requires Tokens(c) && Promising(c) && c.outstanding[0].RangePending?
    requires c.outstanding[0].answer == Some(response) && |response.kvs| == 1
    ensures
      var d := StepRange(c, 0, true);
      Promising(d) && SameNode(c.cs, d.cs) && Stage(d.outstanding[0]) == 1 && Marked(d) == Marked(c)
  {
    WatchedAfterRange(log, c, 0, response);
    RangePosts(c, 0, response);
  }

  lemma AnsweredLeadsOn(s: System, who: nat) returns (t: System)
    requires SystemCovered(s) && who < |s.clients| && Promising(s.clients[who])
    requires Stage(s.clients[who].outstanding[0]) == 2 && !FindsNobody(s.clients[who].outstanding[0])
    ensures LeadsOn(s, t, who) && t.log == s.log && Stage(t.clients[who].outstanding[0]) == 1
    ensures Marked(t.clients[who]) == Marked(s.clients[who])
  {
    var c := s.clients[who];
    assert c.outstanding[0] in c.outstanding;
    AnswerMeans(s.log, c.cs, c.outstanding[0].answer.value);
    PromisingAfterRange(s.log, c, c.outstanding[0].answer.value);
    t := ActLeadsOn(s, who, RangeDone(0, true));
  }

  lemma PromisingAfterWrite(log: Log, c: Client)
    requires Tokens(c) && Promising(c) && c.outstanding[0].WritePending?
    ensures
      var d := StepWrite(c, 0, true);
      Promising(d) && SameNode(c.cs, d.cs) && Stage(d.outstanding[0]) == 0 && Marked(d) == Marked(c)
  {
    WatchedAfterWrite(log, c, 0);
    WritePosts(c, 0, true);
  }

  lemma WriteLeadsOn(s: System, who: nat) returns (t: System)
    requires SystemCovered(s) && who < |s.clients| && Promising(s.clients[who])
    requires Stage(s.clients[who].outstanding[0]) == 1
    ensures LeadsOn(s, t, who) && t.log == s.log && Stage(t.clients[who].outstanding[0]) == 0
    ensures Marked(t.clients[who]) == Marked(s.clients[who])
  {
    PromisingAfterWrite(s.log, s.clients[who]);
    t := ActLeadsOn(s, who, WriteDone(0, true));
  }

  /** Others create the key anew, or give it a new value, and delete it. */
  lemma DeletionLeadsOn(s: System, who: nat, k: Bytes) returns (t: System)
    requires SystemCovered(s) && who < |s.clients|
    ensures SystemCovered(t) && t.clients == s.clients && s.log < t.log && (CanWin(t, who) ==> CanWin(s, who))
    ensures JustDeleted(t.log, k) && Revision(t.log) == Revision(s.log) + 2
  {
    var put, delete := PutKey(k, [], 0), DeleteKeys([k]);
    OthersChangeOn(s, who, put);
    var u := After(s, OthersChange(put));
    NowStep(s.log, put);
    OthersChangeOn(u, who, delete);
    t := After(u, OthersChange(delete));
    NowStep(u.log, delete);
    assert k in delete.keys;
    if CanWin(t, who) {
      CanWinEarlier(u, OthersChange(delete), who);
      CanWinEarlier(s, OthersChange(put), who);
    }
  }

  lemma DeliveryLeadsOn(s: System, who: nat, k: Bytes, j: nat) returns (t: System)
    requires SystemCovered(s) && who < |s.clients| && Promising(s.clients[who])
    requires s.clients[who].outstanding[0].ReadPending? && k in s.clients[who].cs.watchedKeys
    requires j < |s.clients[who].watches|
    requires
      var w := s.clients[who].watches[j];
      w.open && w.key == k && w.next <= Revision(s.log)
    requires JustDeleted(s.log, k)
    ensures LeadsOn(s, t, who) && t.log == s.log
    ensures SameNode(s.clients[who].cs, t.clients[who].cs)
    ensures Marked(t.clients[who]) == Marked(s.clients[who]) - {k}
  {
    var d := Delivery(j, Revision(s.log) + 1, false, false, 0, true);
    PromisingAfterDeletion(s.log, s.clients[who], k, j, d);
    t := ActLeadsOn(s, who, ReadDone(0, d));
  }

  lemma SomeOpenWatch(log: Log, c: Client) returns (k: Bytes, j: nat)
    requires Inv(log, c) && InSync(log, c) && Promising(c) && c.outstanding[0].ReadPending?
    ensures k in c.cs.watchedKeys && j < |c.watches|
    ensures c.watches[j].open && c.watches[j].key == k && c.watches[j].next <= Revision(log) + 1
  {
    assert c.outstanding[0] in c.outstanding && c.outstanding == [c.outstanding[0]];
    k :| k in c.cs.watchedKeys;
    assert Watched(c, k);
    j :| 0 <= j < |c.watches| && c.watches[j].open && c.watches[j].key == k;
    assert c.watches[j] in c.watches;
  }

  lemma ReadLeadsOn(s: System, who: nat) returns (t: System)
    requires SystemCovered(s) && who < |s.clients| && Promising(s.clients[who])
    requires s.clients[who].outstanding[0].ReadPending?
    ensures LeadsOn(s, t, who)
    ensures Marked(t.clients[who]) < Marked(s.clients[who])
    ensures Unmarked(t.log, t.clients[who]) <= Unmarked(s.log, s.clients[who])
  {
    var c := s.clients[who];
    var k, j := SomeOpenWatch(s.log, c);
    var u := DeletionLeadsOn(s, who, k);
    t := DeliveryLeadsOn(u, who, k, j);
    UnmarkedShrinks(s.log, u.log, c, t.clients[who], k);
  }

  lemma UnmarkedShrinks(log: Log, longer: Log, c: Client, e: Client, k: Bytes)
    requires log <= longer && c.cs.creationRevision <= Revision(log) + 1 && SameNode(c.cs, e.cs)
    requires |c.outstanding| == 1 && |e.outstanding| == 1 && k !in Now(longer)
    requires Marked(e) == Marked(c) - {k}
    ensures Unmarked(longer, e) <= Unmarked(log, c)
  {
    NowShrinks(log, longer, c.cs.Rank());
  }

  /** What remains to be done. */
  ghost predicate Closer(s: System, t: System, who: nat)
    requires who < |s.clients| && who < |t.clients|
    requires Promising(s.clients[who]) && Promising(t.clients[who])
  {
    var c, d := s.clients[who], t.clients[who];
    || Unmarked(t.log, d) < Unmarked(s.log, c)
    || (Unmarked(t.log, d) == Unmarked(s.log, c)
        && (Marked(d) < Marked(c)
            || (Marked(d) == Marked(c) && Stage(d.outstanding[0]) < Stage(c.outstanding[0]))))
  }

  lemma NextLeadsOn(s: System, who: nat) returns (t: System)
    requires SystemCovered(s) && who < |s.clients| && Promising(s.clients[who])
    requires !AnswersNothing(s.log, s.clients[who], s.clients[who].outstanding[0])
    ensures LeadsOn(s, t, who) && Closer(s, t, who)
  {
    var c := s.clients[who];
    var p := c.outstanding[0];
    if Asked(p) {
      var kvs := LastPredecessor(s.log, c);
      t := AskedLeadsOn(s, who, kvs);
    } else if p.RangePending? {
      t := AnsweredLeadsOn(s, who);
    } else if p.WritePending? {
      t := WriteLeadsOn(s, who);
    } else {
      t := ReadLeadsOn(s, who);
    }
  }

  lemma NobodyLeftWins(s: System, who: nat)
    requires SystemCovered(s) && who < |s.clients| && Promising(s.clients[who])
    requires AnswersNothing(s.log, s.clients[who], s.clients[who].outstanding[0])
    ensures CanWin(s, who)
  {
    var c := s.clients[who];
    assert c.outstanding[0] in c.outstanding;
    if Asked(c.outstanding[0]) {
      NobodyPrecedes(s.log, c.cs);
      var t := AskedLeadsOn(s, who, []);
      EmptyAnswerWins(t, who);
    } else {
      EmptyAnswerWins(s, who);
    }
  }

  lemma {:induction false} PromisingWins(s: System, who: nat)
    requires SystemCovered(s) && who < |s.clients| && Promising(s.clients[who])
    ensures CanWin(s, who)
    decreases Unmarked(s.log, s.clients[who]), Marked(s.clients[who]), Stage(s.clients[who].outstanding[0])
  {
    if AnswersNothing(s.log, s.clients[who], s.clients[who].outstanding[0]) {
      NobodyLeftWins(s, who);
    } else {
      var t := NextLeadsOn(s, who);
      PromisingWins(t, who);
    }
  }

  /** A query that was asked while keys are watched is answered with a predecessor, which brings it back to a promising
      campaign. */
  lemma NotLostWins(s: System, who: nat)
    requires SystemCovered(s) && who < |s.clients| && InTheRunning(s.clients[who])
    requires !s.clients[who].cs.ops.shutdown && !s.clients[who].cs.readOps.shutdown
    requires !Lost(s.log, s.clients[who])
    ensures CanWin(s, who)
  {
    var c := s.clients[who];
    var p := c.outstanding[0];
    assert p in c.outstanding;
    if Asked(p) && c.cs.watchedKeys != {} {
      var kvs := LastPredecessor(s.log, c);
      PromisingAfterAnswer(s.log, c, kvs);
      ActsOn(s, who, AnswerRange(0, kvs));
      PromisingWins(After(s, Acts(who, AnswerRange(0, kvs))), who);
      CanWinEarlier(s, Acts(who, AnswerRange(0, kvs)), who);
    } else {
      forall k | k in c.cs.watchedKeys ensures Watched(c, k) {
        assert !Stale(s.log, c, k);
      }
      PromisingWins(s, who);
    }
  }

  /** A campaign that has not been won can still be won, by some continuation of the run, exactly if it is not lost: an
      operation is in flight, the query in flight does not come back empty while keys are watched, and no key is
      stale. */
  lemma CanWinIff(states: seq<System>, moves: seq<Move>, k: nat, who: nat)
    requires IsRun(states, moves) && k < |states| && who < |states[k].clients|
    requires InTheRunning(states[k].clients[who])
    requires !states[k].clients[who].cs.ops.shutdown && !states[k].clients[who].cs.readOps.shutdown
    ensures CanWin(states[k], who) <==> !Lost(states[k].log, states[k].clients[who])
  {
    RunKeepsCovered(states, moves, k);
    var s := states[k];
    if Lost(s.log, s.clients[who]) {
      if CanWin(s, who) {
        var path, acts :| Wins(path, acts, s, who);
        LostForGood(path, acts, |acts|, who);
      }
    } else {
      NotLostWins(s, who);
    }
  }
}
