/** A candidate that nobody precedes any more, and the deletions that are still to be delivered to it: which of its
    completions take it nearer to its election. */
module DueDeletions {
  import opened ByteStrings
  import opened Keys
  import opened Etcd
  import opened Candidates
  import opened Campaign
  import opened CampaignInvariants
  import opened CampaignSteps
  import opened CampaignReads
  import opened Elections
  import opened Progress
  import opened Winning

  // ---- deletions that are still to be delivered ------------------------------------------------------------------

  predicate DeletedAt(log: Log, k: Bytes, r: nat) {
    2 <= r <= Revision(log) && k in At(log, r - 1) && k !in At(log, r)
  }

  ghost predicate DeletedBetween(log: Log, k: Bytes, from: nat, upTo: nat) {
    exists r :: from <= r < upTo && DeletedAt(log, k, r)
  }

  ghost predicate DeletedSince(log: Log, k: Bytes, from: nat) {
    DeletedBetween(log, k, from, Revision(log) + 1)
  }

  /** An open watch on the key has yet to deliver a deletion of it. */
  ghost predicate DueOnWatch(log: Log, c: Client, k: Bytes) {
    exists j :: 0 <= j < |c.watches| && c.watches[j].open && c.watches[j].key == k
                && DeletedSince(log, k, c.watches[j].next)
  }

  /** The watch that the operation in flight is about to create will deliver one. */
  ghost predicate DueOnNextWatch(log: Log, p: Pending, k: Bytes) {
    match p
    case RangePending(_, Some(response)) =>
      response.kvs != [] && response.kvs[0].key == k && DeletedSince(log, k, response.revision)
    case WritePending(key, startRevision) => key == k && DeletedSince(log, k, startRevision)
    case _ => false
  }

  ghost predicate Due(log: Log, c: Client, k: Bytes) {
    DueOnWatch(log, c, k) || (c.outstanding != [] && DueOnNextWatch(log, c.outstanding[0], k))
  }

  ghost predicate AllDue(log: Log, c: Client) {
    forall k :: k in c.cs.watchedKeys ==> Due(log, c, k)
  }

  /** An operation is in flight, no empty answer comes while keys are watched, and for every watched key there is a
      deletion still to be delivered. */
  ghost predicate OnCourse(log: Log, c: Client) {
    && |c.outstanding| == 1
    && (FindsNobody(c.outstanding[0]) ==> c.cs.watchedKeys == {})
    && AllDue(log, c)
  }

  lemma DeletedSinceStable(log: Log, longer: Log, k: Bytes, from: nat)
    requires log <= longer && DeletedSince(log, k, from)
    ensures DeletedSince(longer, k, from)
  {
    var r :| from <= r < Revision(log) + 1 && DeletedAt(log, k, r);
    AtStable(log, longer, r);
    AtStable(log, longer, r - 1);
    assert DeletedAt(longer, k, r);
  }

  /** A node that was there, and is not there any more, was deleted in between. */
  lemma {:induction false} GoneIsDeleted(log: Log, k: Bytes, created: nat, from: nat, upTo: nat)
    requires HoldsNode(log, from, k, created) && from <= upTo <= Revision(log) && !HoldsNode(log, upTo, k, created)
    ensures DeletedSince(log, k, from + 1)
    decreases upTo
  {
    if HoldsNode(log, upTo - 1, k, created) {
      AtStep(log, upTo);
      assert DeletedAt(log, k, upTo);
    } else {
      GoneIsDeleted(log, k, created, from, upTo - 1);
    }
  }

  lemma DeletedFromEarlier(log: Log, k: Bytes, from: nat, earlier: nat)
    requires DeletedSince(log, k, from) && earlier <= from
    ensures DeletedSince(log, k, earlier)
  {
    var r :| from <= r < Revision(log) + 1 && DeletedAt(log, k, r);
  }

  /** What the first in line saw before it is deleted by now. */
  lemma SightedIsDeleted(log: Log, place: Place, k: Bytes, created: nat, from: nat)
    requires HoldsNode(log, from, k, created) && InElection(place.name, k) && created < place.creationRevision
    requires Leads(Now(log), place)
    ensures DeletedSince(log, k, from + 1)
  {
    assert k !in Predecessors(Now(log), place);
    GoneIsDeleted(log, k, created, from, Revision(log));
  }

  /** A delivery erases a key exactly if a deletion of it falls into what is delivered, with its previous value. */
  lemma DeliversIff(log: Log, c: Client, d: Delivery, k: Bytes)
    requires ValidLog(log) && d.watch < |c.watches| && k != []
    requires 1 <= c.watches[d.watch].next <= d.upTo <= Revision(log) + 1
    ensures k in DeletedKeys(Deliver(log, c, d).events) <==>
            d.prevKv && k == c.watches[d.watch].key && DeletedBetween(log, k, c.watches[d.watch].next, d.upTo)
  {
    var w := c.watches[d.watch];
    if d.prevKv {
      DeletionsDelivered(log, w, d.upTo, k);
    } else {
      StrippedNamesNothing(Events(log, w.next, d.upTo, w.key, []));
    }
  }

  lemma DeletionsDelivered(log: Log, w: Watch, upTo: nat, k: Bytes)
    requires ValidLog(log) && 1 <= w.next <= upTo <= Revision(log) + 1
    ensures k in DeletedKeys(Events(log, w.next, upTo, w.key, [])) <==>
            k == w.key && DeletedBetween(log, k, w.next, upTo)
  {
    var events := Events(log, w.next, upTo, w.key, []);
    if k in DeletedKeys(events) {
      var ev :| ev in events && ev.Delete? && ev.prevKv.key == k;
      var r := EventsOrigin(log, w.next, upTo, w.key, [], ev);
      DeleteEventMeans(log, r, w.key, [], ev.prevKv);
      assert DeletedAt(log, k, r);
    }
    if k == w.key && DeletedBetween(log, k, w.next, upTo) {
      var r :| w.next <= r < upTo && DeletedAt(log, k, r);
      var kv := ToKeyValue(k, At(log, r - 1)[k]);
      DeleteEventMeans(log, r, k, [], kv);
      EventsInclude(log, w.next, upTo, k, [], r, Delete(kv));
      assert Delete(kv) in events && Delete(kv).prevKv.key == k;
    }
  }

  // ---- the completions of its own operations ---------------------------------------------------------------------

  /** Nobody precedes the candidate, which has neither won nor given up. */
  ghost predicate Running(log: Log, c: Client) {
    && c.phase.Campaigning? && !c.cs.elected && !c.cs.ops.shutdown && !c.cs.readOps.shutdown
    && Leads(Now(log), c.cs.Rank())
  }

  predicate Elected(c: Client) {
    c.phase.Campaigning? && c.cs.elected && c.outstanding == []
  }

  /** The server answers the candidate's query, or one of its operations completes, without a fault. */
  predicate Faultless(a: Action) {
    match a
    case AnswerRange(_, _) => true
    case RangeDone(_, ok) => ok
    case WriteDone(_, ok) => ok
    case ReadDone(_, d) => !d.Cancels() && d.prevKv
    case _ => false
  }

  /** And not only with events that do not matter. */
  ghost predicate Advances(log: Log, c: Client, a: Action) {
    && Faultless(a)
    && (a.ReadDone? ==>
          && a.delivery.watch < |c.watches|
          && var w := c.watches[a.delivery.watch];
             w.key in c.cs.watchedKeys && DeletedBetween(log, w.key, w.next, a.delivery.upTo))
  }

  /** How many advances are left: the answer and its completion, before them a delivery for each watched key, before
      those the creation of a watch, and before that the completion of an answer that is out of date. */
  function StepsLeft(c: Client): nat
    requires |c.outstanding| == 1
  {
    match c.outstanding[0]
    case RangePending(_, None) => 2
    case RangePending(_, Some(response)) =>
      if response.kvs == [] then 1 else 4 + |c.cs.watchedKeys + {response.kvs[0].key}|
    case WritePending(_, _) => 3 + |c.cs.watchedKeys|
    case ReadPending(_, _) => 2 + |c.cs.watchedKeys|
  }

  /** Elected, or on course to be elected by so many advances. */
  ghost predicate Within(log: Log, c: Client, steps: int) {
    Elected(c) || (Running(log, c) && OnCourse(log, c) && StepsLeft(c) <= steps)
  }

  lemma AnswerAdvances(log: Log, c: Client, i: nat)
    requires Answers(log, c, i, []) && Running(log, c) && OnCourse(log, c)
    ensures Within(log, StepAnswer(log, c, i, []), StepsLeft(c) - 1)
  {
    SameDues(log, c, StepAnswer(log, c, i, []));
  }

  lemma SameDues(log: Log, c: Client, d: Client)
    requires c.outstanding != [] && d.outstanding != [] && d.watches == c.watches && d.cs == c.cs
    requires forall k :: DueOnNextWatch(log, c.outstanding[0], k) ==> DueOnNextWatch(log, d.outstanding[0], k)
    ensures AllDue(log, c) ==> AllDue(log, d)
  {
    forall k | Due(log, c, k) ensures Due(log, d, k) {
      assert DueOnWatch(log, c, k) ==> DueOnWatch(log, d, k);
    }
  }

  lemma EmptyAnswerElects(c: Client, response: RangeResponse)
    requires Tokens(c) && c.phase.Campaigning? && c.outstanding != [] && c.cs.watchedKeys == {}
    requires c.outstanding[0].RangePending? && c.outstanding[0].answer == Some(response) && response.kvs == []
    ensures Elected(StepRange(c, 0, true))
  {
    RangeResult(c.cs, response);
    RangePosts(c, 0, response);
  }

  /** The watch on the named node starts early enough to see that it is gone. */
  lemma NamedIsDue(log: Log, c: Client, response: RangeResponse)
    requires Knows(log, c) && Running(log, c) && response.kvs != []
    requires AnsweredAt(log, c.cs, PredecessorQuery(c.cs), response)
    ensures |response.kvs| == 1 && DeletedSince(log, response.kvs[0].key, response.revision)
  {
    AnswerMeans(log, c.cs, response);
    var kv := response.kvs[0];
    SightedIsDeleted(log, c.cs.Rank(), kv.key, kv.createRevision, response.revision);
    DeletedFromEarlier(log, kv.key, response.revision + 1, response.revision);
  }

  lemma DueThroughRange(log: Log, c: Client, d: Client, response: RangeResponse, k: Bytes)
    requires |c.outstanding| == 1 && c.outstanding[0].RangePending? && c.outstanding[0].answer == Some(response)
    requires |response.kvs| == 1 && d.watches == c.watches
    requires d.outstanding == [WritePending(response.kvs[0].key, response.revision)]
    ensures Due(log, d, k) <==> Due(log, c, k)
  {
  }

  lemma NamedKeepsCourse(log: Log, c: Client, d: Client, response: RangeResponse)
    requires |c.outstanding| == 1 && c.outstanding[0].RangePending? && c.outstanding[0].answer == Some(response)
    requires |response.kvs| == 1 && d.watches == c.watches && AllDue(log, c)
    requires d.outstanding == [WritePending(response.kvs[0].key, response.revision)]
    requires d.cs.watchedKeys == c.cs.watchedKeys + {response.kvs[0].key}
    requires DeletedSince(log, response.kvs[0].key, response.revision)
    ensures OnCourse(log, d) && StepsLeft(d) == StepsLeft(c) - 1
  {
    forall k | k in d.cs.watchedKeys ensures Due(log, d, k) {
      DueThroughRange(log, c, d, response, k);
    }
  }

  lemma NamedAdvances(log: Log, c: Client, response: RangeResponse)
    requires Inv(log, c) && Running(log, c) && OnCourse(log, c)
    requires c.outstanding[0].RangePending? && c.outstanding[0].answer == Some(response) && response.kvs != []
    ensures Within(log, StepRange(c, 0, true), StepsLeft(c) - 1)
  {
    assert c.outstanding[0] in c.outstanding;
    NamedIsDue(log, c, response);
    RangePosts(c, 0, response);
    RangeResult(c.cs, response);
    NamedKeepsCourse(log, c, StepRange(c, 0, true), response);
  }

  lemma RangeAdvances(log: Log, c: Client, response: RangeResponse)
    requires Inv(log, c) && Running(log, c) && OnCourse(log, c)
    requires c.outstanding[0].RangePending? && c.outstanding[0].answer == Some(response)
    ensures Within(log, StepRange(c, 0, true), StepsLeft(c) - 1)
  {
    if response.kvs == [] {
      EmptyAnswerElects(c, response);
    } else {
      NamedAdvances(log, c, response);
    }
  }

  lemma DueThroughWrite(log: Log, c: Client, d: Client, w: Pending, k: Bytes)
    requires c.outstanding == [w] && w.WritePending? && |d.outstanding| == 1 && d.outstanding[0].ReadPending?
    requires d.watches == c.watches + [Watch(w.key, w.startRevision, true)]
    ensures Due(log, d, k) <==> Due(log, c, k)
  {
    if DueOnWatch(log, c, k) {
      var j :| 0 <= j < |c.watches| && c.watches[j].open && c.watches[j].key == k
               && DeletedSince(log, k, c.watches[j].next);
      assert d.watches[j] == c.watches[j];
    }
    if DueOnNextWatch(log, w, k) {
      assert d.watches[|c.watches|] == Watch(w.key, w.startRevision, true);
    }
    if DueOnWatch(log, d, k) {
      var j :| 0 <= j < |d.watches| && d.watches[j].open && d.watches[j].key == k
               && DeletedSince(log, k, d.watches[j].next);
      assert j < |c.watches| ==> d.watches[j] == c.watches[j];
    }
  }

  lemma WriteAdvances(log: Log, c: Client)
    requires Tokens(c) && Running(log, c) && OnCourse(log, c) && c.outstanding[0].WritePending?
    ensures Within(log, StepWrite(c, 0, true), StepsLeft(c) - 1)
  {
    var d := StepWrite(c, 0, true);
    WritePosts(c, 0, true);
    forall k | k in d.cs.watchedKeys ensures Due(log, d, k) {
      DueThroughWrite(log, c, d, c.outstanding[0], k);
    }
  }

  /** What is due on a watch stays due until a delivery reports it. */
  lemma DueThroughDelivery(log: Log, c: Client, d: Delivery, e: Client, k: Bytes)
    requires ValidLog(log) && d.watch < |c.watches| && c.watches[d.watch].open && !d.Cancels() && d.prevKv
    requires 1 <= c.watches[d.watch].next <= d.upTo <= Revision(log) + 1
    requires e.watches == AfterDelivery(c.watches, d)
    requires k != [] && DueOnWatch(log, c, k) && k !in DeletedKeys(Deliver(log, c, d).events)
    ensures DueOnWatch(log, e, k)
  {
    var j :| 0 <= j < |c.watches| && c.watches[j].open && c.watches[j].key == k
             && DeletedSince(log, k, c.watches[j].next);
    var r :| c.watches[j].next <= r < Revision(log) + 1 && DeletedAt(log, k, r);
    DeliversIff(log, c, d, k);
    assert e.watches[j].open && e.watches[j].key == k && e.watches[j].next <= r;
    assert DeletedSince(log, k, e.watches[j].next);
  }

  lemma AllDueThroughDelivery(log: Log, c: Client, d: Delivery, e: Client)
    requires ValidLog(log) && d.watch < |c.watches| && c.watches[d.watch].open && !d.Cancels() && d.prevKv
    requires 1 <= c.watches[d.watch].next <= d.upTo <= Revision(log) + 1
    requires e.watches == AfterDelivery(c.watches, d)
    requires e.cs.watchedKeys == c.cs.watchedKeys - DeletedKeys(Deliver(log, c, d).events) && [] !in c.cs.watchedKeys
    requires c.outstanding != [] && c.outstanding[0].ReadPending? && AllDue(log, c)
    ensures AllDue(log, e)
  {
    forall k | k in e.cs.watchedKeys ensures Due(log, e, k) {
      assert Due(log, c, k);
      DueThroughDelivery(log, c, d, e, k);
    }
  }

  lemma NoEmptyKeyWatched(log: Log, c: Client)
    requires Sighted(log, c)
    ensures [] !in c.cs.watchedKeys
  {
    if [] in c.cs.watchedKeys {
      WatchedKeyNotEmpty(log, c, []);
    }
  }

  /** The delivery takes its own key from the watched keys, if it reports a deletion, and no other. */
  lemma DeliveryErases(log: Log, c: Client, i: nat, d: Delivery, e: Client)
    requires ValidLog(log) && Sighted(log, c) && Enabled(log, c, ReadDone(i, d)) && ReadEffect(log, c, i, d, e)
    requires d.prevKv
    ensures
      var w := c.watches[d.watch];
      e.cs.watchedKeys ==
        if DeletedBetween(log, w.key, w.next, d.upTo) then c.cs.watchedKeys - {w.key} else c.cs.watchedKeys
  {
    forall k | k in c.cs.watchedKeys
      ensures k in e.cs.watchedKeys <==>
              !(k == c.watches[d.watch].key && DeletedBetween(log, k, c.watches[d.watch].next, d.upTo))
    {
      WatchedKeyNotEmpty(log, c, k);
      DeliversIff(log, c, d, k);
    }
  }

  lemma DeliveryAdvances(log: Log, c: Client, i: nat, d: Delivery, e: Client)
    requires ValidLog(log) && Tokens(c) && Sighted(log, c) && Running(log, c) && OnCourse(log, c)
    requires Enabled(log, c, ReadDone(i, d)) && ReadEffect(log, c, i, d, e) && !d.Cancels() && d.prevKv
    ensures Within(log, e, StepsLeft(c) - if Advances(log, c, ReadDone(i, d)) then 1 else 0)
  {
    NoEmptyKeyWatched(log, c);
    AllDueThroughDelivery(log, c, d, e);
    DeliveryErases(log, c, i, d, e);
    var w := c.watches[d.watch];
    ReadStepsLeft(c, e, w.key, DeletedBetween(log, w.key, w.next, d.upTo));
  }

  lemma ReadStepsLeft(c: Client, e: Client, k: Bytes, erased: bool)
    requires |c.outstanding| == 1 && c.outstanding[0].ReadPending? && |e.outstanding| == 1
    requires if e.cs.watchedKeys == {} then Asked(e.outstanding[0]) else e.outstanding[0].ReadPending?
    requires e.cs.watchedKeys == if erased then c.cs.watchedKeys - {k} else c.cs.watchedKeys
    ensures StepsLeft(e) == StepsLeft(c) - if erased && k in c.cs.watchedKeys then 1 else 0
  {
    if k !in c.cs.watchedKeys {
      assert c.cs.watchedKeys - {k} == c.cs.watchedKeys;
    }
  }

  /** No completion without a fault takes the candidate back, and each that advances takes it on. */
  lemma OwnStepKeepsWithin(log: Log, c: Client, a: Action)
    requires ValidLog(log) && Inv(log, c) && Running(log, c) && OnCourse(log, c)
    requires Enabled(log, c, a) && Faultless(a)
    ensures Step(log, c, a).0 == log
    ensures Within(log, Step(log, c, a).1, StepsLeft(c) - if Advances(log, c, a) then 1 else 0)
  {
    if a.AnswerRange? {
      AnswerPosts(log, c, a.i, a.kvs);
      AnswerAdvances(log, c, a.i);
    } else if a.RangeDone? {
      RangeAdvances(log, c, c.outstanding[0].answer.value);
    } else if a.WriteDone? {
      WriteAdvances(log, c);
    } else {
      ReadPosts(log, c, a.i, a.delivery);
      DeliveryAdvances(log, c, a.i, a.delivery, StepRead(log, c, a.i, a.delivery));
    }
  }

  /** And one that advances is always possible. */
  lemma SomethingAdvances(log: Log, c: Client) returns (a: Action)
    requires ValidLog(log) && Inv(log, c) && InSync(log, c) && Running(log, c) && OnCourse(log, c)
    ensures Enabled(log, c, a) && OfStream(a) && Advances(log, c, a)
  {
    var p := c.outstanding[0];
    assert p in c.outstanding;
    if Asked(p) {
      NobodyPrecedes(log, c.cs);
      a := AnswerRange(0, []);
    } else if p.RangePending? {
      a := RangeDone(0, true);
    } else if p.WritePending? {
      a := WriteDone(0, true);
    } else {
      var d := SomeDelivery(log, c);
      a := ReadDone(0, d);
    }
  }

  lemma SomeDelivery(log: Log, c: Client) returns (d: Delivery)
    requires Tokens(c) && Sighted(log, c) && c.phase.Campaigning? && InSync(log, c) && AllDue(log, c)
    requires c.cs.creationRevision >= 1 && |c.outstanding| == 1 && c.outstanding[0].ReadPending?
    ensures Enabled(log, c, ReadDone(0, d)) && Advances(log, c, ReadDone(0, d))
  {
    assert c.outstanding[0] in c.outstanding;
    var k :| k in c.cs.watchedKeys;
    assert Due(log, c, k);
    var j :| 0 <= j < |c.watches| && c.watches[j].open && c.watches[j].key == k
             && DeletedSince(log, k, c.watches[j].next);
    assert c.watches[j] in c.watches;
    d := Delivery(j, Revision(log) + 1, false, false, 0, true);
  }
}
