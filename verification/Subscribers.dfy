/** What subscribers are told about the leader, from their subscription until they unsubscribe. */
module Subscribers {
  import opened ByteStrings
  import opened PrefixRange
  import opened Keys
  import opened Etcd
  import opened Observers
  import opened ObserverRefinement
  import opened ObserverRuns
  import opened Runs

  // ---- tokens ----------------------------------------------------------------------------------------------------

  /** The token that the next subscriber gets. */
  function NextToken(s: Scene): nat {
    Subscribe(s.o).1
  }

  /** A move changes who is subscribed only by subscribing and unsubscribing, and calls nobody else. */
  ghost predicate KeepsOthers(o: Observer, m: Move, o': Observer) {
    && o.tokenGen <= o'.tokenGen && o.subscriptions <= o'.subscriptions + (if m.Unsubscribes? then {m.token} else {})
    && (forall t :: t in o.received ==> t in o'.received && (t !in o.subscriptions ==> o'.received[t] == o.received[t]))
    && (forall t :: t in o.received && t !in o.subscriptions ==> t !in o'.subscriptions)
  }

  lemma MoveKeepsOthers(s: Scene, m: Move)
    requires Inv(s) && Possible(s, m)
    ensures KeepsOthers(s.o, m, After(s, m).o)
  {
    if m.RangeDone? && m.ok {
      assert s.outstanding[m.i] in s.outstanding;
      RangeKeepsOthers(s.o, m, s.outstanding[m.i].answer.value);
    } else if m.EventsArrive? {
      BatchKeepsOthers(s.o, m, WatchResponse(false, 0, s.watch.value.id, m.batch));
    } else if m.Subscribes? || m.Unsubscribes? {
      ApplicationKeepsOthers(s, m);
    } else {
      RestIsQuiet(s, m);
    }
  }

  lemma RangeKeepsOthers(o: Observer, m: Move, response: RangeResponse)
    requires |response.kvs| <= 1 && !m.Unsubscribes?
    ensures KeepsOthers(o, m, OnRangeRequest(o, true, response).0)
  {
  }

  lemma BatchKeepsOthers(o: Observer, m: Move, response: WatchResponse)
    requires !m.Unsubscribes?
    ensures KeepsOthers(o, m, OnWatchRead(o, true, response).0)
  {
  }

  lemma ApplicationKeepsOthers(s: Scene, m: Move)
    requires Inv(s) && (m.Subscribes? || m.Unsubscribes?)
    ensures KeepsOthers(s.o, m, After(s, m).o)
  {
  }

  lemma RestIsQuiet(s: Scene, m: Move)
    requires Possible(s, m) && !(m.RangeDone? && m.ok) && !m.EventsArrive? && !m.Subscribes? && !m.Unsubscribes?
    ensures Quiet(s.o, After(s, m).o)
  {
  }

  lemma SubscriptionStays(scenes: seq<Scene>, moves: seq<Move>, j: nat, k: nat)
    requires IsRun(scenes, moves) && j < k < |scenes| && moves[j].Subscribes?
    requires forall i :: j < i < k ==> moves[i] != Unsubscribes(NextToken(scenes[j]))
    ensures NextToken(scenes[j]) in scenes[k].o.subscriptions
  {
    var token := NextToken(scenes[j]);
    var subscribed := (s: Scene) => token in s.o.subscriptions;
    forall i | j + 1 <= i < k && subscribed(scenes[i]) ensures subscribed(scenes[i + 1]) {
      RunKeepsInv(scenes, moves, i);
      MoveKeepsOthers(scenes[i], moves[i]);
    }
    Carries(scenes, subscribed, j + 1, k);
  }

  /** Whoever subscribed, and has not unsubscribed, was last told the current leader, or that there is none, whatever
      mix of events came in. */
  lemma SubscribersKnowLeader(scenes: seq<Scene>, moves: seq<Move>, j: nat, k: nat)
    requires IsRun(scenes, moves) && j < k < |scenes| && moves[j].Subscribes?
    requires forall i :: j < i < k ==> moves[i] != Unsubscribes(NextToken(scenes[j]))
    ensures
      var token, o := NextToken(scenes[j]), scenes[k].o;
      token in o.received && LastNotice(o.received[token]) == Leader(o.participants)
  {
    SubscriptionStays(scenes, moves, j, k);
    RunKeepsInv(scenes, moves, k);
  }

  /** A subscriber that unsubscribes is not called again. */
  lemma UnsubscribedIsLeftAlone(scenes: seq<Scene>, moves: seq<Move>, j: nat, k: nat, token: nat)
    requires IsRun(scenes, moves) && j < k < |scenes| && moves[j] == Unsubscribes(token)
    requires token in scenes[j].o.received
    ensures token in scenes[k].o.received && scenes[k].o.received[token] == scenes[j].o.received[token]
  {
    var calls := scenes[j].o.received[token];
    var alone := (s: Scene) =>
      token in s.o.received && token !in s.o.subscriptions && s.o.received[token] == calls;
    forall i | j + 1 <= i < k && alone(scenes[i]) ensures alone(scenes[i + 1]) {
      RunKeepsInv(scenes, moves, i);
      MoveKeepsOthers(scenes[i], moves[i]);
    }
    Carries(scenes, alone, j + 1, k);
  }

  /** No two subscribers get the same token. */
  lemma TokensDiffer(scenes: seq<Scene>, moves: seq<Move>, j: nat, k: nat)
    requires IsRun(scenes, moves) && j < k < |moves| && moves[j].Subscribes? && moves[k].Subscribes?
    ensures NextToken(scenes[j]) < NextToken(scenes[k])
  {
    var token := NextToken(scenes[j]);
    var issued := (s: Scene) => token <= s.o.tokenGen;
    forall i | j + 1 <= i < k && issued(scenes[i]) ensures issued(scenes[i + 1]) {
      RunKeepsInv(scenes, moves, i);
      MoveKeepsOthers(scenes[i], moves[i]);
    }
    Carries(scenes, issued, j + 1, k);
  }

  /** A new subscriber is called at once, with the leader, exactly if there is one; a caught-up observer has one exactly
      if the election has a live node. */
  lemma SubscribeCallsIff(scenes: seq<Scene>, moves: seq<Move>, k: nat, r: nat)
    requires IsRun(scenes, moves) && k < |moves| && moves[k].Subscribes? && CaughtUp(scenes[k], r)
    ensures 1 <= r <= Revision(scenes[k].log)
    ensures
      var token, o, o' := NextToken(scenes[k]), scenes[k].o, scenes[k + 1].o;
      && token in o'.received
      && o'.received[token] == if HasNode(At(scenes[k].log, r), o.name) then [Leader(o.participants)] else []
  {
    CurrentLeaderIff(scenes, moves, k, r);
  }

  // ---- called exactly when the leader changes --------------------------------------------------------------------

  /** Some event of the batch puts another leader, or another value of the leader, or none, in place. */
  ghost predicate LeaderPasses(m: Participants, events: seq<Event>) {
    exists i :: PassesAt(m, events, i)
  }

  predicate PassesAt(m: Participants, events: seq<Event>, i: int) {
    0 <= i < |events| && Leader(HandleAll(m, events[..i]).0) != Leader(HandleAll(m, events[..i + 1]).0)
  }

  /** The revision at which the next event was made. */
  lemma {:induction false} NextEventAt(
    log: Log, start: nat, end: nat, key: Bytes, rangeEnd: Bytes, done: seq<Event>, ev: Event) returns (r: nat)
    requires ValidLog(log) && 1 <= start <= end <= Revision(log) + 1
    requires done + [ev] <= Events(log, start, end, key, rangeEnd)
    ensures start <= r < end && Events(log, start, r, key, rangeEnd) <= done
    ensures done[|Events(log, start, r, key, rangeEnd)|..] + [ev] <= EventsAt(log, r, key, rangeEnd)
    decreases end
  {
    var before, now := Events(log, start, end - 1, key, rangeEnd), EventsAt(log, end - 1, key, rangeEnd);
    EventsStep(log, start, end, key, rangeEnd);
    if |before| <= |done| {
      r := end - 1;
      SplitPrefix(before, now, done, ev);
    } else {
      assert done + [ev] == before[..|done| + 1];
      r := NextEventAt(log, start, end - 1, key, rangeEnd, done, ev);
    }
  }

  lemma SplitPrefix(before: seq<Event>, now: seq<Event>, done: seq<Event>, ev: Event)
    requires done + [ev] <= before + now && |before| <= |done|
    ensures before <= done && done[|before|..] + [ev] <= now
  {
    var all, next := before + now, done + [ev];
    assert forall i :: 0 <= i < |next| ==> next[i] == all[i];
    assert forall i :: 0 <= i < |done| ==> done[i] == next[i];
    assert forall i :: 0 <= i < |before| ==> done[i] == before[i];
    var rest := done[|before|..] + [ev];
    forall i | 0 <= i < |rest| ensures rest[i] == now[i] {
      assert rest[i] == next[|before| + i] == all[|before| + i];
    }
  }

  /** A Put into participants that were the live nodes so far changes the leader exactly if it says so. */
  lemma PutTellsIff(log: Log, r: nat, name: Bytes, m: Participants, k: Bytes)
    requires ValidLog(log) && 2 <= r <= Revision(log) && log[r - 2].PutKey? && log[r - 2].key == k
    requires At(log, r) == Apply(At(log, r - 1), log[r - 2], r) && InElection(name, k) && Sound(log, r - 1, name, m)
    ensures
      var (m', changed) := HandlePut(m, ToKeyValue(k, At(log, r)[k]));
      changed <==> Leader(m') != Leader(m)
  {
    var kv := ToKeyValue(k, At(log, r)[k]);
    var c := kv.createRevision;
    var m' := m[c := kv];
    assert c in m';
    if c in m {
      CreateRevisionsAreUnique(log, r - 1, m[c].key, r, k);
      assert First(m') in m && First(m) in m';
    } else {
      assert forall d :: d in m ==> m[d].key != k;
      if m != map[] {
        assert First(m) in m';
      }
    }
  }

  /** And so does a Delete, as long as the participants are among the live nodes. */
  lemma DeleteTellsIff(log: Log, r: nat, name: Bytes, m: Participants, kv: KeyValue)
    requires 1 <= r <= Revision(log) && Sound(log, r, name, m)
    ensures
      var (m', changed) := HandleDelete(m, kv);
      changed <==> Leader(m') != Leader(m)
  {
    var c := kv.createRevision;
    if c in m {
      var m' := m - {c};
      if First(m) != c {
        assert First(m) in m';
        assert First(m') == First(m);
      } else if m' != map[] {
        assert m[First(m')].key != m[c].key;
      }
    }
  }

  lemma {:induction false} DeletesShrink(m: Participants, events: seq<Event>)
    requires forall ev :: ev in events ==> ev.Delete?
    ensures
      var m' := HandleAll(m, events).0;
      forall c :: c in m' ==> c in m && m'[c] == m[c]
  {
    if events != [] {
      assert events[|events| - 1] in events;
      var init := events[..|events| - 1];
      assert forall ev :: ev in init ==> ev in events;
      DeletesShrink(m, init);
    }
  }

  /** The participants between two events of a deletion are among the live nodes before it. */
  lemma DeletingTellsIff(log: Log, r: nat, name: Bytes, m: Participants, done: seq<Event>, ev: Event)
    requires 1 <= r <= Revision(log) && Sound(log, r, name, m)
    requires forall other :: other in done + [ev] ==> other.Delete?
    ensures
      var now := HandleAll(m, done).0;
      var (m', changed) := HandleEvent(now, ev);
      changed <==> Leader(m') != Leader(now)
  {
    assert ev in done + [ev] && forall other :: other in done ==> other in done + [ev];
    DeletesShrink(m, done);
    DeleteTellsIff(log, r, name, HandleAll(m, done).0, ev.prevKv);
  }

  /** The participants when the events of revision r begin to come in. */
  ghost function Before(log: Log, name: Bytes, response: RangeResponse, r: nat): Participants
    requires ValidLog(log) && 1 <= Start(response) <= r <= Revision(log)
  {
    Replay(log, name, response, r - 1)
  }

  lemma BeforeIsSound(log: Log, name: Bytes, response: RangeResponse, r: nat)
    requires ValidLog(log) && Answered(log, name, response) && 1 <= Start(response) < r <= Revision(log)
    ensures Sound(log, r - 1, name, Before(log, name, response, r))
  {
    ReplayIsSound(log, name, response, r - 1);
  }

  lemma BeforeStart(log: Log, name: Bytes, response: RangeResponse)
    requires ValidLog(log) && Answered(log, name, response) && 1 <= Start(response) <= Revision(log)
    ensures Before(log, name, response, Start(response)) == Initial(response)
  {
    var prefix := ElectionPrefix(name);
    assert Events(log, Start(response), Start(response), prefix, EndOf(prefix)) == [];
    assert HandleAll(Initial(response), []) == (Initial(response), false);
  }

  /** At the first revision of the replay. */
  lemma FirstTellsIff(log: Log, name: Bytes, response: RangeResponse, done: seq<Event>, ev: Event)
    requires ValidLog(log) && Answered(log, name, response) && 1 <= Start(response) <= Revision(log)
    requires done + [ev] <= ElectionEvents(log, Start(response), name)
    ensures
      var now := HandleAll(Initial(response), done).0;
      var (m', changed) := HandleEvent(now, ev);
      changed <==> Leader(m') != Leader(now)
  {
    AnswerIsFirst(log, name, response);
    if log[Start(response) - 2].PutKey? {
      FirstPutTellsIff(log, name, response, done, ev);
    } else {
      EventsAreDeletes(log, Start(response), name, done, ev);
      assert ev in done + [ev] && forall other :: other in done ==> other in done + [ev];
      DeletesShrink(map[], done);
      assert HandleAll(map[], done).0 == map[];
    }
  }

  lemma FirstPutTellsIff(log: Log, name: Bytes, response: RangeResponse, done: seq<Event>, ev: Event)
    requires ValidLog(log) && Answered(log, name, response) && 2 <= Start(response) <= Revision(log)
    requires log[Start(response) - 2].PutKey? && done + [ev] <= ElectionEvents(log, Start(response), name)
    ensures
      var now := HandleAll(Initial(response), done).0;
      var (m', changed) := HandleEvent(now, ev);
      changed <==> Leader(m') != Leader(now)
  {
    AnswerIsFirst(log, name, response);
    var s := Start(response);
    var k := log[s - 2].key;
    OnlyEvent(log, s, name, done, ev);
    LiveSinceCreation(log, s, response.revision, k);
    assert Initial(response) == map[s := response.kvs[0]];
  }

  /** A Put makes one event. */
  lemma OnlyEvent(log: Log, r: nat, name: Bytes, done: seq<Event>, ev: Event)
    requires ValidLog(log) && 2 <= r <= Revision(log) && log[r - 2].PutKey?
    requires done + [ev] <= ElectionEvents(log, r, name)
    ensures
      var k := log[r - 2].key;
      && done == [] && InElection(name, k)
      && At(log, r) == Apply(At(log, r - 1), log[r - 2], r) && ev == Put(ToKeyValue(k, At(log, r)[k]))
  {
    var k, events := log[r - 2].key, ElectionEvents(log, r, name);
    AtStep(log, r);
    assert ValidAt(log, r);
    ElectionRangeIsExact(name, k);
    assert events == [events[0]] && |done| == 0 && ev == events[0];
  }

  lemma EventsAreDeletes(log: Log, r: nat, name: Bytes, done: seq<Event>, ev: Event)
    requires ValidLog(log) && 2 <= r <= Revision(log) && log[r - 2].DeleteKeys?
    requires done + [ev] <= ElectionEvents(log, r, name)
    ensures forall other :: other in done + [ev] ==> other.Delete?
  {
    var prefix := ElectionPrefix(name);
    assert ValidAt(log, r);
    forall other | other in done + [ev] ensures other.Delete? {
      assert other in ElectionEvents(log, r, name);
      DeleteEventsAre(At(log, r - 1), log[r - 2].keys, prefix, EndOf(prefix), other);
    }
  }

  /** At any later one. */
  lemma LaterTellsIff(
    log: Log, r: nat, name: Bytes, m: Participants, done: seq<Event>, ev: Event)
    requires ValidLog(log) && 2 <= r <= Revision(log) && Sound(log, r - 1, name, m)
    requires done + [ev] <= ElectionEvents(log, r, name)
    ensures
      var now := HandleAll(m, done).0;
      var (m', changed) := HandleEvent(now, ev);
      changed <==> Leader(m') != Leader(now)
  {
    if log[r - 2].PutKey? {
      OnlyEvent(log, r, name, done, ev);
      PutTellsIff(log, r, name, m, log[r - 2].key);
    } else {
      EventsAreDeletes(log, r, name, done, ev);
      DeletingTellsIff(log, r - 1, name, m, done, ev);
    }
  }

  /** An event that the watch delivers changes the leader, or the leader's value, exactly if handling it says so. */
  lemma EventTellsIff(log: Log, name: Bytes, response: RangeResponse, done: seq<Event>, ev: Event)
    requires ValidLog(log) && Answered(log, name, response) && 1 <= Start(response) <= Revision(log)
    requires
      var prefix := ElectionPrefix(name);
      done + [ev] <= Events(log, Start(response), Revision(log) + 1, prefix, EndOf(prefix))
    ensures
      var now := HandleAll(Initial(response), done).0;
      var (m', changed) := HandleEvent(now, ev);
      changed <==> Leader(m') != Leader(now)
  {
    var s, prefix := Start(response), ElectionPrefix(name);
    var r := NextEventAt(log, s, Revision(log) + 1, prefix, EndOf(prefix), done, ev);
    var before := Events(log, s, r, prefix, EndOf(prefix));
    var rest := done[|before|..];
    assert done == before + rest;
    HandleAppend(Initial(response), before, rest);
    if r == s {
      BeforeStart(log, name, response);
      FirstTellsIff(log, name, response, rest, ev);
    } else {
      BeforeIsSound(log, name, response, r);
      LaterTellsIff(log, r, name, Before(log, name, response, r), rest, ev);
    }
  }

  lemma {:induction false} BatchTellsIff(
    log: Log, name: Bytes, response: RangeResponse, done: seq<Event>, batch: seq<Event>)
    requires ValidLog(log) && Answered(log, name, response) && 1 <= Start(response) <= Revision(log)
    requires
      var prefix := ElectionPrefix(name);
      done + batch <= Events(log, Start(response), Revision(log) + 1, prefix, EndOf(prefix))
    ensures
      var m := HandleAll(Initial(response), done).0;
      HandleAll(m, batch).1 <==> LeaderPasses(m, batch)
  {
    if batch != [] {
      var init, last, m := batch[..|batch| - 1], batch[|batch| - 1], HandleAll(Initial(response), done).0;
      assert (done + batch)[..|done + init|] == done + init;
      assert (done + init) + [last] == done + batch;
      BatchTellsIff(log, name, response, done, init);
      EventTellsIff(log, name, response, done + init, last);
      HandleAppend(Initial(response), done, init);
      PassesAtLast(m, batch);
    }
  }

  lemma PassesAtLast(m: Participants, batch: seq<Event>)
    requires batch != []
    ensures
      var init := batch[..|batch| - 1];
      LeaderPasses(m, batch) <==>
        LeaderPasses(m, init) || Leader(HandleAll(m, init).0) != Leader(HandleAll(m, batch).0)
  {
    var init := batch[..|batch| - 1];
    assert batch[..|init|] == init && batch[..|init| + 1] == batch;
    forall i | 0 <= i < |init| ensures PassesAt(m, init, i) <==> PassesAt(m, batch, i) {
      assert init[..i] == batch[..i] && init[..i + 1] == batch[..i + 1];
    }
    assert LeaderPasses(m, batch) <==> LeaderPasses(m, init) || PassesAt(m, batch, |init|);
  }

  /** The move brings subscribers news. */
  ghost predicate Passes(s: Scene, m: Move)
    requires Possible(s, m)
  {
    match m
    case RangeDone(_, _) => Leader(After(s, m).o.participants) != Leader(s.o.participants)
    case EventsArrive(_, batch) => LeaderPasses(s.o.participants, batch)
    case _ => false
  }

  lemma FirstAnswerPasses(s: Scene, i: nat)
    requires Inv(s) && Possible(s, RangeDone(i, true))
    ensures
      var response := s.outstanding[i].answer.value;
      Passes(s, RangeDone(i, true)) <==> response.kvs != []
  {
    assert s.outstanding[i] in s.outstanding;
    AnswerIsFirst(s.log, s.o.name, s.outstanding[i].answer.value);
    RangeKeepsInv(s, i);
    assert HandleAll(Initial(s.outstanding[i].answer.value), []) == (Initial(s.outstanding[i].answer.value), false);
  }

  lemma SubscriberIsCalled(s: Scene, m: Move, token: nat)
    requires Inv(s) && Possible(s, m) && token in s.o.subscriptions && token in After(s, m).o.received
    ensures After(s, m).o.received[token] ==
              s.o.received[token] + if Passes(s, m) then [Leader(After(s, m).o.participants)] else []
  {
    if m.RangeDone? && m.ok {
      CalledByRange(s, m.i, token);
    } else if m.EventsArrive? {
      CalledByEvents(s, m.i, m.batch, token);
    } else if m.Subscribes? {
      assert token != NextToken(s);
    } else if !m.Unsubscribes? {
      RestIsQuiet(s, m);
    }
  }

  lemma CalledByRange(s: Scene, i: nat, token: nat)
    requires Inv(s) && Possible(s, RangeDone(i, true)) && token in s.o.subscriptions
    ensures
      var o' := After(s, RangeDone(i, true)).o;
      && token in s.o.received && token in o'.received
      && o'.received[token] ==
           s.o.received[token] + if Passes(s, RangeDone(i, true)) then [Leader(o'.participants)] else []
  {
    assert s.outstanding[i] in s.outstanding;
    FirstAnswerPasses(s, i);
    FirstAnswerCalls(s.o, s.outstanding[i].answer.value, token);
  }

  lemma CalledByEvents(s: Scene, i: nat, batch: seq<Event>, token: nat)
    requires Inv(s) && Possible(s, EventsArrive(i, batch)) && token in s.o.subscriptions
    ensures
      var o' := After(s, EventsArrive(i, batch)).o;
      && token in s.o.received && token in o'.received
      && o'.received[token] ==
           s.o.received[token] + if LeaderPasses(s.o.participants, batch) then [Leader(o'.participants)] else []
  {
    assert s.outstanding[i] in s.outstanding;
    BatchTellsIff(s.log, s.o.name, s.answer.value, s.delivered, batch);
    BatchCalls(s.o, WatchResponse(false, 0, s.watch.value.id, batch), token);
  }

  lemma FirstAnswerCalls(o: Observer, response: RangeResponse, token: nat)
    requires o.participants == map[] && |response.kvs| <= 1 && token in o.subscriptions && token in o.received
    ensures
      var o' := OnRangeRequest(o, true, response).0;
      && token in o'.received
      && o'.received[token] == o.received[token] + if response.kvs != [] then [Leader(o'.participants)] else []
  {
    if response.kvs != [] {
      assert HandlePut(map[], response.kvs[0]).1;
    }
  }

  lemma BatchCalls(o: Observer, response: WatchResponse, token: nat)
    requires token in o.subscriptions && token in o.received && !response.canceled && response.compactRevision == 0
    ensures
      var o' := OnWatchRead(o, true, response).0;
      && token in o'.received
      && o'.received[token] ==
           o.received[token] + if HandleAll(o.participants, response.events).1 then [Leader(o'.participants)] else []
  {
  }

  /** Whoever has subscribed, and not unsubscribed, is called by a move exactly if some event of it changes the leader
      or the leader's value; then once, with what holds after it. */
  lemma SubscriberIsCalledIff(scenes: seq<Scene>, moves: seq<Move>, j: nat, k: nat)
    requires IsRun(scenes, moves) && j < k < |moves| && moves[j].Subscribes?
    requires forall i :: j < i <= k ==> moves[i] != Unsubscribes(NextToken(scenes[j]))
    ensures
      var token, o, o' := NextToken(scenes[j]), scenes[k].o, scenes[k + 1].o;
      && token in o.received && token in o'.received
      && o'.received[token] ==
           o.received[token] + if Passes(scenes[k], moves[k]) then [Leader(o'.participants)] else []
  {
    SubscriptionStays(scenes, moves, j, k);
    RunKeepsInv(scenes, moves, k);
    MoveKeepsOthers(scenes[k], moves[k]);
    SubscriberIsCalled(scenes[k], moves[k], NextToken(scenes[j]));
  }
}
