/** The observer of one election and its callbacks (gh/detail/election_observer_impl.hpp). */
module Observers {
  import opened ByteStrings
  import opened PrefixRange
  import opened Keys
  import opened Etcd
  import opened OpCounter

  /** The participants of the election, ordered by the create revision of their nodes. */
  type Participants = map<nat, KeyValue>

  /** What a subscriber is called with; both parts are empty when there is no leader. */
  datatype Notice = Notice(key: Bytes, value: Bytes)

  datatype Observer = Observer(
    name: Bytes,
    participants: Participants,
    subscriptions: set<nat>,
    received: map<nat, seq<Notice>>,   // all the calls the subscriber behind each token got
    tokenGen: nat,
    watchId: int,
    ops: Counter)

  datatype Op =
    | PostRange(req: RangeRequest)
    | PostWatch(key: Bytes, rangeEnd: Bytes, startRevision: nat)
    | PostRead

  datatype WatchResponse = WatchResponse(canceled: bool, compactRevision: int, watchId: int, events: seq<Event>)

  function NewObserver(name: Bytes): Observer {
    Observer(name, map[], {}, map[], 0, 0, Counter(0, false))
  }

  lemma {:induction false} Least(s: set<nat>) returns (least: nat)
    requires s != {}
    ensures least in s && forall d :: d in s ==> least <= d
  {
    var x :| x in s;
    var rest := s - {x};
    least := x;
    if rest != {} {
      var c := Least(rest);
      least := if x < c then x else c;
    }
    forall d | d in s ensures least <= d {
      assert d == x || d in rest;
    }
  }

  lemma LeastExists(s: set<nat>)
    requires s != {}
    ensures exists c :: c in s && forall d :: d in s ==> c <= d
  {
    var c := Least(s);
  }

  /** The key of the first entry. */
  function First(m: Participants): (c: nat)
    requires m != map[]
    ensures c in m && forall d :: d in m ==> c <= d
  {
    LeastExists(m.Keys);
    var c :| c in m.Keys && forall d :: d in m.Keys ==> c <= d;
    c
  }

  function Leader(m: Participants): Notice {
    if m == map[] then Notice([], []) else Notice(m[First(m)].key, m[First(m)].value)
  }

  /** The new participants, and whether the leader changed. */
  function HandlePut(m: Participants, kv: KeyValue): (Participants, bool) {
    var c := kv.createRevision;
    var changedValue := c in m ==> kv.value != m[c].value;
    var m' := m[c := kv];
    assert c in m';
    (m', First(m') == c && changedValue)
  }

  function HandleDelete(m: Participants, kv: KeyValue): (Participants, bool) {
    var c := kv.createRevision;
    if c !in m then (m, false) else (m - {c}, First(m) == c)
  }

  function HandleEvent(m: Participants, ev: Event): (Participants, bool) {
    match ev
    case Put(kv) => HandlePut(m, kv)
    case Delete(kv) => HandleDelete(m, kv)
  }

  function HandleAll(m: Participants, events: seq<Event>): (Participants, bool) {
    if events == [] then (m, false)
    else
      var before := HandleAll(m, events[..|events| - 1]);
      var last := HandleEvent(before.0, events[|events| - 1]);
      (last.0, last.1 || before.1)
  }

  /** What current_key and current_value return; None is where they throw. */
  function CurrentKey(o: Observer): Option<Bytes> {
    if o.participants == map[] then None else Some(o.participants[First(o.participants)].key)
  }

  function CurrentValue(o: Observer): Option<Bytes> {
    if o.participants == map[] then None else Some(o.participants[First(o.participants)].value)
  }

  function CallSubscribers(o: Observer): Observer {
    o.(received := map t | t in o.received ::
      if t in o.subscriptions then o.received[t] + [Leader(o.participants)] else o.received[t])
  }

  function LowestQuery(name: Bytes): RangeRequest {
    RangeRequest(ElectionPrefix(name), EndOf(ElectionPrefix(name)), 0, Ascend)
  }

  function Discover(o: Observer): (Observer, seq<Op>) {
    if o.ops.shutdown then (o, []) else (o.(ops := o.ops.Start()), [PostRange(LowestQuery(o.name))])
  }

  function CreateWatcher(o: Observer, start: nat): (Observer, seq<Op>) {
    if o.ops.shutdown then (o, [])
    else (o.(ops := o.ops.Start()), [PostWatch(ElectionPrefix(o.name), EndOf(ElectionPrefix(o.name)), start)])
  }

  function ReportLeader(o: Observer, kv: KeyValue): Observer {
    var (m, changed) := HandlePut(o.participants, kv);
    var o := o.(participants := m);
    if changed then CallSubscribers(o) else o
  }

  /** An answer of more than one key throws once the watcher is on its way. */
  function OnRangeRequest(o: Observer, ok: bool, response: RangeResponse): (Observer, seq<Op>) {
    var o := o.(ops := o.ops.Done());
    if !ok then (o, [])
    else if response.kvs == [] then CreateWatcher(o, response.revision)
    else
      var (o, posted) := CreateWatcher(o, response.kvs[0].createRevision);
      (if |response.kvs| == 1 then ReportLeader(o, response.kvs[0]) else o, posted)
  }

  function OnWatchCreate(o: Observer, ok: bool): (Observer, seq<Op>) {
    var o := o.(ops := o.ops.Done());
    if !ok || o.ops.shutdown then (o, []) else (o.(ops := o.ops.Start()), [PostRead])
  }

  function OnWatchRead(o: Observer, ok: bool, response: WatchResponse): (Observer, seq<Op>) {
    var o := o.(ops := o.ops.Done());
    if !ok || response.canceled || response.compactRevision != 0 then (o, [])
    else
      var (m, changed) := HandleAll(o.participants, response.events);
      var o := o.(watchId := response.watchId, participants := m);
      var o := if changed then CallSubscribers(o) else o;
      if o.ops.shutdown then (o, []) else (o.(ops := o.ops.Start()), [PostRead])
  }

  /** Shutting down asks the server to cancel the watch; the result is the request, if its start is accepted. */
  function CancelWatcher(o: Observer): (Observer, seq<int>) {
    if o.ops.shutdown then (o, []) else (o.(ops := o.ops.Start()), [o.watchId])
  }

  function OnWatchCancel(o: Observer): Observer {
    o.(ops := o.ops.Done())
  }

  /** A new subscriber is called at once if there is a leader. */
  function Subscribe(o: Observer): (Observer, nat) {
    var token := o.tokenGen + 1;
    (o.(tokenGen := token, subscriptions := o.subscriptions + {token},
        received := o.received[token := if o.participants == map[] then [] else [Leader(o.participants)]]),
     token)
  }

  function Unsubscribe(o: Observer, token: int): Observer {
    o.(subscriptions := set t | t in o.subscriptions && t != token)
  }

  class ElectionObserver {
    const electionName: Bytes
    const electionPrefix: Bytes
    var participants: Participants
    var subscriptions: set<nat>
    var received: map<nat, seq<Notice>>
    var tokenGen: nat
    var watchId: int
    const ops: AsyncOpCounter

    ghost predicate Valid()
      reads this
    {
      electionPrefix == ElectionPrefix(electionName) && subscriptions <= received.Keys
    }

    ghost function State(): Observer
      reads this, ops
    {
      Observer(electionName, participants, subscriptions, received, tokenGen, watchId, ops.Value())
    }

    constructor (electionName: Bytes)
      ensures Valid() && fresh(ops) && State() == NewObserver(electionName)
    {
      this.electionName := electionName;
      electionPrefix := electionName + [SLASH];
      participants, subscriptions, received, tokenGen, watchId := map[], {}, map[], 0, 0;
      ops := new AsyncOpCounter();
    }

    method HandleNodePut(kv: KeyValue) returns (leaderChanged: bool)
      modifies this`participants
      ensures (participants, leaderChanged) == HandlePut(old(participants), kv)
    {
      var changedValue := true;
      if kv.createRevision in participants {
        changedValue := kv.value != participants[kv.createRevision].value;
      }
      participants := participants[kv.createRevision := kv];
      assert kv.createRevision in participants;
      return First(participants) == kv.createRevision && changedValue;
    }

    method HandleNodeDelete(kv: KeyValue) returns (leaderChanged: bool)
      modifies this`participants
      ensures (participants, leaderChanged) == HandleDelete(old(participants), kv)
    {
      if kv.createRevision !in participants {
        return false;
      }
      leaderChanged := First(participants) == kv.createRevision;
      participants := participants - {kv.createRevision};
    }

    method NotifySubscribers()
      requires Valid()
      modifies this`received
      ensures Valid() && State() == CallSubscribers(old(State()))
    {
      var notice := Leader(participants);
      var rest := subscriptions;
      while |rest| > 0
        invariant rest <= subscriptions && received.Keys == old(received).Keys
        invariant forall t :: t in received ==>
                    received[t] == if t in subscriptions && t !in rest then old(received)[t] + [notice]
                                   else old(received)[t]
        decreases |rest|
      {
        var token :| token in rest;
        received := received[token := received[token] + [notice]];
        rest := rest - {token};
      }
      assert received == CallSubscribers(old(State())).received;
    }

    method DoDiscover() returns (posted: seq<Op>)
      requires Valid()
      modifies ops
      ensures (State(), posted) == Discover(old(State()))
    {
      var rangeEnd := PrefixEnd(electionPrefix);
      var accepted := ops.AsyncOpStart();
      if !accepted {
        return [];
      }
      return [PostRange(RangeRequest(electionPrefix, rangeEnd, 0, Ascend))];
    }

    method DoCreateWatcher(start: nat) returns (posted: seq<Op>)
      requires Valid()
      modifies ops
      ensures (State(), posted) == CreateWatcher(old(State()), start)
    {
      var accepted := ops.AsyncOpStart();
      if !accepted {
        return [];
      }
      var rangeEnd := PrefixEnd(electionPrefix);
      return [PostWatch(electionPrefix, rangeEnd, start)];
    }

    method ReportElectionLeader(kv: KeyValue)
      requires Valid()
      modifies this`participants, this`received
      ensures Valid() && State() == ReportLeader(old(State()), kv)
    {
      var changed := HandleNodePut(kv);
      if changed {
        NotifySubscribers();
      }
    }

    method HandleRangeRequest(ok: bool, response: RangeResponse) returns (posted: seq<Op>)
      requires Valid()
      modifies this`participants, this`received, ops
      ensures Valid() && (State(), posted) == OnRangeRequest(old(State()), ok, response)
    {
      var _ := ops.AsyncOpDone();
      if !ok {
        return [];
      }
      if response.kvs != [] {
        posted := DoCreateWatcher(response.kvs[0].createRevision);
        if |response.kvs| == 1 {
          ReportElectionLeader(response.kvs[0]);
        }
      } else {
        posted := DoCreateWatcher(response.revision);
      }
    }

    method HandleWatchCreate(ok: bool) returns (posted: seq<Op>)
      modifies ops
      ensures (State(), posted) == OnWatchCreate(old(State()), ok)
    {
      var _ := ops.AsyncOpDone();
      if !ok {
        return [];
      }
      var accepted := ops.AsyncOpStart();
      return if accepted then [PostRead] else [];
    }

    method HandleWatchRead(ok: bool, response: WatchResponse) returns (posted: seq<Op>)
      requires Valid()
      modifies this`participants, this`received, this`watchId, ops
      ensures Valid() && (State(), posted) == OnWatchRead(old(State()), ok, response)
    {
      var _ := ops.AsyncOpDone();
      if !ok {
        return [];
      }
      if response.canceled || response.compactRevision != 0 {
        return [];
      }
      watchId := response.watchId;
      var leaderChanged := false;
      var events := response.events;
      assert events[..|events|] == events;
      for i := 0 to |events|
        invariant (participants, leaderChanged) == HandleAll(old(participants), events[..i])
        modifies this`participants
      {
        assert events[..i + 1][..i] == events[..i];
        var changed := false;
        match events[i] {
          case Put(kv) => changed := HandleNodePut(kv);
          case Delete(kv) => changed := HandleNodeDelete(kv);
        }
        leaderChanged := changed || leaderChanged;
      }
      if leaderChanged {
        NotifySubscribers();
      }
      var accepted := ops.AsyncOpStart();
      return if accepted then [PostRead] else [];
    }

    method Shutdown() returns (cancelled: seq<int>)
      modifies ops
      ensures (State(), cancelled) == CancelWatcher(old(State()))
    {
      var accepted := ops.AsyncOpStart();
      return if accepted then [watchId] else [];
    }

    method HandleWatchCancel()
      modifies ops
      ensures State() == OnWatchCancel(old(State()))
    {
      var _ := ops.AsyncOpDone();
    }

    method GetCurrentKey() returns (key: Option<Bytes>)
      ensures key == CurrentKey(State())
    {
      if participants == map[] {
        return None;
      }
      return Some(participants[First(participants)].key);
    }

    method GetCurrentValue() returns (value: Option<Bytes>)
      ensures value == CurrentValue(State())
    {
      if participants == map[] {
        return None;
      }
      return Some(participants[First(participants)].value);
    }

    method AddSubscriber() returns (token: nat)
      requires Valid()
      modifies this`subscriptions, this`received, this`tokenGen
      ensures Valid() && (State(), token) == Subscribe(old(State()))
    {
      var calls := [];
      if participants != map[] {
        calls := [Leader(participants)];
      }
      tokenGen := tokenGen + 1;
      token := tokenGen;
      subscriptions := subscriptions + {token};
      received := received[token := calls];
    }

    method RemoveSubscriber(token: int)
      requires Valid()
      modifies this`subscriptions
      ensures Valid() && State() == Unsubscribe(old(State()), token)
    {
      subscriptions := set t | t in subscriptions && t != token;
    }
  }
}
