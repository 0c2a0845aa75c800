/** The part of an etcd server the election protocols rely on: a revision counter, the keys that are live at each
    revision, transactions, linearizable ranges and the event history that watchers replay. */
module Etcd {
  import opened ByteStrings

  datatype Option<+T> = None | Some(value: T)

  datatype Node = Node(value: Bytes, lease: int, createRevision: nat)

  type Live = map<Bytes, Node>

  datatype KeyValue = KeyValue(key: Bytes, value: Bytes, createRevision: nat)

  /** What one revision changes. A lease that expires or is revoked deletes all its keys in one revision. */
  datatype Change = PutKey(key: Bytes, value: Bytes, lease: int) | DeleteKeys(keys: seq<Bytes>)

  /** Change i of the log made revision i + 2; an empty store is at revision 1. */
  type Log = seq<Change>

  function Revision(log: Log): nat {
    1 + |log|
  }

  function Apply(live: Live, change: Change, revision: nat): Live {
    match change
    case PutKey(k, v, l) => live[k := Node(v, l, if k in live then live[k].createRevision else revision)]
    case DeleteKeys(ks) => live - (set k | k in ks)
  }

  function LiveAfter(log: Log): Live {
    if log == [] then map[]
    else Apply(LiveAfter(log[..|log| - 1]), log[|log| - 1], Revision(log))
  }

  /** The live keys at revision r. */
  function At(log: Log, r: nat): Live
    requires 1 <= r <= Revision(log)
  {
    LiveAfter(log[..r - 1])
  }

  function Now(log: Log): Live {
    At(log, Revision(log))
  }

  /** A deletion names live keys, each once, and at least one. */
  predicate ValidChange(live: Live, change: Change) {
    change.DeleteKeys? ==>
      && change.keys != []
      && (forall i :: 0 <= i < |change.keys| ==> change.keys[i] in live)
      && (forall i, j :: 0 <= i < j < |change.keys| ==> change.keys[i] != change.keys[j])
  }

  predicate ValidAt(log: Log, r: nat)
    requires 2 <= r <= Revision(log)
  {
    ValidChange(At(log, r - 1), log[r - 2])
  }

  ghost predicate ValidLog(log: Log) {
    forall r :: 2 <= r <= Revision(log) ==> ValidAt(log, r)
  }

  function ToKeyValue(k: Bytes, node: Node): KeyValue {
    KeyValue(k, node.value, node.createRevision)
  }

  lemma AtStep(log: Log, r: nat)
    requires 2 <= r <= Revision(log)
    ensures At(log, r) == Apply(At(log, r - 1), log[r - 2], r)
  {
    assert log[..r - 1][..r - 2] == log[..r - 2];
  }

  /** History does not change: a longer log agrees with a shorter one about the past. */
  lemma AtStable(log: Log, longer: Log, r: nat)
    requires log <= longer && 1 <= r <= Revision(log)
    ensures At(longer, r) == At(log, r)
  {
    assert longer[..r - 1] == log[..r - 1];
  }

  lemma ValidLogExtend(log: Log, change: Change)
    requires ValidLog(log) && ValidChange(Now(log), change)
    ensures ValidLog(log + [change])
  {
    var longer := log + [change];
    forall r | 2 <= r <= Revision(longer) ensures ValidAt(longer, r) {
      AtStable(log, longer, r - 1);
      if r <= Revision(log) {
        assert ValidAt(log, r);
      }
    }
  }

  /** The create revision of a live key is the revision that put it. */
  lemma {:induction false} CreatedBy(log: Log, r: nat, k: Bytes)
    requires 1 <= r <= Revision(log) && k in At(log, r)
    ensures
      var c := At(log, r)[k].createRevision;
      2 <= c <= r && log[c - 2].PutKey? && log[c - 2].key == k
    decreases r
  {
    if r > 1 {
      AtStep(log, r);
      if k in At(log, r - 1) {
        CreatedBy(log, r - 1, k);
      }
    }
  }

  /** No two live keys have the same create revision, whether looked at now or at different times. */
  lemma CreateRevisionsAreUnique(log: Log, r1: nat, k1: Bytes, r2: nat, k2: Bytes)
    requires 1 <= r1 <= Revision(log) && k1 in At(log, r1)
    requires 1 <= r2 <= Revision(log) && k2 in At(log, r2)
    requires At(log, r1)[k1].createRevision == At(log, r2)[k2].createRevision
    ensures k1 == k2
  {
    CreatedBy(log, r1, k1);
    CreatedBy(log, r2, k2);
  }

  /** A node that is live now was live, as the same node, at every revision since it was created. */
  lemma {:induction false} LiveSinceCreation(log: Log, earlier: nat, r: nat, k: Bytes)
    requires 1 <= earlier <= r <= Revision(log) && k in At(log, r)
    requires At(log, r)[k].createRevision <= earlier
    ensures k in At(log, earlier) && At(log, earlier)[k].createRevision == At(log, r)[k].createRevision
    decreases r
  {
    if earlier < r {
      AtStep(log, r);
      LiveSinceCreation(log, earlier, r - 1, k);
    }
  }

  // ---- Range -----------------------------------------------------------------------------------------------------

  datatype SortOrder = Ascend | Descend

  /** A Range request sorted by create revision with a limit of one. */
  datatype RangeRequest = RangeRequest(key: Bytes, rangeEnd: Bytes, maxCreateRevision: int, order: SortOrder)

  datatype RangeResponse = RangeResponse(revision: nat, kvs: seq<KeyValue>)

  /** etcd takes a maximum create revision of zero to mean that there is no maximum. */
  predicate Matches(live: Live, req: RangeRequest, k: Bytes) {
    && k in live
    && InRange(k, req.key, req.rangeEnd)
    && (req.maxCreateRevision == 0 || live[k].createRevision <= req.maxCreateRevision)
  }

  ghost predicate IsAnswer(live: Live, req: RangeRequest, kvs: seq<KeyValue>) {
    if kvs == [] then forall k :: !Matches(live, req, k)
    else
      && |kvs| == 1
      && Matches(live, req, kvs[0].key)
      && kvs[0] == ToKeyValue(kvs[0].key, live[kvs[0].key])
      && forall k :: Matches(live, req, k) ==>
           if req.order.Ascend? then kvs[0].createRevision <= live[k].createRevision
           else live[k].createRevision <= kvs[0].createRevision
  }

  /** Every Range can be answered. */
  lemma RangeHasAnswer(live: Live, req: RangeRequest) returns (kvs: seq<KeyValue>)
    ensures IsAnswer(live, req, kvs)
  {
    var found := set k | k in live && Matches(live, req, k);
    if found == {} {
      kvs := [];
      forall k ensures !Matches(live, req, k) {
        assert k !in found;
      }
    } else {
      var k := FirstInOrder(live, found, req.order);
      kvs := [ToKeyValue(k, live[k])];
      forall other | Matches(live, req, other) ensures InOrder(live, req.order, k, other) {
        assert other in found;
      }
    }
  }

  predicate InOrder(live: Live, order: SortOrder, a: Bytes, b: Bytes)
    requires a in live && b in live
  {
    if order.Ascend? then live[a].createRevision <= live[b].createRevision
    else live[b].createRevision <= live[a].createRevision
  }

  lemma {:induction false} FirstInOrder(live: Live, keys: set<Bytes>, order: SortOrder) returns (k: Bytes)
    requires keys != {} && keys <= live.Keys
    ensures k in keys && forall other :: other in keys ==> InOrder(live, order, k, other)
  {
    var first :| first in keys;
    var rest := keys - {first};
    k := first;
    if rest != {} {
      var best := FirstInOrder(live, rest, order);
      k := if InOrder(live, order, first, best) then first else best;
    }
    forall other | other in keys ensures InOrder(live, order, k, other) {
      assert other == first || other in rest;
    }
  }

  // ---- Txn -------------------------------------------------------------------------------------------------------

  datatype FailureOp = FetchOnFailure | DeleteOnFailure | NothingOnFailure

  /** Put the key if its create revision is the expected one; an absent key has create revision zero. */
  datatype Txn = Txn(key: Bytes, expected: int, value: Bytes, lease: int, failure: FailureOp)

  datatype TxnResponse = TxnResponse(succeeded: bool, revision: nat, fetched: seq<KeyValue>)

  function CreateRevisionOf(live: Live, k: Bytes): nat {
    if k in live then live[k].createRevision else 0
  }

  function Commit(log: Log, txn: Txn): Log {
    if CreateRevisionOf(Now(log), txn.key) == txn.expected then log + [PutKey(txn.key, txn.value, txn.lease)]
    else if txn.failure.DeleteOnFailure? && txn.key in Now(log) then log + [DeleteKeys([txn.key])]
    else log
  }

  function CommitResponse(log: Log, txn: Txn): TxnResponse {
    var succeeded := CreateRevisionOf(Now(log), txn.key) == txn.expected;
    TxnResponse(succeeded, Revision(Commit(log, txn)),
      if !succeeded && txn.failure.FetchOnFailure? && txn.key in Now(log)
      then [ToKeyValue(txn.key, Now(log)[txn.key])] else [])
  }

  lemma CommitIsValid(log: Log, txn: Txn)
    requires ValidLog(log)
    ensures ValidLog(Commit(log, txn)) && log <= Commit(log, txn)
  {
    if Commit(log, txn) != log {
      ValidLogExtend(log, Commit(log, txn)[|log|]);
    }
  }

  lemma NowStep(log: Log, change: Change)
    ensures Now(log + [change]) == Apply(Now(log), change, Revision(log) + 1)
  {
    AtStep(log + [change], Revision(log) + 1);
    AtStable(log, log + [change], Revision(log));
  }

  // ---- Watch -----------------------------------------------------------------------------------------------------

  /** A DELETE event carries what the key held before. */
  datatype Event = Put(kv: KeyValue) | Delete(prevKv: KeyValue)

  function DeleteEvents(before: Live, ks: seq<Bytes>, key: Bytes, rangeEnd: Bytes): seq<Event>
    requires forall i :: 0 <= i < |ks| ==> ks[i] in before
  {
    if ks == [] then []
    else (if InRange(ks[0], key, rangeEnd) then [Delete(ToKeyValue(ks[0], before[ks[0]]))] else [])
         + DeleteEvents(before, ks[1..], key, rangeEnd)
  }

  /** The events of revision r on the watched keys. */
  ghost function EventsAt(log: Log, r: nat, key: Bytes, rangeEnd: Bytes): seq<Event>
    requires ValidLog(log) && 1 <= r <= Revision(log)
  {
    if r == 1 then []
    else
      assert ValidAt(log, r);
      match log[r - 2]
      case PutKey(k, _, _) =>
        AtStep(log, r);
        if InRange(k, key, rangeEnd) then [Put(ToKeyValue(k, At(log, r)[k]))] else []
      case DeleteKeys(ks) => DeleteEvents(At(log, r - 1), ks, key, rangeEnd)
  }

  function Flatten(parts: seq<seq<Event>>): seq<Event> {
    if parts == [] then [] else Flatten(parts[..|parts| - 1]) + parts[|parts| - 1]
  }

  ghost function EventLists(log: Log, start: nat, end: nat, key: Bytes, rangeEnd: Bytes): seq<seq<Event>>
    requires ValidLog(log) && 1 <= start <= end <= Revision(log) + 1
  {
    seq(end - start, i requires 0 <= i < end - start => EventsAt(log, start + i, key, rangeEnd))
  }

  /** What a watcher receives for the revisions from `start` up to, not including, `end`, in order. */
  ghost function Events(log: Log, start: nat, end: nat, key: Bytes, rangeEnd: Bytes): seq<Event>
    requires ValidLog(log) && 1 <= start <= end <= Revision(log) + 1
  {
    Flatten(EventLists(log, start, end, key, rangeEnd))
  }

  lemma EventsStep(log: Log, start: nat, end: nat, key: Bytes, rangeEnd: Bytes)
    requires ValidLog(log) && 1 <= start < end <= Revision(log) + 1
    ensures Events(log, start, end, key, rangeEnd)
            == Events(log, start, end - 1, key, rangeEnd) + EventsAt(log, end - 1, key, rangeEnd)
  {
    var parts := EventLists(log, start, end, key, rangeEnd);
    assert parts[..|parts| - 1] == EventLists(log, start, end - 1, key, rangeEnd);
  }

  lemma {:induction false} DeleteEventsAre(before: Live, ks: seq<Bytes>, key: Bytes, rangeEnd: Bytes, ev: Event)
    requires forall i :: 0 <= i < |ks| ==> ks[i] in before
    ensures ev in DeleteEvents(before, ks, key, rangeEnd) <==>
            && ev.Delete? && ev.prevKv.key in ks && InRange(ev.prevKv.key, key, rangeEnd)
            && ev.prevKv == ToKeyValue(ev.prevKv.key, before[ev.prevKv.key])
  {
    if ks != [] {
      DeleteEventsAre(before, ks[1..], key, rangeEnd, ev);
      assert ks == [ks[0]] + ks[1..];
    }
  }

  lemma {:induction false} FlattenOrigin(parts: seq<seq<Event>>, ev: Event) returns (i: nat)
    requires ev in Flatten(parts)
    ensures i < |parts| && ev in parts[i]
  {
    i := |parts| - 1;
    if ev !in parts[i] {
      i := FlattenOrigin(parts[..i], ev);
    }
  }

  lemma {:induction false} FlattenIncludes(parts: seq<seq<Event>>, i: nat, ev: Event)
    requires i < |parts| && ev in parts[i]
    ensures ev in Flatten(parts)
  {
    if i < |parts| - 1 {
      FlattenIncludes(parts[..|parts| - 1], i, ev);
    }
  }

  /** Every event was collected from one of the revisions. */
  lemma EventsOrigin(log: Log, start: nat, end: nat, key: Bytes, rangeEnd: Bytes, ev: Event) returns (r: nat)
    requires ValidLog(log) && 1 <= start <= end <= Revision(log) + 1
    requires ev in Events(log, start, end, key, rangeEnd)
    ensures start <= r < end && ev in EventsAt(log, r, key, rangeEnd)
  {
    var i := FlattenOrigin(EventLists(log, start, end, key, rangeEnd), ev);
    r := start + i;
  }

  /** No event of those revisions is left out. */
  lemma EventsInclude(log: Log, start: nat, end: nat, key: Bytes, rangeEnd: Bytes, r: nat, ev: Event)
    requires ValidLog(log) && 1 <= start <= r < end <= Revision(log) + 1
    requires ev in EventsAt(log, r, key, rangeEnd)
    ensures ev in Events(log, start, end, key, rangeEnd)
  {
    assert EventLists(log, start, end, key, rangeEnd)[r - start] == EventsAt(log, r, key, rangeEnd);
    FlattenIncludes(EventLists(log, start, end, key, rangeEnd), r - start, ev);
  }

  /** A DELETE event at revision r names a key that was live just before r and is not live at r. */
  lemma DeleteEventMeans(log: Log, r: nat, key: Bytes, rangeEnd: Bytes, kv: KeyValue)
    requires ValidLog(log) && 1 <= r <= Revision(log)
    ensures Delete(kv) in EventsAt(log, r, key, rangeEnd) <==>
            && r >= 2 && InRange(kv.key, key, rangeEnd)
            && kv.key in At(log, r - 1) && kv == ToKeyValue(kv.key, At(log, r - 1)[kv.key])
            && kv.key !in At(log, r)
  {
    if r >= 2 {
      AtStep(log, r);
      assert ValidAt(log, r);
      if log[r - 2].DeleteKeys? {
        DeleteEventsAre(At(log, r - 1), log[r - 2].keys, key, rangeEnd, Delete(kv));
      }
    }
  }
}
