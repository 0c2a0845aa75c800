/** The observer agrees with the store: once it has caught up, its participants are the nodes of the election. */
module ObserverRefinement {
  import opened ByteStrings
  import opened PrefixRange
  import opened Keys
  import opened Etcd
  import opened Observers

  /** Every entry is a live node of the election at revision r, under its create revision, with its current value. */
  ghost predicate Sound(log: Log, r: nat, name: Bytes, m: Participants)
    requires 1 <= r <= Revision(log)
  {
    forall c :: c in m ==>
      && m[c].key in At(log, r) && InElection(name, m[c].key)
      && m[c] == ToKeyValue(m[c].key, At(log, r)[m[c].key]) && m[c].createRevision == c
  }

  /** Every live node of the election that was created at revision `since` or later has its entry. */
  ghost predicate CompleteSince(log: Log, r: nat, name: Bytes, m: Participants, since: nat)
    requires 1 <= r <= Revision(log)
  {
    forall k :: k in At(log, r) && InElection(name, k) && At(log, r)[k].createRevision >= since ==>
      At(log, r)[k].createRevision in m
  }

  /** The participants are exactly the nodes of the election that are live at revision r. */
  ghost predicate IsIndex(log: Log, r: nat, name: Bytes, m: Participants)
    requires 1 <= r <= Revision(log)
  {
    Sound(log, r, name, m) && CompleteSince(log, r, name, m, 0)
  }

  /** Only one map is the index. */
  lemma IndexIsUnique(log: Log, r: nat, name: Bytes, m1: Participants, m2: Participants)
    requires 1 <= r <= Revision(log) && IsIndex(log, r, name, m1) && IsIndex(log, r, name, m2)
    ensures m1 == m2
  {
    forall c ensures c in m1 <==> c in m2 {
      if c in m1 {
        assert At(log, r)[m1[c].key].createRevision in m2;
      }
      if c in m2 {
        assert At(log, r)[m2[c].key].createRevision in m1;
      }
    }
    forall c | c in m1 ensures m1[c] == m2[c] {
      CreateRevisionsAreUnique(log, r, m1[c].key, r, m2[c].key);
    }
  }

  // ---- replaying events ------------------------------------------------------------------------------------------

  lemma {:induction false} HandleAppend(m: Participants, a: seq<Event>, b: seq<Event>)
    ensures
      var (m1, changed1) := HandleAll(m, a);
      var (m2, changed2) := HandleAll(m1, b);
      HandleAll(m, a + b) == (m2, changed1 || changed2)
  {
    if b == [] {
      assert a + b == a;
    } else {
      var init := b[..|b| - 1];
      HandleAppend(m, a, init);
      assert (a + b)[..|a + b| - 1] == a + init;
    }
  }

  lemma HandleOne(m: Participants, ev: Event)
    ensures HandleAll(m, [ev]) == HandleEvent(m, ev)
  {
    assert [ev][..0] == [];
    assert HandleAll(m, []) == (m, false);
  }

  ghost function ElectionEvents(log: Log, r: nat, name: Bytes): seq<Event>
    requires ValidLog(log) && 1 <= r <= Revision(log)
  {
    EventsAt(log, r, ElectionPrefix(name), EndOf(ElectionPrefix(name)))
  }

  /** The create revisions of the nodes a deletion takes out of the election. */
  function Removed(before: Live, ks: seq<Bytes>, name: Bytes): set<nat>
    requires forall i :: 0 <= i < |ks| ==> ks[i] in before
  {
    set i | 0 <= i < |ks| && InElection(name, ks[i]) :: before[ks[i]].createRevision
  }

  lemma HandleDeletes(m: Participants, before: Live, ks: seq<Bytes>, name: Bytes)
    requires forall i :: 0 <= i < |ks| ==> ks[i] in before
    ensures HandleAll(m, DeleteEvents(before, ks, ElectionPrefix(name), EndOf(ElectionPrefix(name)))).0
            == m - Removed(before, ks, name)
  {
    var prefix, end := ElectionPrefix(name), EndOf(ElectionPrefix(name));
    forall k ensures InRange(k, prefix, end) <==> InElection(name, k) {
      ElectionRangeIsExact(name, k);
    }
    HandleDeletesIn(m, before, ks, name, prefix, end);
  }

  lemma {:induction false} HandleDeletesIn(
    m: Participants, before: Live, ks: seq<Bytes>, name: Bytes, prefix: Bytes, end: Bytes)
    requires forall i :: 0 <= i < |ks| ==> ks[i] in before && (InRange(ks[i], prefix, end) <==> InElection(name, ks[i]))
    ensures HandleAll(m, DeleteEvents(before, ks, prefix, end)).0 == m - Removed(before, ks, name)
  {
    if ks != [] {
      var gone := before[ks[0]].createRevision;
      HandleDeletesIn(if InElection(name, ks[0]) then m - {gone} else m, before, ks[1..], name, prefix, end);
      HandleFirstDelete(m, before, ks, prefix, end);
      RemovedSplits(before, ks, name);
      assert (m - {gone}) - Removed(before, ks[1..], name) == m - ({gone} + Removed(before, ks[1..], name));
      assert {} + Removed(before, ks[1..], name) == Removed(before, ks[1..], name);
    } else {
      assert Removed(before, ks, name) == {};
    }
  }

  lemma HandleFirstDelete(m: Participants, before: Live, ks: seq<Bytes>, prefix: Bytes, end: Bytes)
    requires ks != [] && forall i :: 0 <= i < |ks| ==> ks[i] in before
    ensures HandleAll(m, DeleteEvents(before, ks, prefix, end)).0 ==
              HandleAll(if InRange(ks[0], prefix, end) then m - {before[ks[0]].createRevision} else m,
                        DeleteEvents(before, ks[1..], prefix, end)).0
  {
    var rest := DeleteEvents(before, ks[1..], prefix, end);
    if InRange(ks[0], prefix, end) {
      var ev := Delete(ToKeyValue(ks[0], before[ks[0]]));
      HandleOne(m, ev);
      HandleAppend(m, [ev], rest);
      assert HandleEvent(m, ev).0 == m - {before[ks[0]].createRevision};
    } else {
      assert [] + rest == rest;
    }
  }

  lemma RemovedSplits(before: Live, ks: seq<Bytes>, name: Bytes)
    requires ks != [] && forall i :: 0 <= i < |ks| ==> ks[i] in before
    ensures Removed(before, ks, name) ==
            (if InElection(name, ks[0]) then {before[ks[0]].createRevision} else {}) + Removed(before, ks[1..], name)
  {
    forall c | c in Removed(before, ks, name)
      ensures c in (if InElection(name, ks[0]) then {before[ks[0]].createRevision} else {})
                   + Removed(before, ks[1..], name)
    {
      var i :| 0 <= i < |ks| && InElection(name, ks[i]) && before[ks[i]].createRevision == c;
      if i > 0 {
        assert ks[1..][i - 1] == ks[i];
      }
    }
    forall c | c in Removed(before, ks[1..], name) ensures c in Removed(before, ks, name) {
      var i :| 0 <= i < |ks[1..]| && InElection(name, ks[1..][i]) && before[ks[1..][i]].createRevision == c;
      assert ks[1..][i] == ks[i + 1];
    }
  }

  /** The events of one revision carry sound and complete participants over to that revision. */
  lemma RevisionKeepsIndex(log: Log, r: nat, name: Bytes, m: Participants, since: nat)
    requires ValidLog(log) && 2 <= r <= Revision(log)
    requires Sound(log, r - 1, name, m) && CompleteSince(log, r - 1, name, m, since)
    ensures
      var m' := HandleAll(m, ElectionEvents(log, r, name)).0;
      Sound(log, r, name, m') && CompleteSince(log, r, name, m', since)
  {
    AtStep(log, r);
    assert ValidAt(log, r);
    match log[r - 2] {
      case PutKey(k, _, _) =>
        ElectionRangeIsExact(name, k);
        if InElection(name, k) {
          HandleOne(m, Put(ToKeyValue(k, At(log, r)[k])));
          PutKeepsIndex(log, r, name, m, since, k);
        }
      case DeleteKeys(ks) =>
        HandleDeletes(m, At(log, r - 1), ks, name);
        DeleteKeepsIndex(log, r, name, m, since, ks);
    }
  }

  lemma PutKeepsIndex(log: Log, r: nat, name: Bytes, m: Participants, since: nat, k: Bytes)
    requires ValidLog(log) && 2 <= r <= Revision(log) && log[r - 2].PutKey? && log[r - 2].key == k
    requires At(log, r) == Apply(At(log, r - 1), log[r - 2], r) && InElection(name, k)
    requires Sound(log, r - 1, name, m) && CompleteSince(log, r - 1, name, m, since)
    ensures
      var c := At(log, r)[k].createRevision;
      var m' := m[c := ToKeyValue(k, At(log, r)[k])];
      Sound(log, r, name, m') && CompleteSince(log, r, name, m', since)
  {
    var c := At(log, r)[k].createRevision;
    forall d | d in m && d != c ensures m[d].key != k && At(log, r)[m[d].key] == At(log, r - 1)[m[d].key] {
    }
    var m' := m[c := ToKeyValue(k, At(log, r)[k])];
    assert c in m' && m'[c] == ToKeyValue(k, At(log, r)[k]);
  }

  lemma DeleteKeepsIndex(log: Log, r: nat, name: Bytes, m: Participants, since: nat, ks: seq<Bytes>)
    requires ValidLog(log) && 2 <= r <= Revision(log) && log[r - 2] == DeleteKeys(ks)
    requires forall i :: 0 <= i < |ks| ==> ks[i] in At(log, r - 1)
    requires At(log, r) == Apply(At(log, r - 1), log[r - 2], r)
    requires Sound(log, r - 1, name, m) && CompleteSince(log, r - 1, name, m, since)
    ensures
      var m' := m - Removed(At(log, r - 1), ks, name);
      Sound(log, r, name, m') && CompleteSince(log, r, name, m', since)
  {
    var before := At(log, r - 1);
    var gone := Removed(before, ks, name);
    forall c | c in m && c !in gone ensures m[c].key !in ks {
      assert forall i :: 0 <= i < |ks| && InElection(name, ks[i]) ==> before[ks[i]].createRevision in gone;
    }
    forall k | k in At(log, r) && InElection(name, k) && At(log, r)[k].createRevision >= since
      ensures At(log, r)[k].createRevision in m - gone
    {
      assert k in before && k !in ks;
      if before[k].createRevision in gone {
        var i :| 0 <= i < |ks| && InElection(name, ks[i]) && before[ks[i]].createRevision == before[k].createRevision;
        CreateRevisionsAreUnique(log, r - 1, k, r - 1, ks[i]);
      }
    }
  }

  // ---- the whole replay ------------------------------------------------------------------------------------------

  /** Where the watch starts: at the create revision of the first node, or at the answer's revision if there is no
      node. */
  function Start(response: RangeResponse): nat {
    if response.kvs == [] then response.revision else response.kvs[0].createRevision
  }

  /** The participants after the answer: the first node with the value it had at the answer's revision, which lies in
      the future of the replay. */
  function Initial(response: RangeResponse): Participants {
    if response.kvs == [] then map[] else map[response.kvs[0].createRevision := response.kvs[0]]
  }

  ghost predicate Answered(log: Log, name: Bytes, response: RangeResponse) {
    && 1 <= response.revision <= Revision(log)
    && IsAnswer(At(log, response.revision), LowestQuery(name), response.kvs)
  }

  ghost function Replay(log: Log, name: Bytes, response: RangeResponse, r: nat): Participants
    requires ValidLog(log) && 1 <= Start(response) <= r + 1 <= Revision(log) + 1
  {
    var prefix := ElectionPrefix(name);
    HandleAll(Initial(response), Events(log, Start(response), r + 1, prefix, EndOf(prefix))).0
  }

  lemma AnswerIsFirst(log: Log, name: Bytes, response: RangeResponse)
    requires ValidLog(log) && Answered(log, name, response)
    ensures 1 <= Start(response) <= response.revision
    ensures forall k :: k in At(log, response.revision) && InElection(name, k) ==>
              response.kvs != [] && At(log, response.revision)[k].createRevision >= Start(response)
    ensures response.kvs != [] ==>
              && response.kvs[0].key in At(log, response.revision) && InElection(name, response.kvs[0].key)
              && response.kvs[0] == ToKeyValue(response.kvs[0].key, At(log, response.revision)[response.kvs[0].key])
              && Start(response) >= 2
              && log[Start(response) - 2].PutKey? && log[Start(response) - 2].key == response.kvs[0].key
  {
    var live := At(log, response.revision);
    forall k | k in live ensures Matches(live, LowestQuery(name), k) <==> InElection(name, k) {
      ElectionRangeIsExact(name, k);
    }
    if response.kvs != [] {
      assert response.kvs[0].key in live;
      CreatedBy(log, response.revision, response.kvs[0].key);
    }
    forall k | k in live && InElection(name, k)
      ensures response.kvs != [] && live[k].createRevision >= Start(response)
    {
      assert Matches(live, LowestQuery(name), k);
    }
  }

  /** The first revision of the replay puts things right: the future value is replaced by the original one. */
  lemma FirstRevision(log: Log, name: Bytes, response: RangeResponse)
    requires ValidLog(log) && Answered(log, name, response)
    ensures
      var s := Start(response);
      && 1 <= s <= response.revision
      && Sound(log, s, name, Replay(log, name, response, s))
      && CompleteSince(log, s, name, Replay(log, name, response, s), s)
  {
    AnswerIsFirst(log, name, response);
    var s, prefix := Start(response), ElectionPrefix(name);
    var end := EndOf(prefix);
    assert Events(log, s, s, prefix, end) == [];
    EventsStep(log, s, s + 1, prefix, end);
    assert Events(log, s, s + 1, prefix, end) == [] + EventsAt(log, s, prefix, end) == EventsAt(log, s, prefix, end);
    if response.kvs == [] {
      FirstRevisionEmpty(log, name, response);
    } else {
      FirstRevisionNode(log, name, response, response.kvs[0].key);
    }
  }

  lemma FirstRevisionEmpty(log: Log, name: Bytes, response: RangeResponse)
    requires ValidLog(log) && Answered(log, name, response) && response.kvs == []
    ensures
      var s := response.revision;
      var m := HandleAll(map[], ElectionEvents(log, s, name)).0;
      Sound(log, s, name, m) && CompleteSince(log, s, name, m, s)
  {
    AnswerIsFirst(log, name, response);
    var s := response.revision;
    if s >= 2 {
      AtStep(log, s);
      assert ValidAt(log, s);
      match log[s - 2] {
        case PutKey(k, _, _) => ElectionRangeIsExact(name, k);
        case DeleteKeys(ks) => HandleDeletes(map[], At(log, s - 1), ks, name);
      }
    }
    assert HandleAll(map[], ElectionEvents(log, s, name)).0 == map[];
  }

  lemma FirstRevisionNode(log: Log, name: Bytes, response: RangeResponse, key: Bytes)
    requires ValidLog(log) && Answered(log, name, response) && response.kvs != [] && response.kvs[0].key == key
    ensures
      var s := Start(response);
      1 <= s <= response.revision
      && var m := HandleAll(Initial(response), ElectionEvents(log, s, name)).0;
         Sound(log, s, name, m) && CompleteSince(log, s, name, m, s)
  {
    AnswerIsFirst(log, name, response);
    var s := Start(response);
    LiveSinceCreation(log, s, response.revision, key);
    ElectionRangeIsExact(name, key);
    AtStep(log, s);
    var kv := ToKeyValue(key, At(log, s)[key]);
    HandleOne(Initial(response), Put(kv));
    var m := HandleAll(Initial(response), ElectionEvents(log, s, name)).0;
    assert m == map[s := kv];
    forall k | k in At(log, s) && InElection(name, k) && At(log, s)[k].createRevision >= s ensures k == key {
      CreatedBy(log, s, k);
    }
  }

  /** Up to revision r the replay has only live nodes, and all that were created since it started. */
  ghost predicate FollowsTo(log: Log, name: Bytes, response: RangeResponse, r: nat)
    requires ValidLog(log) && 1 <= Start(response) <= r <= Revision(log)
  {
    var m := Replay(log, name, response, r);
    Sound(log, r, name, m) && CompleteSince(log, r, name, m, Start(response))
  }

  lemma {:induction false} ReplayIsSound(log: Log, name: Bytes, response: RangeResponse, r: nat)
    requires ValidLog(log) && Answered(log, name, response) && 1 <= Start(response) <= r <= Revision(log)
    ensures FollowsTo(log, name, response, r)
    decreases r
  {
    if r == Start(response) {
      FirstRevision(log, name, response);
    } else {
      ReplayIsSound(log, name, response, r - 1);
      ReplayCarries(log, name, response, r);
    }
  }

  lemma ReplayCarries(log: Log, name: Bytes, response: RangeResponse, r: nat)
    requires ValidLog(log) && 1 <= Start(response) < r <= Revision(log)
    requires FollowsTo(log, name, response, r - 1)
    ensures FollowsTo(log, name, response, r)
  {
    RevisionKeepsIndex(log, r, name, Replay(log, name, response, r - 1), Start(response));
    ReplayStep(log, name, response, r);
  }

  lemma ReplayStep(log: Log, name: Bytes, response: RangeResponse, r: nat)
    requires ValidLog(log) && 1 <= Start(response) < r <= Revision(log)
    ensures Replay(log, name, response, r) ==
            HandleAll(Replay(log, name, response, r - 1), ElectionEvents(log, r, name)).0
  {
    var prefix := ElectionPrefix(name);
    var before := Events(log, Start(response), r, prefix, EndOf(prefix));
    HandleAppend(Initial(response), before, ElectionEvents(log, r, name));
    EventsStep(log, Start(response), r + 1, prefix, EndOf(prefix));
  }

  /** Refinement: from the answer's revision on, the replay holds exactly the live nodes, although it started in the
      past and nodes that are gone by now may have come and gone in between. */
  lemma ReplayIsIndex(log: Log, name: Bytes, response: RangeResponse, r: nat)
    requires ValidLog(log) && Answered(log, name, response) && response.revision <= r <= Revision(log)
    ensures 1 <= Start(response) <= r
    ensures IsIndex(log, r, name, Replay(log, name, response, r))
  {
    AnswerIsFirst(log, name, response);
    ReplayIsSound(log, name, response, r);
    forall k | k in At(log, r) && InElection(name, k)
      ensures At(log, r)[k].createRevision >= Start(response)
    {
      if At(log, r)[k].createRevision <= response.revision {
        LiveSinceCreation(log, response.revision, r, k);
      }
    }
  }
}
