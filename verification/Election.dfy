/** Any number of candidates, in any elections, on one etcd server that other clients and expiring leases change at
    will: what holds over every run. */
module Elections {
  import opened Runs
  import opened ByteStrings
  import opened Keys
  import opened Etcd
  import opened Candidates
  import opened Campaign
  import opened CampaignInvariants
  import opened CampaignReads

  datatype System = System(log: Log, clients: seq<Client>)

  datatype Move =
    | OthersChange(change: Change)                              // includes leases that expire or are revoked
    | Joins(name: Bytes, leaseId: LeaseId, value: Bytes)
    | Acts(who: nat, action: Action)

  ghost predicate Possible(s: System, m: Move) {
    match m
    case OthersChange(change) => ValidChange(Now(s.log), change)
    case Joins(_, _, _) => true
    case Acts(who, a) => who < |s.clients| && ValidLog(s.log) && Enabled(s.log, s.clients[who], a)
  }

  ghost function After(s: System, m: Move): System
    requires Possible(s, m)
  {
    match m
    case OthersChange(change) => s.(log := s.log + [change])
    case Joins(name, leaseId, value) => s.(clients := s.clients + [NewClient(name, leaseId, value)])
    case Acts(who, a) =>
      var (log, c) := Step(s.log, s.clients[who], a);
      System(log, s.clients[who := c])
  }

  ghost predicate IsRun(states: seq<System>, moves: seq<Move>) {
    && |states| == |moves| + 1
    && states[0] == System([], [])
    && forall i :: 0 <= i < |moves| ==> Possible(states[i], moves[i]) && states[i + 1] == After(states[i], moves[i])
  }

  ghost predicate SystemInv(s: System) {
    ValidLog(s.log) && forall j :: 0 <= j < |s.clients| ==> Inv(s.log, s.clients[j])
  }

  /** The store's history only grows, and every candidate goes on with the campaign it has. */
  ghost predicate Continues(s: System, t: System) {
    && s.log <= t.log && |s.clients| <= |t.clients|
    && forall j :: 0 <= j < |s.clients| ==> SameCampaign(s.clients[j], t.clients[j])
  }

  lemma LogKeepsInv(s: System, m: Move)
    requires SystemInv(s) && Possible(s, m)
    ensures ValidLog(After(s, m).log) && s.log <= After(s, m).log
    ensures m.Acts? ==> Inv(After(s, m).log, After(s, m).clients[m.who])
    ensures m.Acts? ==> SameCampaign(s.clients[m.who], After(s, m).clients[m.who])
  {
    match m {
      case OthersChange(change) => ValidLogExtend(s.log, change);
      case Joins(_, _, _) =>
      case Acts(who, a) =>
        StepKeepsInv(s.log, s.clients[who], a);
        StepKeepsIdentity(s.log, s.clients[who], a);
    }
  }

  lemma MoveKeepsInv(s: System, m: Move)
    requires SystemInv(s) && Possible(s, m)
    ensures SystemInv(After(s, m)) && Continues(s, After(s, m))
  {
    var t := After(s, m);
    LogKeepsInv(s, m);
    if m.Joins? {
      NewClientInv(s.log, m.name, m.leaseId, m.value);
    }
    forall j | 0 <= j < |s.clients| ensures Inv(t.log, t.clients[j]) && SameCampaign(s.clients[j], t.clients[j]) {
      if !(m.Acts? && m.who == j) {
        InvStable(s.log, t.log, s.clients[j]);
      }
    }
  }

  lemma {:induction false} RunKeepsInv(states: seq<System>, moves: seq<Move>, k: nat)
    requires IsRun(states, moves) && k < |states|
    ensures SystemInv(states[k])
  {
    if k > 0 {
      RunKeepsInv(states, moves, k - 1);
      MoveKeepsInv(states[k - 1], moves[k - 1]);
    }
  }

  lemma {:induction false} ContinuesThrough(states: seq<System>, i: nat, k: nat)
    requires i <= k < |states| && forall j :: i <= j < k ==> Continues(states[j], states[j + 1])
    ensures Continues(states[i], states[k])
    decreases k
  {
    if i < k {
      ContinuesThrough(states, i, k - 1);
      var s, t, u := states[i], states[k - 1], states[k];
      assert Continues(states[k - 1], states[k - 1 + 1]);
      forall j | 0 <= j < |s.clients| ensures SameCampaign(s.clients[j], u.clients[j]) {
        assert SameCampaign(s.clients[j], t.clients[j]) && SameCampaign(t.clients[j], u.clients[j]);
      }
    }
  }

  lemma RunContinues(states: seq<System>, moves: seq<Move>, i: nat, k: nat)
    requires IsRun(states, moves) && i <= k < |states|
    ensures Continues(states[i], states[k])
  {
    forall j | i <= j < k ensures Continues(states[j], states[j + 1]) {
      RunKeepsInv(states, moves, j);
      MoveKeepsInv(states[j], moves[j]);
    }
    ContinuesThrough(states, i, k);
  }

  // ---- mutual exclusion ------------------------------------------------------------------------------------------

  /** Once a candidate is elected, or its campaign's future says so, no live node of its election comes before its own,
      then and ever after. */
  lemma ElectedLeadsForever(states: seq<System>, moves: seq<Move>, i: nat, k: nat, who: nat)
    requires IsRun(states, moves) && i <= k < |states| && who < |states[i].clients|
    requires ThinksElected(states[i].clients[who].cs)
    ensures
      var cs := states[i].clients[who].cs;
      && who < |states[k].clients| && states[k].clients[who].cs.Rank() == cs.Rank()
      && forall key :: key in Now(states[k].log) && InElection(cs.name, key) ==>
           Now(states[k].log)[key].createRevision >= cs.creationRevision
  {
    RunKeepsInv(states, moves, i);
    RunContinues(states, moves, i, k);
    var c, log, longer := states[i].clients[who], states[i].log, states[k].log;
    var won := c.history.electedAt.value;
    AtStable(log, longer, won);
    PredecessorsShrink(longer, won, Revision(longer), c.cs.Rank());
    forall key | key in Now(longer) && InElection(c.cs.name, key)
      ensures Now(longer)[key].createRevision >= c.cs.creationRevision
    {
      assert key !in Predecessors(Now(longer), c.cs.Rank());
    }
  }

  /** Two candidates of one election that were elected, whenever that was, never both have a live node unless it is
      the same node. */
  lemma OneLeader(states: seq<System>, moves: seq<Move>, i: nat, j: nat, k: nat, a: nat, b: nat)
    requires IsRun(states, moves) && i <= k < |states| && j <= k
    requires a < |states[i].clients| && ThinksElected(states[i].clients[a].cs)
    requires b < |states[j].clients| && ThinksElected(states[j].clients[b].cs)
    requires states[i].clients[a].cs.name == states[j].clients[b].cs.name
    requires OwnsNode(states[i].clients[a].cs, Now(states[k].log))
    requires OwnsNode(states[j].clients[b].cs, Now(states[k].log))
    ensures states[i].clients[a].cs.Key() == states[j].clients[b].cs.Key()
    ensures states[i].clients[a].cs.creationRevision == states[j].clients[b].cs.creationRevision
  {
    ElectedLeadsForever(states, moves, i, k, a);
    ElectedLeadsForever(states, moves, j, k, b);
    var ca, cb, log := states[i].clients[a].cs, states[j].clients[b].cs, states[k].log;
    OwnKeyInElection(ca);
    OwnKeyInElection(cb);
    CreateRevisionsAreUnique(log, Revision(log), ca.Key(), Revision(log), cb.Key());
  }

  lemma OwnKeyInElection(cs: Candidate)
    ensures InElection(cs.name, cs.Key())
  {
  }

  // ---- no missed deletion ----------------------------------------------------------------------------------------

  function LastWatch(c: Client): Watch
    requires c.watches != []
  {
    c.watches[|c.watches| - 1]
  }

  /** A revision at which the watch will report the deletion of the node (k, created at c). */
  ghost predicate DueAt(log: Log, w: Watch, k: Bytes, c: nat, r: nat) {
    && ValidLog(log) && w.next <= r && 1 <= r <= Revision(log)
    && exists kv :: Delete(kv) in EventsAt(log, r, w.key, []) && kv.key == k && kv.createRevision == c
  }

  lemma {:induction false} DeletionIsDue(log: Log, w: Watch, k: Bytes, s: Sighting, upTo: nat) returns (r: nat)
    requires ValidLog(log) && Tracks(log, w, k, s)
    requires 1 <= s.revision <= upTo <= Revision(log) && 1 <= w.next <= upTo + 1
    requires k !in At(log, upTo) || At(log, upTo)[k].createRevision != s.createRevision
    ensures DueAt(log, w, k, s.createRevision, r) && r <= upTo
    decreases upTo
  {
    var start := if w.next <= s.revision then s.revision else w.next - 1;
    assert start < upTo;
    AtStep(log, upTo);
    if k in At(log, upTo - 1) && At(log, upTo - 1)[k].createRevision == s.createRevision {
      r := upTo;
      var kv := ToKeyValue(k, At(log, upTo - 1)[k]);
      DeleteEventMeans(log, r, k, [], kv);
    } else {
      r := DeletionIsDue(log, w, k, s, upTo - 1);
    }
  }

  /** In a run without faults a candidate that is not elected has exactly one operation in flight. If it waits for a
      predecessor and that node is gone, a watch of its own has yet to deliver the deletion, unless the Write that
      creates the watch is still on its way; and that watch will start early enough to see it. */
  lemma NoMissedDeletion(states: seq<System>, moves: seq<Move>, k: nat, who: nat)
    requires IsRun(states, moves) && k < |states| && who < |states[k].clients|
    requires states[k].clients[who].phase.Campaigning? && states[k].clients[who].history.clean
    requires !states[k].clients[who].cs.elected
    ensures
      var c, log := states[k].clients[who], states[k].log;
      && |c.outstanding| == 1
      && (c.cs.watchedKeys != {} <==> Waiting(c.outstanding[0]))
      && forall key :: key in c.cs.watchedKeys ==>
           && c.cs.watchedKeys == {key} && key in c.history.sightings
           && var created := c.history.sightings[key].createRevision;
              (key !in Now(log) || Now(log)[key].createRevision != created ==>
                 if c.outstanding[0].WritePending? then
                   c.outstanding[0].key == key
                   && exists r :: DueAt(log, Watch(key, c.outstanding[0].startRevision, true), key, created, r)
                 else
                   c.watches != [] && exists r :: DueAt(log, LastWatch(c), key, created, r))
  {
    RunKeepsInv(states, moves, k);
    var c, log := states[k].clients[who], states[k].log;
    assert c.outstanding[0] in c.outstanding;
    forall key | key in c.cs.watchedKeys
      ensures c.cs.watchedKeys == {key} && WaitsFor(log, c, key)
      ensures
        var s := c.history.sightings[key];
        key !in Now(log) || Now(log)[key].createRevision != s.createRevision ==>
          if c.outstanding[0].WritePending?
          then exists r :: DueAt(log, Watch(key, c.outstanding[0].startRevision, true), key, s.createRevision, r)
          else c.watches != [] && exists r :: DueAt(log, LastWatch(c), key, s.createRevision, r)
    {
      WaitingMeansDue(log, c, key);
    }
  }

  lemma WaitingMeansDue(log: Log, c: Client, key: Bytes)
    requires ValidLog(log) && Inv(log, c) && c.phase.Campaigning? && c.history.clean && !c.cs.elected
    requires key in c.cs.watchedKeys
    ensures c.cs.watchedKeys == {key} && WaitsFor(log, c, key)
    ensures
      var s := c.history.sightings[key];
      key !in Now(log) || Now(log)[key].createRevision != s.createRevision ==>
        if c.outstanding[0].WritePending?
        then exists r :: DueAt(log, Watch(key, c.outstanding[0].startRevision, true), key, s.createRevision, r)
        else c.watches != [] && exists r :: DueAt(log, LastWatch(c), key, s.createRevision, r)
  {
    var s := c.history.sightings[key];
    assert Sees(log, c.cs.Rank(), key, s);
    assert c.outstanding[0] in c.outstanding;
    if key !in Now(log) || Now(log)[key].createRevision != s.createRevision {
      if c.outstanding[0].WritePending? {
        var r := DeletionIsDue(log, Watch(key, c.outstanding[0].startRevision, true), key, s, Revision(log));
      } else {
        var w := LastWatch(c);
        assert w in c.watches;
        var r := DeletionIsDue(log, w, key, s, Revision(log));
      }
    }
  }

  /** And when that watch is delivered in full, the candidate asks again who precedes it. */
  lemma FullDeliveryRequeries(log: Log, c: Client, key: Bytes, d: Delivery)
    requires ValidLog(log) && Inv(log, c) && c.phase.Campaigning? && c.history.clean && !c.cs.elected
    requires key in c.cs.watchedKeys && c.outstanding[0].ReadPending?
    requires key !in Now(log) || Now(log)[key].createRevision != c.history.sightings[key].createRevision
    requires d.watch + 1 == |c.watches| && d.upTo == Revision(log) + 1 && d.prevKv && !d.Cancels()
    requires Enabled(log, c, ReadDone(0, d))
    ensures
      var e := StepRead(log, c, 0, d);
      e.cs.watchedKeys == {} && e.outstanding == [RangePending(PredecessorQuery(c.cs), None)]
  {
    WaitingMeansDue(log, c, key);
    var r :| DueAt(log, LastWatch(c), key, c.history.sightings[key].createRevision, r);
    DueIsDelivered(log, c, d, key, c.history.sightings[key].createRevision, r);
    ReadPosts(log, c, 0, d);
  }

  lemma DueIsDelivered(log: Log, c: Client, d: Delivery, key: Bytes, created: nat, r: nat)
    requires ValidLog(log) && d.watch + 1 == |c.watches| && d.upTo == Revision(log) + 1 && d.prevKv
    requires 1 <= c.watches[d.watch].next <= d.upTo && DueAt(log, LastWatch(c), key, created, r)
    ensures key in DeletedKeys(Deliver(log, c, d).events)
  {
    var w := LastWatch(c);
    var kv :| Delete(kv) in EventsAt(log, r, w.key, []) && kv.key == key && kv.createRevision == created;
    EventsInclude(log, w.next, d.upTo, w.key, [], r, Delete(kv));
    assert Delete(kv) in Deliver(log, c, d).events && Delete(kv).prevKv.key == key;
  }

  // ---- no thundering herd ----------------------------------------------------------------------------------------

  /** Two candidates of one election whose nodes are both live never watch the same node. */
  lemma NoThunderingHerd(states: seq<System>, moves: seq<Move>, k: nat, a: nat, b: nat, key: Bytes)
    requires IsRun(states, moves) && k < |states| && a < |states[k].clients| && b < |states[k].clients|
    requires states[k].clients[a].cs.name == states[k].clients[b].cs.name
    requires states[k].clients[a].cs.creationRevision < states[k].clients[b].cs.creationRevision
    requires OwnsNode(states[k].clients[a].cs, Now(states[k].log))
    requires key in states[k].clients[a].cs.watchedKeys && key in states[k].clients[b].cs.watchedKeys
    ensures
      var ca, cb := states[k].clients[a], states[k].clients[b];
      && key in ca.history.sightings && key in cb.history.sightings
      && ca.history.sightings[key].createRevision < cb.history.sightings[key].createRevision
  {
    RunKeepsInv(states, moves, k);
    var ca, cb, log := states[k].clients[a], states[k].clients[b], states[k].log;
    var sa, sb := ca.history.sightings[key], cb.history.sightings[key];
    assert Sees(log, ca.cs.Rank(), key, sa) && Sees(log, cb.cs.Rank(), key, sb);
    OwnKeyInElection(ca.cs);
    LiveSinceCreation(log, sb.revision, Revision(log), ca.cs.Key());
    assert ca.cs.Key() in Predecessors(At(log, sb.revision), cb.cs.Rank());
  }

  /** The move makes the candidate ask again because the watched node (key, created at v) was reported deleted. */
  predicate AsksAgainOver(s: System, m: Move, t: System, who: nat, key: Bytes, v: nat) {
    && m.Acts? && m.who == who && m.action.ReadDone? && who < |s.clients| && who < |t.clients|
    && var c, d := s.clients[who], t.clients[who];
       && key in c.cs.watchedKeys && key !in d.cs.watchedKeys
       && key in c.history.sightings && c.history.sightings[key].createRevision == v
       && d.history.queries > c.history.queries
  }

  /** Deleting a node makes at most one live candidate ask again: of all the candidates of an election whose nodes are
      live when the node is deleted at revision r, only one node's candidate ever asks again over it. */
  lemma OneAsksAgain(
    states: seq<System>, moves: seq<Move>, i: nat, j: nat, a: nat, b: nat, key: Bytes, v: nat, log: Log, r: nat)
    requires IsRun(states, moves) && i < |moves| && j < |moves| && states[i].log <= log && states[j].log <= log
    requires AsksAgainOver(states[i], moves[i], states[i + 1], a, key, v)
    requires AsksAgainOver(states[j], moves[j], states[j + 1], b, key, v)
    requires states[i].clients[a].cs.name == states[j].clients[b].cs.name
    requires 2 <= r <= Revision(log) && HoldsNode(log, r - 1, key, v) && key !in At(log, r)
    requires OwnsNode(states[i].clients[a].cs, At(log, r - 1)) && OwnsNode(states[j].clients[b].cs, At(log, r - 1))
    ensures states[i].clients[a].cs.Rank() == states[j].clients[b].cs.Rank()
  {
    RunKeepsInv(states, moves, i);
    RunKeepsInv(states, moves, j);
    var ca, cb := states[i].clients[a], states[j].clients[b];
    SeesStable(states[i].log, log, ca.cs.Rank(), key, ca.history.sightings[key]);
    SeesStable(states[j].log, log, cb.cs.Rank(), key, cb.history.sightings[key]);
    if ca.cs.creationRevision < cb.cs.creationRevision {
      OnlyNextWatches(log, ca.cs, cb.cs, key, cb.history.sightings[key], r);
    }
    if cb.cs.creationRevision < ca.cs.creationRevision {
      OnlyNextWatches(log, cb.cs, ca.cs, key, ca.history.sightings[key], r);
    }
  }

  lemma SeesStable(log: Log, longer: Log, place: Place, key: Bytes, s: Sighting)
    requires Sees(log, place, key, s) && log <= longer
    ensures Sees(longer, place, key, s)
  {
    AtStable(log, longer, s.revision);
  }

  /** A candidate sees the last node before its own. If another candidate's node between the two is live when the node
      seen is deleted, it was live at the sighting. */
  lemma OnlyNextWatches(log: Log, earlier: Candidate, later: Candidate, key: Bytes, s: Sighting, r: nat)
    requires earlier.name == later.name && earlier.creationRevision < later.creationRevision
    requires Sees(log, later.Rank(), key, s) && 2 <= r <= Revision(log)
    requires HoldsNode(log, r - 1, key, s.createRevision) && key !in At(log, r)
    requires OwnsNode(earlier, At(log, r - 1))
    ensures earlier.creationRevision <= s.createRevision
  {
    if r <= s.revision {
      CreatedBy(log, r - 1, key);
      LiveSinceCreation(log, r, s.revision, key);
    }
    OwnKeyInElection(earlier);
    LiveSinceCreation(log, s.revision, r - 1, earlier.Key());
    assert earlier.Key() in Predecessors(At(log, s.revision), later.Rank());
  }

  // ---- the number of queries -------------------------------------------------------------------------------------

  /** A campaign asks for its predecessor at most once, plus once for each node that preceded it when it was created,
      plus once for each watch that was cancelled. */
  lemma QueriesAreBounded(states: seq<System>, moves: seq<Move>, k: nat, who: nat)
    requires IsRun(states, moves) && k < |states| && who < |states[k].clients|
    ensures
      var h := states[k].clients[who].history;
      h.queries <= 1 + h.predecessorsAtCreation + h.cancels
  {
    RunKeepsInv(states, moves, k);
  }

  /** Whenever a watched key is reported deleted, fewer nodes precede the candidate than at the query that found the
      key. */
  lemma RequeryFindsFewer(states: seq<System>, moves: seq<Move>, k: nat, who: nat, i: nat, d: Delivery, key: Bytes)
    requires IsRun(states, moves) && k < |moves| && moves[k] == Acts(who, ReadDone(i, d))
    requires key in states[k].clients[who].cs.watchedKeys && key !in states[k + 1].clients[who].cs.watchedKeys
    ensures
      var c, log := states[k].clients[who], states[k].log;
      && key in c.history.sightings
      && 1 <= c.history.sightings[key].revision <= Revision(log)
      && |Predecessors(Now(log), c.cs.Rank())|
         < |Predecessors(At(log, c.history.sightings[key].revision), c.cs.Rank())|
  {
    RunKeepsInv(states, moves, k);
    var c, log := states[k].clients[who], states[k].log;
    assert Sees(log, c.cs.Rank(), key, c.history.sightings[key]);
    ReadPosts(log, c, i, d);
    ErasedMeansFewer(log, c, i, d, StepRead(log, c, i, d), key);
  }

  lemma ErasedMeansFewer(log: Log, c: Client, i: nat, d: Delivery, e: Client, k: Bytes)
    requires ValidLog(log) && Inv(log, c) && Enabled(log, c, ReadDone(i, d)) && ReadEffect(log, c, i, d, e)
    requires k in c.cs.watchedKeys && k !in e.cs.watchedKeys
    ensures |Predecessors(Now(log), c.cs.Rank())|
            < |Predecessors(At(log, c.history.sightings[k].revision), c.cs.Rank())|
  {
    assert c.outstanding[i] in c.outstanding;
    DeliveredIsGone(log, c, d, k);
    GoneMeansFewer(log, c.cs.Rank(), k, c.history.sightings[k]);
  }

  lemma GoneMeansFewer(log: Log, place: Place, k: Bytes, s: Sighting)
    requires Sees(log, place, k, s) && k !in Predecessors(Now(log), place)
    ensures |Predecessors(Now(log), place)| < |Predecessors(At(log, s.revision), place)|
  {
    PredecessorsShrink(log, s.revision, Revision(log), place);
    SubsetSize(Predecessors(Now(log), place), Predecessors(At(log, s.revision), place));
  }

  // ---- one operation at a time, and draining ---------------------------------------------------------------------

  /** At most one operation of a candidate is in flight, and the two counters say exactly how many are, next to the
      blocking calls under way and the ranges that completed with a failure, which never count as done. */
  lemma OneOperationInFlight(states: seq<System>, moves: seq<Move>, k: nat, who: nat)
    requires IsRun(states, moves) && k < |states| && who < |states[k].clients|
    ensures
      var c := states[k].clients[who];
      && |c.outstanding| <= 1
      && (c.outstanding != [] && Waiting(c.outstanding[0]) ==> c.cs.watchedKeys != {})
      && c.cs.ops.pending + c.cs.readOps.pending == |c.outstanding| + c.tracers + c.history.cancelledRanges
  {
    RunKeepsInv(states, moves, k);
    var c := states[k].clients[who];
    assert c.outstanding != [] ==> c.outstanding[0] in c.outstanding;
  }

  /** When cleanup has returned, nothing that calls back into the candidate is in flight, then and ever after. */
  lemma DrainedIsFinal(states: seq<System>, moves: seq<Move>, i: nat, k: nat, who: nat)
    requires IsRun(states, moves) && i <= k < |states| && who < |states[i].clients|
    requires states[i].clients[who].drain.Drained?
    ensures who < |states[k].clients|
    ensures
      var c := states[k].clients[who];
      c.drain.Drained? && c.outstanding == [] && c.tracers == 0 && c.cs.ops.Drained() && c.cs.readOps.Drained()
  {
    var drained := (s: System) => who < |s.clients| && s.clients[who].drain.Drained?;
    forall j | i <= j < k && drained(states[j]) ensures drained(states[j + 1]) {
      RunKeepsInv(states, moves, j);
      if moves[j].Acts? {
        StepStaysDrained(states[j].log, states[j].clients[moves[j].who], moves[j].action);
      }
    }
    Carries(states, drained, i, k);
    RunKeepsInv(states, moves, k);
  }

  lemma StepStaysDrained(log: Log, c: Client, a: Action)
    requires ValidLog(log) && Enabled(log, c, a)
    ensures c.drain.Drained? ==> Step(log, c, a).1.drain.Drained?
  {
  }

  /** Cleanup gets past its first wait exactly if no blocking call is under way, no Range ever failed and nothing but a
      read is in flight. */
  lemma CleanupPassesIff(states: seq<System>, moves: seq<Move>, k: nat, who: nat)
    requires IsRun(states, moves) && k < |states| && who < |states[k].clients|
    ensures
      var c := states[k].clients[who];
      Enabled(states[k].log, c, CleanupShutsReads) <==>
        && c.drain.WaitingForOps? && c.tracers == 0 && c.history.cancelledRanges == 0
        && forall p :: p in c.outstanding ==> p.ReadPending?
  {
    RunKeepsInv(states, moves, k);
    PassesIff(states[k].log, states[k].clients[who]);
  }

  lemma PassesIff(log: Log, c: Client)
    requires Tokens(c)
    ensures Enabled(log, c, CleanupShutsReads) <==>
              && c.drain.WaitingForOps? && c.tracers == 0 && c.history.cancelledRanges == 0
              && forall p :: p in c.outstanding ==> p.ReadPending?
  {
    if c.outstanding != [] {
      assert c.outstanding[0] in c.outstanding;
    }
  }

  /** A Range that failed leaves its count behind, so cleanup never gets past its first wait. */
  lemma CancelledRangeBlocksCleanup(states: seq<System>, moves: seq<Move>, i: nat, k: nat, who: nat)
    requires IsRun(states, moves) && i <= k < |states| && who < |states[i].clients|
    requires states[i].clients[who].history.cancelledRanges > 0
    ensures who < |states[k].clients|
    ensures
      var c := states[k].clients[who];
      !Enabled(states[k].log, c, CleanupShutsReads) && !c.drain.WaitingForReads? && !c.drain.Drained?
  {
    RunContinues(states, moves, i, k);
    assert SameCampaign(states[i].clients[who], states[k].clients[who]);
    RunKeepsInv(states, moves, k);
    CleanupPassesIff(states, moves, k, who);
  }

  // ---- a campaign that is over -----------------------------------------------------------------------------------

  /** The campaign is not won and has nothing in flight. */
  predicate Stuck(c: Client) {
    c.phase.Campaigning? && c.outstanding == [] && !c.cs.elected
  }

  lemma NobodyPrecedes(log: Log, cs: Candidate)
    requires Leads(Now(log), cs.Rank()) && cs.creationRevision >= 2
    ensures IsAnswer(Now(log), PredecessorQuery(cs), [])
  {
    forall k ensures !Matches(Now(log), PredecessorQuery(cs), k) {
      ElectionRangeIsExact(cs.name, k);
      assert k !in Predecessors(Now(log), cs.Rank());
    }
  }

  lemma StepStaysStuck(log: Log, c: Client, a: Action)
    requires ValidLog(log) && Enabled(log, c, a)
    ensures Stuck(c) ==> Stuck(Step(log, c, a).1)
  {
  }

  /** A campaign with nothing in flight and no victory never gets any further. */
  lemma StuckIsFinal(states: seq<System>, moves: seq<Move>, i: nat, k: nat, who: nat)
    requires IsRun(states, moves) && i <= k < |states| && who < |states[i].clients|
    requires Stuck(states[i].clients[who])
    ensures who < |states[k].clients| && Stuck(states[k].clients[who])
  {
    var stuck := (s: System) => who < |s.clients| && Stuck(s.clients[who]);
    forall j | i <= j < k && stuck(states[j]) ensures stuck(states[j + 1]) {
      RunKeepsInv(states, moves, j);
      if moves[j].Acts? {
        StepStaysStuck(states[j].log, states[j].clients[moves[j].who], moves[j].action);
      }
    }
    Carries(states, stuck, i, k);
  }
}
