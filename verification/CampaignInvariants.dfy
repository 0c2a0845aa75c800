/** What every step of a campaign keeps, and what every change other clients make to the store keeps. */
module CampaignInvariants {
  import opened ByteStrings
  import opened Etcd
  import opened Candidates
  import opened Campaign

  // ---- tokens and counters ---------------------------------------------------------------------------------------

  predicate OnReadCounter(p: Pending) {
    p.ReadPending?
  }

  /** How many operations in flight the first counter covers: all but the reads. */
  function CountOps(outstanding: seq<Pending>): (n: nat)
    ensures n <= |outstanding|
  {
    if outstanding == [] then 0
    else (if OnReadCounter(outstanding[0]) then 0 else 1) + CountOps(outstanding[1..])
  }

  function CountReads(outstanding: seq<Pending>): nat {
    |outstanding| - CountOps(outstanding)
  }

  predicate Waiting(p: Pending) {
    p.WritePending? || p.ReadPending?
  }

  /** At most one operation of the chain is in flight, a watch or read in flight means a predecessor is watched, and
      the counters count what is in flight, the tracers and the ranges that were cancelled. */
  predicate Tokens(c: Client) {
    && |c.outstanding| <= 1
    && (c.outstanding != [] ==> c.phase.Campaigning?)
    && (forall p :: p in c.outstanding && Waiting(p) ==> c.cs.watchedKeys != {})
    && c.cs.ops.pending == CountOps(c.outstanding) + c.history.cancelledRanges + c.tracers
    && c.cs.readOps.pending == CountReads(c.outstanding)
    && (!c.drain.NotDraining? ==> c.cs.ops.shutdown)
    && (c.drain.WaitingForReads? || c.drain.Drained? ==> c.cs.readOps.shutdown && c.cs.ops.pending == 0)
    && (c.drain.Drained? ==> c.cs.readOps.pending == 0)
  }

  // ---- what the candidate knows about the store ------------------------------------------------------------------

  /** No node of the election comes before the candidate's. */
  predicate Leads(live: Live, place: Place) {
    Predecessors(live, place) == {}
  }

  /** What the application can see of a victory: the flag, or the value of the future that campaign returned. */
  predicate ThinksElected(cs: Candidate) {
    cs.elected || cs.promise == Some(true)
  }

  ghost predicate AnsweredAt(log: Log, cs: Candidate, req: RangeRequest, response: RangeResponse) {
    && cs.creationRevision <= response.revision && 1 <= response.revision <= Revision(log)
    && IsAnswer(At(log, response.revision), req, response.kvs)
  }

  ghost predicate Knows(log: Log, c: Client) {
    && (!c.phase.Fresh? && !c.phase.Failed? ==> 2 <= c.cs.creationRevision <= Revision(log))
    && (!c.phase.Campaigning? ==> c.history.electedAt.None?)
    && (ThinksElected(c.cs) ==> c.history.electedAt.Some?)
    && (c.history.electedAt.Some? ==>
          && c.cs.creationRevision <= c.history.electedAt.value <= Revision(log)
          && Leads(At(log, c.history.electedAt.value), c.cs.Rank()))
    && (forall p :: p in c.outstanding && p.RangePending? ==>
          && p.req == PredecessorQuery(c.cs)
          && (p.answer.Some? ==> AnsweredAt(log, c.cs, p.req, p.answer.value)))
  }

  // ---- the watched predecessors ----------------------------------------------------------------------------------

  /** At the sighting's revision the key was the last node of the election before the candidate's. */
  ghost predicate Sees(log: Log, place: Place, k: Bytes, s: Sighting) {
    && place.creationRevision <= s.revision && 1 <= s.revision <= Revision(log)
    && k in Predecessors(At(log, s.revision), place)
    && At(log, s.revision)[k].createRevision == s.createRevision
    && forall other :: other in Predecessors(At(log, s.revision), place) ==>
         At(log, s.revision)[other].createRevision <= s.createRevision
  }

  ghost predicate Sighted(log: Log, c: Client) {
    && c.history.sightings.Keys == c.cs.watchedKeys
    && (!c.phase.Campaigning? ==> c.cs.watchedKeys == {} && c.watches == [])
    && (forall k :: k in c.history.sightings ==> Sees(log, c.cs.Rank(), k, c.history.sightings[k]))
    && (forall w :: w in c.watches ==> c.cs.creationRevision <= w.next)
    && (forall p :: p in c.outstanding && p.WritePending? ==> c.cs.creationRevision <= p.startRevision)
  }

  // ---- no missed deletion ----------------------------------------------------------------------------------------

  /** At revision r the key holds the node that was created at revision c. */
  ghost predicate HoldsNode(log: Log, r: nat, k: Bytes, c: nat) {
    1 <= r <= Revision(log) && k in At(log, r) && At(log, r)[k].createRevision == c
  }

  /** The last revision at which the watch or the sighting has seen the node. */
  function LastSeen(w: Watch, s: Sighting): nat {
    if w.next <= s.revision then s.revision else w.next - 1
  }

  /** The watch has not delivered any deletion of the node: it is still there at the last revision delivered. */
  ghost predicate Tracks(log: Log, w: Watch, k: Bytes, s: Sighting) {
    w.open && w.key == k && HoldsNode(log, LastSeen(w, s), k, s.createRevision)
  }

  /** A campaign without faults is over and won, or asks who precedes it, or watches one predecessor. */
  ghost predicate Chain(log: Log, c: Client) {
    && (c.history.clean ==> !c.cs.ops.shutdown && !c.cs.readOps.shutdown)
    && (c.phase.Campaigning? && c.history.clean ==>
      && (c.cs.elected <==> c.outstanding == [])
      && (c.cs.elected || c.outstanding[0].RangePending? ==> c.cs.watchedKeys == {})
      && (!c.cs.elected && Waiting(c.outstanding[0]) ==>
            exists k :: c.cs.watchedKeys == {k} && WaitsFor(log, c, k)))
  }

  /** The create-watch Write or the Read in flight will lead to the deletion of the node. */
  ghost predicate WaitsFor(log: Log, c: Client, k: Bytes)
    requires c.outstanding != []
  {
    && k in c.history.sightings
    && (c.outstanding[0].WritePending? ==>
          c.outstanding[0].key == k && c.outstanding[0].startRevision == c.history.sightings[k].revision)
    && (c.outstanding[0].ReadPending? ==>
          c.watches != [] && Tracks(log, c.watches[|c.watches| - 1], k, c.history.sightings[k]))
  }

  // ---- the number of queries -------------------------------------------------------------------------------------

  /** The queries so far, the predecessors that remain, and one more if the last predecessor seen is gone. */
  ghost function Potential(log: Log, c: Client): nat {
    var before := Predecessors(Now(log), c.cs.Rank());
    c.history.queries + |before|
    + (if c.history.latest.Some? && c.history.latest.value !in before then 1 else 0)
  }

  ghost predicate Bounded(log: Log, c: Client) {
    var h := c.history;
    && (c.phase.Publishing? || c.phase.Ready? ==> |Predecessors(Now(log), c.cs.Rank())| <= h.predecessorsAtCreation)
    && (!c.phase.Campaigning? ==> h.queries == 0 && h.cancels == 0 && h.latest.None?)
    && (c.phase.Campaigning? ==> Potential(log, c) <= 1 + h.predecessorsAtCreation + h.cancels)
    && (forall p :: p in c.outstanding ==>
          match p
          case RangePending(_, None) => h.latest.None?
          case RangePending(_, Some(response)) =>
            h.latest == if response.kvs == [] then None else Some(response.kvs[0].key)
          case _ =>
            && h.latest.Some?
            && (h.latest.value in c.cs.watchedKeys || h.latest.value !in Predecessors(Now(log), c.cs.Rank())))
  }

  ghost predicate Inv(log: Log, c: Client) {
    Tokens(c) && Knows(log, c) && Sighted(log, c) && Chain(log, c) && Bounded(log, c)
  }

  // ---- the store moves on ----------------------------------------------------------------------------------------

  /** Nodes are only ever added behind the candidate's. */
  lemma PredecessorsShrink(log: Log, r1: nat, r2: nat, place: Place)
    requires 1 <= r1 <= r2 <= Revision(log) && place.creationRevision <= r1 + 1
    ensures Predecessors(At(log, r2), place) <= Predecessors(At(log, r1), place)
    ensures forall k :: k in Predecessors(At(log, r2), place) ==>
              At(log, r1)[k].createRevision == At(log, r2)[k].createRevision
  {
    forall k | k in Predecessors(At(log, r2), place)
      ensures k in Predecessors(At(log, r1), place)
      ensures At(log, r1)[k].createRevision == At(log, r2)[k].createRevision
    {
      LiveSinceCreation(log, r1, r2, k);
    }
  }

  lemma NowShrinks(log: Log, longer: Log, place: Place)
    requires log <= longer && place.creationRevision <= Revision(log) + 1
    ensures Predecessors(Now(longer), place) <= Predecessors(Now(log), place)
  {
    AtStable(log, longer, Revision(log));
    PredecessorsShrink(longer, Revision(log), Revision(longer), place);
  }

  lemma SubsetSize<T>(a: set<T>, b: set<T>)
    requires a <= b
    ensures |a| <= |b|
    ensures forall x :: x in b && x !in a ==> |a| < |b|
  {
    assert b == a + (b - a) && |b| == |a| + |b - a|;
    forall x | x in b && x !in a ensures |a| < |b| {
      assert x in b - a;
    }
  }

  lemma KnowsStable(log: Log, longer: Log, c: Client)
    requires Knows(log, c) && log <= longer
    ensures Knows(longer, c)
  {
    forall r: nat | 1 <= r <= Revision(log) ensures At(longer, r) == At(log, r) {
      AtStable(log, longer, r);
    }
  }

  lemma SightedStable(log: Log, longer: Log, c: Client)
    requires Sighted(log, c) && log <= longer
    ensures Sighted(longer, c)
  {
    forall k | k in c.history.sightings ensures Sees(longer, c.cs.Rank(), k, c.history.sightings[k]) {
      assert Sees(log, c.cs.Rank(), k, c.history.sightings[k]);
      AtStable(log, longer, c.history.sightings[k].revision);
    }
  }

  lemma TracksStable(log: Log, longer: Log, w: Watch, k: Bytes, s: Sighting)
    requires Tracks(log, w, k, s) && log <= longer
    ensures Tracks(longer, w, k, s)
  {
    AtStable(log, longer, LastSeen(w, s));
  }

  lemma ChainStable(log: Log, longer: Log, c: Client)
    requires Tokens(c) && Chain(log, c) && log <= longer
    ensures Chain(longer, c)
  {
    if c.phase.Campaigning? && c.history.clean && !c.cs.elected && Waiting(c.outstanding[0]) {
      var k :| c.cs.watchedKeys == {k} && WaitsFor(log, c, k);
      if c.outstanding[0].ReadPending? {
        TracksStable(log, longer, c.watches[|c.watches| - 1], k, c.history.sightings[k]);
      }
      assert WaitsFor(longer, c, k);
    }
  }

  lemma BoundedStable(log: Log, longer: Log, c: Client)
    requires Tokens(c) && Knows(log, c) && Bounded(log, c) && log <= longer
    ensures Bounded(longer, c)
  {
    if !c.phase.Fresh? && !c.phase.Failed? {
      NowShrinks(log, longer, c.cs.Rank());
      SubsetSize(Predecessors(Now(longer), c.cs.Rank()), Predecessors(Now(log), c.cs.Rank()));
    }
  }

  lemma InvStable(log: Log, longer: Log, c: Client)
    requires Inv(log, c) && log <= longer
    ensures Inv(longer, c)
  {
    KnowsStable(log, longer, c);
    SightedStable(log, longer, c);
    ChainStable(log, longer, c);
    BoundedStable(log, longer, c);
  }
}
