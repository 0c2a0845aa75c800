/** Candidates and observers of one election agree on who leads it. */
module Agreement {
  import opened Keys
  import opened Etcd
  import opened Candidates
  import opened CampaignInvariants
  import E = Elections
  import O = ObserverRuns
  import R = ObserverRefinement
  import Observers

  /** A candidate that was elected by revision r and whose node is live at r is the leader of every observer that has
      caught up with r, with the value its node has at r. */
  lemma CandidateIsLeader(
    states: seq<E.System>, moves: seq<E.Move>, i: nat, k: nat, who: nat,
    scenes: seq<O.Scene>, sights: seq<O.Move>, n: nat, r: nat)
    requires E.IsRun(states, moves) && i <= k < |states| && who < |states[i].clients|
    requires O.IsRun(scenes, sights) && n < |scenes| && scenes[n].log == states[k].log
    requires 1 <= r <= Revision(states[k].log) && O.CaughtUp(scenes[n], r)
    requires
      var c := states[i].clients[who];
      && ThinksElected(c.cs) && c.history.electedAt.Some? && c.history.electedAt.value <= r
      && c.cs.name == scenes[n].o.name
      && OwnsNode(c.cs, At(states[k].log, r))
    ensures
      var cs, o := states[i].clients[who].cs, scenes[n].o;
      && o.participants != map[]
      && Observers.First(o.participants) == cs.creationRevision
      && Observers.Leader(o.participants) == Observers.Notice(cs.Key(), At(states[k].log, r)[cs.Key()].value)
  {
    E.RunKeepsInv(states, moves, i);
    E.RunContinues(states, moves, i, k);
    O.ObserverRefinesStore(scenes, sights, n, r);
    var c, log, o := states[i].clients[who], states[k].log, scenes[n].o;
    var won := c.history.electedAt.value;
    AtStable(states[i].log, log, won);
    PredecessorsShrink(log, won, r, c.cs.Rank());
    E.OwnKeyInElection(c.cs);
    LeaderIsFirst(log, r, c.cs, o.participants);
  }

  /** In the index of the nodes at r, a live node that no other precedes is the first entry. */
  lemma LeaderIsFirst(log: Log, r: nat, cs: Candidate, m: Observers.Participants)
    requires 1 <= r <= Revision(log) && R.IsIndex(log, r, cs.name, m)
    requires OwnsNode(cs, At(log, r)) && InElection(cs.name, cs.Key()) && Leads(At(log, r), cs.Rank())
    ensures m != map[] && Observers.First(m) == cs.creationRevision
    ensures Observers.Leader(m) == Observers.Notice(cs.Key(), At(log, r)[cs.Key()].value)
  {
    var live := At(log, r);
    assert live[cs.Key()].createRevision in m;
    var first := Observers.First(m);
    assert m[first].key !in Campaign.Predecessors(live, cs.Rank());
    CreateRevisionsAreUnique(log, r, m[first].key, r, cs.Key());
  }

}
