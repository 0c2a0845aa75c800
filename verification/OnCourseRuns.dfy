/** Runs in which anything may go on beside the completions of a candidate's own operations, none of which fails. */
module OnCourseRuns {
  import opened ByteStrings
  import opened Etcd
  import opened Candidates
  import opened Campaign
  import opened CampaignInvariants
  import opened CampaignSteps
  import opened CampaignReads
  import opened Elections
  import opened Progress
  import opened Runs
  import opened Winning
  import opened DueDeletions

  // ---- with everything else going on -----------------------------------------------------------------------------

  /** Anything others do, and of the candidate's own steps those without a fault that do not give up. */
  predicate Harmless(m: Move, who: nat) {
    m.Acts? && m.who == who ==>
      || Faultless(m.action)
      || m.action.ProclaimValue? || m.action.TracerStarts? || m.action.TracerEnds? || m.action.ResignBegins?
  }

  ghost predicate AdvancesBy(s: System, m: Move, who: nat) {
    m.Acts? && m.who == who && who < |s.clients| && Advances(s.log, s.clients[who], m.action)
  }

  ghost function CountAdvances(states: seq<System>, moves: seq<Move>, who: nat, i: nat, k: nat): nat
    requires i <= k <= |moves| && k < |states|
    decreases k
  {
    if i == k then 0
    else CountAdvances(states, moves, who, i, k - 1) + if AdvancesBy(states[k - 1], moves[k - 1], who) then 1 else 0
  }

  lemma WithinLogGrows(log: Log, longer: Log, c: Client, steps: int)
    requires Inv(log, c) && Within(log, c, steps) && log <= longer
    ensures Within(longer, c, steps)
  {
    if !Elected(c) {
      NowShrinks(log, longer, c.cs.Rank());
      forall k | k in c.cs.watchedKeys ensures Due(longer, c, k) {
        DueLogGrows(log, longer, c, k);
      }
    }
  }

  lemma DueLogGrows(log: Log, longer: Log, c: Client, k: Bytes)
    requires log <= longer && Due(log, c, k)
    ensures Due(longer, c, k)
  {
    if DueOnWatch(log, c, k) {
      var j :| 0 <= j < |c.watches| && c.watches[j].open && c.watches[j].key == k
               && DeletedSince(log, k, c.watches[j].next);
      DeletedSinceStable(log, longer, k, c.watches[j].next);
    } else {
      match c.outstanding[0]
      case RangePending(_, Some(response)) => DeletedSinceStable(log, longer, k, response.revision);
      case WritePending(_, startRevision) => DeletedSinceStable(log, longer, k, startRevision);
    }
  }

  lemma WithinSame(log: Log, c: Client, d: Client, steps: int)
    requires Within(log, c, steps) && SameNode(c.cs, d.cs) && d.cs.watchedKeys == c.cs.watchedKeys
    requires d.outstanding == c.outstanding && d.watches == c.watches && d.phase == c.phase
    requires d.cs.elected == c.cs.elected
    requires d.cs.ops.shutdown == c.cs.ops.shutdown && d.cs.readOps.shutdown == c.cs.readOps.shutdown
    ensures Within(log, d, steps)
  {
    if !Elected(c) {
      forall k | k in d.cs.watchedKeys ensures Due(log, d, k) {
        assert Due(log, c, k);
        assert DueOnWatch(log, c, k) ==> DueOnWatch(log, d, k);
      }
    }
  }

  lemma OtherOwnSteps(log: Log, c: Client, a: Action, steps: int)
    requires ValidLog(log) && Inv(log, c) && Within(log, c, steps) && Enabled(log, c, a)
    requires a.ProclaimValue? || a.TracerStarts? || a.TracerEnds? || a.ResignBegins?
    ensures
      var (log', d) := Step(log, c, a);
      Within(log', d, steps)
  {
    var (log', d) := Step(log, c, a);
    if a.ProclaimValue? {
      CommitIsValid(log, PublishTxn(c.cs, a.value, NothingOnFailure));
      WithinLogGrows(log, log', c, steps);
    }
    WithinSame(log', c, d, steps);
  }

  lemma OwnHarmlessStep(log: Log, c: Client, a: Action, steps: int)
    requires ValidLog(log) && Inv(log, c) && Within(log, c, steps) && Enabled(log, c, a)
    requires Harmless(Acts(0, a), 0)
    ensures
      var (log', d) := Step(log, c, a);
      Within(log', d, steps - if Advances(log, c, a) then 1 else 0)
  {
    if Faultless(a) {
      OwnStepKeepsWithin(log, c, a);
    } else {
      OtherOwnSteps(log, c, a, steps);
    }
  }

  /** The candidate is elected or on course, with so many advances left. */
  ghost predicate OnTheWay(s: System, who: nat, steps: int) {
    SystemInv(s) && who < |s.clients| && Within(s.log, s.clients[who], steps)
  }

  lemma HarmlessStep(s: System, m: Move, who: nat, steps: int)
    requires OnTheWay(s, who, steps) && Possible(s, m) && Harmless(m, who)
    ensures OnTheWay(After(s, m), who, steps - if AdvancesBy(s, m, who) then 1 else 0)
  {
    MoveKeepsInv(s, m);
    if m.Acts? && m.who == who {
      OwnHarmlessStep(s.log, s.clients[who], m.action, steps);
    } else {
      WithinLogGrows(s.log, After(s, m).log, s.clients[who], steps);
    }
  }

  /** A move keeps the candidate on its way, and brings it on if it advances it. */
  ghost predicate BringsOn(s: System, m: Move, t: System, who: nat) {
    forall steps :: OnTheWay(s, who, steps) ==> OnTheWay(t, who, steps - if AdvancesBy(s, m, who) then 1 else 0)
  }

  lemma HarmlessBringsOn(s: System, m: Move, who: nat)
    requires Possible(s, m) && Harmless(m, who)
    ensures BringsOn(s, m, After(s, m), who)
  {
    forall steps | OnTheWay(s, who, steps)
      ensures OnTheWay(After(s, m), who, steps - if AdvancesBy(s, m, who) then 1 else 0)
    {
      HarmlessStep(s, m, who, steps);
    }
  }

  lemma HarmlessMoves(states: seq<System>, moves: seq<Move>, i: nat, k: nat, who: nat)
    requires IsRun(states, moves) && i <= k < |states| && forall j :: i <= j < k ==> Harmless(moves[j], who)
    ensures forall j :: i <= j < k ==> BringsOn(states[j], moves[j], states[j + 1], who)
  {
    forall j | i <= j < k ensures BringsOn(states[j], moves[j], states[j + 1], who) {
      HarmlessBringsOn(states[j], moves[j], who);
    }
  }

  lemma BroughtOn(s: System, m: Move, t: System, who: nat, steps: int)
    requires BringsOn(s, m, t, who) && OnTheWay(s, who, steps)
    ensures OnTheWay(t, who, steps - if AdvancesBy(s, m, who) then 1 else 0)
  {
  }

  lemma {:induction false} AdvancesCount(
    states: seq<System>, moves: seq<Move>, i: nat, k: nat, who: nat, steps: int)
    requires i <= k <= |moves| && k < |states| && OnTheWay(states[i], who, steps)
    requires forall j :: i <= j < k ==> BringsOn(states[j], moves[j], states[j + 1], who)
    ensures OnTheWay(states[k], who, steps - CountAdvances(states, moves, who, i, k))
    decreases k
  {
    if i < k {
      AdvancesCount(states, moves, i, k - 1, who, steps);
      assert BringsOn(states[k - 1], moves[k - 1], states[k - 1 + 1], who);
      BroughtOn(
        states[k - 1], moves[k - 1], states[k], who, steps - CountAdvances(states, moves, who, i, k - 1));
    }
  }

  /** A candidate that is on course stays so whatever others do and however its watches are delivered, as long as none
      of its operations fails and it does not give up. It is elected once as many of them have advanced it as were left,
      and until then one can. */
  lemma OnCourseIsElected(states: seq<System>, moves: seq<Move>, i: nat, k: nat, who: nat)
    requires IsRun(states, moves) && i <= k < |states| && who < |states[i].clients|
    requires Running(states[i].log, states[i].clients[who]) && OnCourse(states[i].log, states[i].clients[who])
    requires forall j :: i <= j < k ==> Harmless(moves[j], who)
    ensures who < |states[k].clients|
    ensures CountAdvances(states, moves, who, i, k) >= StepsLeft(states[i].clients[who]) ==>
              states[k].clients[who].cs.elected
    ensures states[k].clients[who].cs.elected
            || exists a :: OfStream(a) && Enabled(states[k].log, states[k].clients[who], a)
                           && Advances(states[k].log, states[k].clients[who], a)
  {
    RunKeepsInv(states, moves, i);
    var steps := StepsLeft(states[i].clients[who]);
    HarmlessMoves(states, moves, i, k, who);
    AdvancesCount(states, moves, i, k, who, steps);
    StillOnTheWay(states[k], who, steps - CountAdvances(states, moves, who, i, k));
    RunKeepsCovered(states, moves, k);
    if !states[k].clients[who].cs.elected {
      var a := SomethingAdvances(states[k].log, states[k].clients[who]);
    }
  }

  lemma StillOnTheWay(s: System, who: nat, steps: int)
    requires OnTheWay(s, who, steps)
    ensures who < |s.clients|
    ensures
      var c := s.clients[who];
      c.cs.elected || (steps > 0 && Running(s.log, c) && OnCourse(s.log, c))
  {
  }

  /** A campaign without faults is on course as soon as nobody precedes it. */
  lemma FaultlessIsOnCourse(log: Log, c: Client)
    requires ValidLog(log) && Inv(log, c) && c.phase.Campaigning? && c.history.clean && !c.cs.elected
    requires Leads(Now(log), c.cs.Rank())
    ensures Running(log, c) && OnCourse(log, c) && StepsLeft(c) <= 5
  {
    var p := c.outstanding[0];
    if p.RangePending? {
      assert c.cs.watchedKeys == {};
    } else {
      var k :| c.cs.watchedKeys == {k} && WaitsFor(log, c, k);
      WaitedForIsDue(log, c, k);
    }
  }

  lemma FaultlessIsOnTheWay(s: System, who: nat)
    requires SystemInv(s) && who < |s.clients|
    requires s.clients[who].phase.Campaigning? && s.clients[who].history.clean
    requires Leads(Now(s.log), s.clients[who].cs.Rank())
    ensures OnTheWay(s, who, 5)
  {
    if !s.clients[who].cs.elected {
      FaultlessIsOnCourse(s.log, s.clients[who]);
    }
  }

  lemma WaitedForIsDue(log: Log, c: Client, k: Bytes)
    requires Sighted(log, c) && c.outstanding != [] && Waiting(c.outstanding[0]) && WaitsFor(log, c, k)
    requires Leads(Now(log), c.cs.Rank())
    ensures Due(log, c, k)
  {
    var s, place := c.history.sightings[k], c.cs.Rank();
    assert Sees(log, place, k, s);
    if c.outstanding[0].WritePending? {
      SightedIsDeleted(log, place, k, s.createRevision, s.revision);
      DeletedFromEarlier(log, k, s.revision + 1, s.revision);
    } else {
      var w := LastWatch(c);
      SightedIsDeleted(log, place, k, s.createRevision, LastSeen(w, s));
      DeletedFromEarlier(log, k, LastSeen(w, s) + 1, w.next);
      assert DueOnWatch(log, c, k);
    }
  }

  /** In a run without faults a candidate that nobody precedes any more is elected by at most five advances, whatever
      else goes on. */
  lemma FirstInLineWins(states: seq<System>, moves: seq<Move>, i: nat, k: nat, who: nat)
    requires IsRun(states, moves) && i <= k < |states| && who < |states[i].clients|
    requires states[i].clients[who].phase.Campaigning? && states[i].clients[who].history.clean
    requires Leads(Now(states[i].log), states[i].clients[who].cs.Rank())
    requires forall j :: i <= j < k ==> Harmless(moves[j], who)
    requires CountAdvances(states, moves, who, i, k) >= 5
    ensures who < |states[k].clients| && states[k].clients[who].cs.elected
  {
    RunKeepsInv(states, moves, i);
    FaultlessIsOnTheWay(states[i], who);
    HarmlessMoves(states, moves, i, k, who);
    AdvancesCount(states, moves, i, k, who, 5);
    StillOnTheWay(states[k], who, 5 - CountAdvances(states, moves, who, i, k));
  }

  // ---- reading in vain -------------------------------------------------------------------------------------------

  /** The candidate has a Read in flight, and a key that nobody watches keeps it from winning. */
  ghost predicate ReadsInVain(s: System, who: nat, k: Bytes) {
    && SystemInv(s) && who < |s.clients|
    && var c := s.clients[who];
       && InTheRunning(c) && !c.cs.ops.shutdown && !c.cs.readOps.shutdown
       && |c.outstanding| == 1 && c.outstanding[0].ReadPending? && Stale(s.log, c, k)
  }

  lemma ReadsInVainAgain(log: Log, c: Client, i: nat, d: Delivery, e: Client, k: Bytes)
    requires ValidLog(log) && Tokens(c) && Sighted(log, c) && Enabled(log, c, ReadDone(i, d)) && Stale(log, c, k)
    requires ReadEffect(log, c, i, d, e) && !d.Cancels() && !c.cs.readOps.shutdown
    ensures Stale(log, e, k) && e.outstanding == c.outstanding
  {
    StaleNotDelivered(log, c, d, k);
    NoNewWatch(c, d, e, k);
    StaysStale(log, c, e, k);
  }

  lemma ReadsInVainLocally(log: Log, c: Client, a: Action, k: Bytes)
    requires ValidLog(log) && Inv(log, c) && InTheRunning(c) && Stale(log, c, k) && Enabled(log, c, a)
    requires a.ProclaimValue? || a.TracerStarts? || a.TracerEnds? || a.ResignBegins?
    ensures
      var (log', d) := Step(log, c, a);
      && InTheRunning(d) && Stale(log', d, k) && d.outstanding == c.outstanding
      && d.cs.ops.shutdown == c.cs.ops.shutdown && d.cs.readOps.shutdown == c.cs.readOps.shutdown
  {
    var (log', d) := Step(log, c, a);
    if a.ProclaimValue? {
      CommitIsValid(log, PublishTxn(c.cs, a.value, NothingOnFailure));
    }
    StaleLogGrows(log, log', c, k);
    assert OpenWatchOn(d, k) ==> OpenWatchOn(c, k);
  }

  lemma OwnStepReadsInVain(log: Log, c: Client, a: Action, k: Bytes)
    requires ValidLog(log) && Inv(log, c) && InTheRunning(c) && !c.cs.ops.shutdown && !c.cs.readOps.shutdown
    requires |c.outstanding| == 1 && c.outstanding[0].ReadPending? && Stale(log, c, k)
    requires Enabled(log, c, a) && Harmless(Acts(0, a), 0)
    ensures
      var (log', d) := Step(log, c, a);
      && InTheRunning(d) && !d.cs.ops.shutdown && !d.cs.readOps.shutdown
      && d.outstanding == c.outstanding && Stale(log', d, k)
  {
    if a.ReadDone? {
      ReadPosts(log, c, a.i, a.delivery);
      ReadsInVainAgain(log, c, a.i, a.delivery, StepRead(log, c, a.i, a.delivery), k);
    } else if !Faultless(a) {
      ReadsInVainLocally(log, c, a, k);
    }
  }

  lemma ReadsInVainOn(s: System, m: Move, who: nat, k: Bytes)
    requires ReadsInVain(s, who, k) && Possible(s, m) && Harmless(m, who)
    ensures ReadsInVain(After(s, m), who, k)
  {
    MoveKeepsInv(s, m);
    if m.Acts? && m.who == who {
      OwnStepReadsInVain(s.log, s.clients[who], m.action, k);
    } else {
      StaleLogGrows(s.log, After(s, m).log, s.clients[who], k);
    }
  }

  /** As long as none of its operations fails, and it does not give up, the candidate reads on for ever. */
  lemma StaleReadsForever(path: seq<System>, moves: seq<Move>, who: nat, k: Bytes, n: nat)
    requires IsPath(path, moves) && n < |path| && ReadsInVain(path[0], who, k)
    requires forall i :: 0 <= i < |moves| ==> Harmless(moves[i], who)
    ensures ReadsInVain(path[n], who, k)
  {
    var reading := (s: System) => ReadsInVain(s, who, k);
    forall j | 0 <= j < n && reading(path[j]) ensures reading(path[j + 1]) {
      ReadsInVainOn(path[j], moves[j], who, k);
    }
    Carries(path, reading, 0, n);
  }
}
