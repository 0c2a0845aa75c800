/** The outcome of a campaign as the application sees it, and giving a campaign up: what resigning cancels, what it
    waits for, and when a query that is still in flight elects the candidate all the same. */
module Resignation {
  import opened ByteStrings
  import opened Etcd
  import opened Waits
  import opened Candidates
  import opened Campaign
  import opened CampaignInvariants
  import opened CampaignSteps
  import opened CampaignReads
  import opened Elections
  import opened Progress
  import opened Runs
  import opened Winning

  // ---- the outcome -----------------------------------------------------------------------------------------------

  /** What the step says about the outcome, if anything. */
  ghost function Verdict(log: Log, c: Client, a: Action): Option<bool>
    requires ValidLog(log) && Enabled(log, c, a)
  {
    match a
    case BeginCampaign => if c.cs.ops.shutdown then Some(false) else None
    case RangeDone(i, ok) =>
      if !ok then Some(false)
      else if c.outstanding[i].answer.value.kvs == [] && c.cs.watchedKeys == {} then Some(true)
      else None
    case ReadDone(_, d) =>
      var left := c.cs.watchedKeys - DeletedKeys(Deliver(log, c, d).events);
      if c.cs.ops.shutdown && (d.Cancels() || left == {}) then Some(false) else None
    case ResignEnds => Some(false)
    case _ => None
  }

  /** The future takes the first verdict and keeps it; the flag takes every one. */
  predicate Heeds(cs: Candidate, verdict: Option<bool>, cs': Candidate) {
    && cs'.promise == (if cs.promise.None? then verdict else cs.promise)
    && cs'.elected == (if verdict.Some? then verdict.value else cs.elected)
  }

  lemma RangeHeeds(log: Log, c: Client, i: nat, ok: bool)
    requires ValidLog(log) && Inv(log, c) && Enabled(log, c, RangeDone(i, ok))
    ensures Heeds(c.cs, Verdict(log, c, RangeDone(i, ok)), StepRange(c, i, ok).cs)
  {
    if ok {
      assert c.outstanding[i] in c.outstanding;
      AnswerMeans(log, c.cs, c.outstanding[i].answer.value);
      RangeResult(c.cs, c.outstanding[i].answer.value);
    }
  }

  lemma ReadHeeds(log: Log, c: Client, i: nat, d: Delivery)
    requires ValidLog(log) && Enabled(log, c, ReadDone(i, d))
    ensures Heeds(c.cs, Verdict(log, c, ReadDone(i, d)), StepRead(log, c, i, d).cs)
  {
  }

  lemma RestHeeds(log: Log, c: Client, a: Action)
    requires ValidLog(log) && Enabled(log, c, a) && !a.RangeDone? && !a.ReadDone?
    ensures Heeds(c.cs, Verdict(log, c, a), Step(log, c, a).1.cs)
  {
  }

  lemma StepHeeds(log: Log, c: Client, a: Action)
    requires ValidLog(log) && Inv(log, c) && Enabled(log, c, a)
    ensures Heeds(c.cs, Verdict(log, c, a), Step(log, c, a).1.cs)
  {
    if a.RangeDone? {
      RangeHeeds(log, c, a.i, a.ok);
    } else if a.ReadDone? {
      ReadHeeds(log, c, a.i, a.delivery);
    } else {
      RestHeeds(log, c, a);
    }
  }

  /** The outcome of a campaign changes only when a Range comes back empty and no key is watched, when a Range fails,
      when a query is due after the shutdown, and when the candidate has resigned. The first of these decides the future
      for good, the last the flag. */
  lemma OutcomeIsDecided(states: seq<System>, moves: seq<Move>, k: nat, who: nat)
    requires IsRun(states, moves) && k < |moves| && who < |states[k].clients|
    ensures who < |states[k + 1].clients|
    ensures
      var s, m := states[k], moves[k];
      Heeds(s.clients[who].cs,
            if m.Acts? && m.who == who then Verdict(s.log, s.clients[who], m.action) else None,
            states[k + 1].clients[who].cs)
  {
    RunKeepsInv(states, moves, k);
    if moves[k].Acts? && moves[k].who == who {
      StepHeeds(states[k].log, states[k].clients[who], moves[k].action);
    }
  }

  // ---- what resigning cancels ------------------------------------------------------------------------------------

  /** A response of the watch that reports its creation, and does not cancel it. */
  predicate Creates(m: Move, who: nat, w: nat) {
    && m.Acts? && m.who == who && m.action.ReadDone?
    && m.action.delivery.watch == w && m.action.delivery.created && !m.action.delivery.Cancels()
  }

  /** The watch is reported cancelled, or resigning takes it. */
  predicate Drops(m: Move, who: nat, w: nat) {
    && m.Acts? && m.who == who
    && (m.action.ResignBegins?
        || (m.action.ReadDone? && m.action.delivery.watch == w && m.action.delivery.Cancels()))
  }

  predicate WatchesAreOpen(c: Client) {
    forall w :: w in c.cs.currentWatches ==> w < |c.watches| && c.watches[w].open
  }

  lemma ReadMovesWatches(log: Log, c: Client, i: nat, d: Delivery)
    requires ValidLog(log) && Enabled(log, c, ReadDone(i, d))
    ensures
      StepRead(log, c, i, d).cs.currentWatches ==
        if d.Cancels() then c.cs.currentWatches - {d.watch}
        else if d.created then c.cs.currentWatches + {d.watch}
        else c.cs.currentWatches
  {
  }

  lemma {:induction false} WatchAllKeepsWatches(c: Candidate, kvs: seq<KeyValue>, revision: nat)
    ensures WatchAll(c, kvs, revision).0.currentWatches == c.currentWatches
  {
    if kvs != [] && !c.ops.shutdown {
      WatchAllKeepsWatches(c, kvs[..|kvs| - 1], revision);
    }
  }

  lemma RestKeepsWatches(log: Log, c: Client, a: Action)
    requires ValidLog(log) && Enabled(log, c, a) && !a.ReadDone? && !a.ResignBegins?
    ensures
      var d := Step(log, c, a).1;
      d.cs.currentWatches == c.cs.currentWatches && c.watches <= d.watches
  {
    if a.RangeDone? && a.ok {
      var response := c.outstanding[a.i].answer.value;
      WatchAllKeepsWatches(c.cs.(ops := c.cs.ops.Done()), response.kvs, response.revision);
    }
  }

  /** What the candidate takes for its current watches after a step of its own. */
  lemma OwnStepMovesWatches(log: Log, c: Client, a: Action, who: nat, w: nat)
    requires ValidLog(log) && Enabled(log, c, a) && WatchesAreOpen(c)
    ensures
      var d, m := Step(log, c, a).1, Acts(who, a);
      && WatchesAreOpen(d)
      && (w in d.cs.currentWatches <==> Creates(m, who, w) || (w in c.cs.currentWatches && !Drops(m, who, w)))
  {
    if a.ReadDone? {
      ReadMovesWatches(log, c, a.i, a.delivery);
      assert Step(log, c, a).1.watches == AfterDelivery(c.watches, a.delivery);
    } else if !a.ResignBegins? {
      RestKeepsWatches(log, c, a);
    }
  }

  lemma StepMovesWatches(s: System, m: Move, who: nat, w: nat)
    requires Possible(s, m) && who < |s.clients| && WatchesAreOpen(s.clients[who])
    ensures
      var c, d := s.clients[who], After(s, m).clients[who];
      && WatchesAreOpen(d)
      && (w in d.cs.currentWatches <==> Creates(m, who, w) || (w in c.cs.currentWatches && !Drops(m, who, w)))
  {
    if m.Acts? && m.who == who {
      OwnStepMovesWatches(s.log, s.clients[who], m.action, who, w);
    }
  }

  /** The watch was reported created, and not dropped since. */
  predicate IsCurrent(moves: seq<Move>, k: nat, who: nat, w: nat)
    requires k <= |moves|
  {
    exists j :: 0 <= j < k && Creates(moves[j], who, w) && forall i :: j < i < k ==> !Drops(moves[i], who, w)
  }

  lemma CurrentStep(moves: seq<Move>, k: nat, who: nat, w: nat)
    requires 0 < k <= |moves|
    ensures IsCurrent(moves, k, who, w) <==>
              Creates(moves[k - 1], who, w) || (IsCurrent(moves, k - 1, who, w) && !Drops(moves[k - 1], who, w))
  {
    if j :| 0 <= j < k && Creates(moves[j], who, w) && forall i :: j < i < k ==> !Drops(moves[i], who, w) {
      if j < k - 1 {
        assert !Drops(moves[k - 1], who, w);
        assert IsCurrent(moves, k - 1, who, w);
      }
    }
    if IsCurrent(moves, k - 1, who, w) && !Drops(moves[k - 1], who, w) {
      var j :| 0 <= j < k - 1 && Creates(moves[j], who, w) && forall i :: j < i < k - 1 ==> !Drops(moves[i], who, w);
      assert IsCurrent(moves, k, who, w);
    }
    if Creates(moves[k - 1], who, w) {
      assert IsCurrent(moves, k, who, w);
    }
  }

  /** Resigning cancels exactly the watches that were reported created and are neither cancelled nor taken by an earlier
      resignation, and all of them are open at the server. */
  lemma {:induction false} CancelsCurrentWatches(states: seq<System>, moves: seq<Move>, k: nat, who: nat, w: nat)
    requires IsRun(states, moves) && k < |states| && who < |states[k].clients|
    ensures w in states[k].clients[who].cs.currentWatches <==> IsCurrent(moves, k, who, w)
    ensures WatchesAreOpen(states[k].clients[who])
  {
    if k > 0 {
      CurrentStep(moves, k, who, w);
      assert states[k] == After(states[k - 1], moves[k - 1]);
      if who < |states[k - 1].clients| {
        CancelsCurrentWatches(states, moves, k - 1, who, w);
        StepMovesWatches(states[k - 1], moves[k - 1], who, w);
      } else {
        NoMovesYet(states, moves, k - 1, who, w);
        JoinsWithout(states[k - 1], moves[k - 1], who, w);
      }
    }
  }

  lemma JoinsWithout(s: System, m: Move, who: nat, w: nat)
    requires Possible(s, m) && |s.clients| <= who < |After(s, m).clients|
    ensures After(s, m).clients[who].cs.currentWatches == {} && !Creates(m, who, w)
  {
  }

  lemma {:induction false} NoMovesYet(states: seq<System>, moves: seq<Move>, k: nat, who: nat, w: nat)
    requires IsRun(states, moves) && k < |states| && who >= |states[k].clients|
    ensures forall j :: 0 <= j < k ==> !Creates(moves[j], who, w)
  {
    if k > 0 {
      assert states[k] == After(states[k - 1], moves[k - 1]);
      NoMovesYet(states, moves, k - 1, who, w);
    }
  }

  // ---- what resigning waits for ----------------------------------------------------------------------------------

  function CountCancels(turns: seq<Turn>): nat {
    if turns == [] then 0 else (if turns[0].CancelCompletes? then 1 else 0) + CountCancels(turns[1..])
  }

  lemma {:induction false} CancelsAreAwaited(r: Resigning, turns: seq<Turn>)
    requires r.1 >= 0
    ensures
      var (r', _, over) := Await(r, PendingCancels, HandleTurn, turns);
      over ==> CountCancels(turns) >= r.1
    decreases |turns|
  {
    if r.1 != 0 && turns != [] {
      CancelsAreAwaited(HandleTurn(r, turns[0]).0, turns[1..]);
    }
  }

  /** Resigning returns only after as many cancel requests as there were current watches have completed and no Read is
      pending; then the candidate is not elected, its future is decided, and no Read will be accepted. */
  lemma GiveUpLoses(c: Candidate, turns: seq<Turn>, dones: seq<Completion>)
    requires GiveUp(c, turns, dones).2
    ensures
      var c' := GiveUp(c, turns, dones).0;
      !c'.elected && c'.promise.Some? && c'.readOps.Drained() && CountCancels(turns) >= |c.currentWatches|
  {
    var taken := (TakeWatches(c), |c.currentWatches|);
    CancelsAreAwaited(taken, turns);
    AwaitKeepsShut(ShutReads(Await(taken, PendingCancels, HandleTurn, turns).0.0), Reads, dones);
  }

  // ---- elected after resigning -----------------------------------------------------------------------------------

  /** The query is still in flight and may come back empty, with no key watched. */
  predicate QueryMayWin(c: Client) {
    |c.outstanding| == 1 && FindsNobody(c.outstanding[0]) && c.cs.watchedKeys == {}
  }

  /** The candidate has resigned and nothing in flight can elect it. */
  predicate Out(c: Client) {
    c.phase.Campaigning? && !c.cs.elected && c.cs.readOps.Drained() && !QueryMayWin(c)
  }

  lemma NoReadInFlight(c: Client)
    requires Tokens(c) && c.cs.readOps.pending == 0
    ensures forall i :: 0 <= i < |c.outstanding| ==> !c.outstanding[i].ReadPending?
  {
    if c.outstanding != [] {
      assert c.outstanding == [c.outstanding[0]];
    }
  }

  lemma RangeKeepsOut(log: Log, c: Client, i: nat, ok: bool)
    requires ValidLog(log) && Inv(log, c) && Out(c) && Enabled(log, c, RangeDone(i, ok))
    ensures Out(StepRange(c, i, ok))
  {
    assert c.outstanding == [c.outstanding[0]] && c.outstanding[i] in c.outstanding;
    assert Without(c.outstanding, 0) == [];
    if ok {
      AnswerMeans(log, c.cs, c.outstanding[i].answer.value);
      RangeResult(c.cs, c.outstanding[i].answer.value);
      RangePosts(c, i, c.outstanding[i].answer.value);
    }
  }

  lemma StepKeepsOut(log: Log, c: Client, a: Action)
    requires ValidLog(log) && Inv(log, c) && Out(c) && Enabled(log, c, a)
    ensures Out(Step(log, c, a).1)
  {
    NoReadInFlight(c);
    if a.RangeDone? {
      RangeKeepsOut(log, c, a.i, a.ok);
    } else if a.WriteDone? {
      WriteIsDone(c, a.i, a.ok);
    } else {
      RestKeepsOut(log, c, a);
    }
  }

  lemma RestKeepsOut(log: Log, c: Client, a: Action)
    requires ValidLog(log) && Out(c) && Enabled(log, c, a)
    requires !a.RangeDone? && !a.WriteDone? && !a.ReadDone? && !a.ReadFails?
    ensures Out(Step(log, c, a).1)
  {
  }

  ghost predicate OutIn(s: System, who: nat) {
    SystemInv(s) && who < |s.clients| && Out(s.clients[who])
  }

  lemma OutForGood(path: seq<System>, moves: seq<Move>, k: nat, who: nat)
    requires IsPath(path, moves) && k < |path| && OutIn(path[0], who)
    ensures OutIn(path[k], who)
  {
    var out := (s: System) => OutIn(s, who);
    forall j | 0 <= j < k && out(path[j]) ensures out(path[j + 1]) {
      MoveStaysOut(path[j], moves[j], who);
    }
    Carries(path, out, 0, k);
  }

  lemma MoveStaysOut(s: System, m: Move, who: nat)
    requires OutIn(s, who) && Possible(s, m)
    ensures OutIn(After(s, m), who)
  {
    MoveKeepsInv(s, m);
    if m.Acts? && m.who == who {
      StepKeepsOut(s.log, s.clients[who], m.action);
    }
  }

  lemma AnsweredQueryWins(s: System, who: nat)
    requires SystemCovered(s) && who < |s.clients| && QueryMayWin(s.clients[who])
    requires s.clients[who].outstanding[0].answer.Some?
    ensures CanWin(s, who)
  {
    var c := s.clients[who];
    RangeResult(c.cs, c.outstanding[0].answer.value);
    ActsOn(s, who, RangeDone(0, true));
    WinsNow(After(s, Acts(who, RangeDone(0, true))), who);
    CanWinEarlier(s, Acts(who, RangeDone(0, true)), who);
  }

  lemma EmptyAnswer(s: System, who: nat) returns (t: System)
    requires SystemCovered(s) && who < |s.clients| && QueryMayWin(s.clients[who])
    requires s.clients[who].outstanding[0].answer.None? && Leads(Now(s.log), s.clients[who].cs.Rank())
    ensures Possible(s, Acts(who, AnswerRange(0, []))) && t == After(s, Acts(who, AnswerRange(0, [])))
    ensures SystemCovered(t) && who < |t.clients| && QueryMayWin(t.clients[who])
    ensures t.clients[who].outstanding[0].answer.Some?
  {
    var c := s.clients[who];
    assert c.outstanding[0] in c.outstanding;
    NobodyPrecedes(s.log, c.cs);
    ActsOn(s, who, AnswerRange(0, []));
    t := After(s, Acts(who, AnswerRange(0, [])));
  }

  /** Others delete the nodes that precede the candidate's, the query comes back empty, and the candidate is elected. */
  lemma {:induction false} QueryWins(s: System, who: nat)
    requires SystemCovered(s) && who < |s.clients| && QueryMayWin(s.clients[who])
    ensures CanWin(s, who)
    decreases |Predecessors(Now(s.log), s.clients[who].cs.Rank())|
  {
    var c := s.clients[who];
    if c.outstanding[0].answer.Some? {
      AnsweredQueryWins(s, who);
    } else if Leads(Now(s.log), c.cs.Rank()) {
      var t := EmptyAnswer(s, who);
      AnsweredQueryWins(t, who);
      CanWinEarlier(s, Acts(who, AnswerRange(0, [])), who);
    } else {
      var key :| key in Predecessors(Now(s.log), c.cs.Rank());
      var t := OneFewer(s, who, key);
      QueryWins(t, who);
      CanWinEarlier(s, OthersChange(DeleteKeys([key])), who);
    }
  }

  lemma OneFewer(s: System, who: nat, key: Bytes) returns (t: System)
    requires SystemCovered(s) && who < |s.clients| && key in Predecessors(Now(s.log), s.clients[who].cs.Rank())
    ensures Possible(s, OthersChange(DeleteKeys([key]))) && t == After(s, OthersChange(DeleteKeys([key])))
    ensures SystemCovered(t) && t.clients == s.clients
    ensures |Predecessors(Now(t.log), s.clients[who].cs.Rank())| < |Predecessors(Now(s.log), s.clients[who].cs.Rank())|
  {
    var place := s.clients[who].cs.Rank();
    OthersChangeOn(s, who, DeleteKeys([key]));
    t := After(s, OthersChange(DeleteKeys([key])));
    NowStep(s.log, DeleteKeys([key]));
    assert key in DeleteKeys([key]).keys;
    SubsetSize(Predecessors(Now(t.log), place), Predecessors(Now(s.log), place));
  }

  /** A candidate that has resigned from its campaign can still come to be elected exactly if its query is in flight,
      was not answered with a predecessor, and no key is watched. */
  lemma ElectedAfterResigningIff(states: seq<System>, moves: seq<Move>, k: nat, who: nat)
    requires IsRun(states, moves) && k < |moves| && who < |states[k].clients|
    requires moves[k] == Acts(who, ResignEnds) && states[k].clients[who].phase.Campaigning?
    ensures who < |states[k + 1].clients| && !states[k + 1].clients[who].cs.elected
    ensures states[k + 1].clients[who].cs.promise.Some?
    ensures CanWin(states[k + 1], who) <==> QueryMayWin(states[k + 1].clients[who])
  {
    RunKeepsCovered(states, moves, k + 1);
    Resigns(states[k], who);
    CanBeElectedIff(states[k + 1], who);
  }

  lemma Resigns(s: System, who: nat)
    requires Possible(s, Acts(who, ResignEnds)) && s.clients[who].phase.Campaigning?
    ensures
      var d := After(s, Acts(who, ResignEnds)).clients[who];
      (QueryMayWin(d) || Out(d)) && !d.cs.elected && d.cs.promise.Some?
  {
  }

  lemma CanBeElectedIff(s: System, who: nat)
    requires SystemCovered(s) && who < |s.clients| && (QueryMayWin(s.clients[who]) || Out(s.clients[who]))
    ensures CanWin(s, who) <==> QueryMayWin(s.clients[who])
  {
    if QueryMayWin(s.clients[who]) {
      QueryWins(s, who);
    } else if CanWin(s, who) {
      var path, acts :| Wins(path, acts, s, who);
      OutForGood(path, acts, |acts|, who);
    }
  }
}
