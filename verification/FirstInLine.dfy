/** A candidate that nobody precedes any more: when the completions of its own operations make it the leader. Missed
    deletions, whether a cancelled watch hides them or they come without the previous value, keep it waiting. */
module FirstInLine {
  import opened ByteStrings
  import opened Etcd
  import opened Candidates
  import opened Campaign
  import opened CampaignInvariants
  import opened CampaignSteps
  import opened CampaignReads
  import opened Elections
  import opened Progress
  import opened Runs
  import opened Winning
  import opened DueDeletions

  // ---- a candidate that is off course ------------------------------------------------------------------------------

  lemma OffCourseAfterAnswer(log: Log, c: Client, i: nat, kvs: seq<KeyValue>)
    requires Inv(log, c) && InTheRunning(c) && Leads(Now(log), c.cs.Rank()) && !OnCourse(log, c)
    requires Enabled(log, c, AnswerRange(i, kvs))
    ensures !OnCourse(log, StepAnswer(log, c, i, kvs))
  {
    AnswerPosts(log, c, i, kvs);
    assert kvs == [];
  }

  lemma OffCourseAfterRange(log: Log, c: Client, i: nat)
    requires Inv(log, c) && InTheRunning(c) && !OnCourse(log, c) && Enabled(log, c, RangeDone(i, true))
    ensures InTheRunning(StepRange(c, i, true)) && !OnCourse(log, StepRange(c, i, true))
  {
    assert c.outstanding[i] in c.outstanding;
    var response, d := c.outstanding[i].answer.value, StepRange(c, i, true);
    AnswerMeans(log, c.cs, response);
    RangePosts(c, i, response);
    if response.kvs != [] && !c.cs.ops.shutdown {
      var k :| k in c.cs.watchedKeys && !Due(log, c, k);
      DueThroughRange(log, c, d, response, k);
    }
  }

  lemma OffCourseAfterWrite(log: Log, c: Client, i: nat, ok: bool)
    requires i < |c.outstanding| && c.outstanding[i].WritePending?
    requires Tokens(c) && InTheRunning(c) && !OnCourse(log, c)
    ensures InTheRunning(StepWrite(c, i, ok)) && !OnCourse(log, StepWrite(c, i, ok))
  {
    WritePosts(c, i, ok);
    if ok && !c.cs.readOps.shutdown {
      var d := StepWrite(c, i, ok);
      var k :| k in c.cs.watchedKeys && !Due(log, c, k);
      DueThroughWrite(log, c, d, c.outstanding[0], k);
    }
  }

  /** Delivering does not bring a deletion back. */
  lemma DueWasDue(log: Log, c: Client, d: Delivery, e: Client, k: Bytes)
    requires d.watch < |c.watches| && c.watches[d.watch].next <= d.upTo && c.watches[d.watch].open
    requires e.watches == AfterDelivery(c.watches, d) && DueOnWatch(log, e, k)
    ensures DueOnWatch(log, c, k)
  {
    var j :| 0 <= j < |e.watches| && e.watches[j].open && e.watches[j].key == k
             && DeletedSince(log, k, e.watches[j].next);
    DeletedFromEarlier(log, k, e.watches[j].next, c.watches[j].next);
  }

  lemma NotDueKey(log: Log, c: Client) returns (k: Bytes)
    requires |c.outstanding| == 1 && c.outstanding[0].ReadPending? && !OnCourse(log, c)
    ensures k in c.cs.watchedKeys && !DueOnWatch(log, c, k)
  {
    k :| k in c.cs.watchedKeys && !Due(log, c, k);
  }

  lemma OnCourseMeansDue(log: Log, e: Client, k: Bytes)
    requires OnCourse(log, e) && k in e.cs.watchedKeys
    requires Asked(e.outstanding[0]) || e.outstanding[0].ReadPending?
    ensures DueOnWatch(log, e, k)
  {
    assert Due(log, e, k);
  }

  lemma OffCourseAfterDelivery(log: Log, c: Client, i: nat, d: Delivery, e: Client)
    requires ValidLog(log) && Tokens(c) && Sighted(log, c) && InTheRunning(c) && !OnCourse(log, c)
    requires Enabled(log, c, ReadDone(i, d)) && ReadEffect(log, c, i, d, e)
    ensures InTheRunning(e) && !OnCourse(log, e)
  {
    var k := NotDueKey(log, c);
    WatchedKeyNotEmpty(log, c, k);
    StaysOffCourse(log, c, d, e, k);
  }

  lemma StaysOffCourse(log: Log, c: Client, d: Delivery, e: Client, k: Bytes)
    requires ValidLog(log) && d.watch < |c.watches| && c.watches[d.watch].open && k != []
    requires 1 <= c.watches[d.watch].next <= d.upTo <= Revision(log) + 1
    requires k in c.cs.watchedKeys && !DueOnWatch(log, c, k) && e.watches == AfterDelivery(c.watches, d)
    requires e.cs.watchedKeys == c.cs.watchedKeys - DeletedKeys(Deliver(log, c, d).events)
    requires e.outstanding != [] ==> Asked(e.outstanding[0]) || e.outstanding[0].ReadPending?
    ensures !OnCourse(log, e)
  {
    if k in DeletedKeys(Deliver(log, c, d).events) {
      ErasedWasDue(log, c, d, k);
    }
    if OnCourse(log, e) {
      OnCourseMeansDue(log, e, k);
      DueWasDue(log, c, d, e, k);
    }
  }

  /** A delivery erases a key only if that was due. */
  lemma ErasedWasDue(log: Log, c: Client, d: Delivery, k: Bytes)
    requires ValidLog(log) && d.watch < |c.watches| && c.watches[d.watch].open && k != []
    requires 1 <= c.watches[d.watch].next <= d.upTo <= Revision(log) + 1
    requires k in DeletedKeys(Deliver(log, c, d).events)
    ensures DueOnWatch(log, c, k)
  {
    DeliversIff(log, c, d, k);
    var r :| c.watches[d.watch].next <= r < d.upTo && DeletedAt(log, k, r);
    assert DeletedSince(log, k, c.watches[d.watch].next);
  }

  lemma OffCourseAfterQuery(log: Log, c: Client, a: Action)
    requires ValidLog(log) && Inv(log, c) && InTheRunning(c) && Leads(Now(log), c.cs.Rank()) && !OnCourse(log, c)
    requires Enabled(log, c, a) && (a.AnswerRange? || a.RangeDone?)
    ensures
      var (log', d) := Step(log, c, a);
      log' == log && InTheRunning(d) && !OnCourse(log, d)
  {
    if a.AnswerRange? {
      OffCourseAfterAnswer(log, c, a.i, a.kvs);
    } else if a.ok {
      OffCourseAfterRange(log, c, a.i);
    } else {
      LostAfterFailedRange(log, c, a.i);
    }
  }

  lemma OffCourseAfterStep(log: Log, c: Client, a: Action)
    requires ValidLog(log) && Inv(log, c) && InTheRunning(c) && Leads(Now(log), c.cs.Rank()) && !OnCourse(log, c)
    requires Enabled(log, c, a) && OfStream(a)
    ensures
      var (log', d) := Step(log, c, a);
      log' == log && InTheRunning(d) && !OnCourse(log, d)
  {
    if a.WriteDone? {
      OffCourseAfterWrite(log, c, a.i, a.ok);
    } else if a.ReadDone? {
      ReadPosts(log, c, a.i, a.delivery);
      OffCourseAfterDelivery(log, c, a.i, a.delivery, StepRead(log, c, a.i, a.delivery));
    } else if a.ReadFails? {
      FailedReadLeavesNothing(log, c, a.i);
    } else {
      OffCourseAfterQuery(log, c, a);
    }
  }

  // ---- winning alone ---------------------------------------------------------------------------------------------

  predicate OwnMove(m: Move, who: nat) {
    m.Acts? && m.who == who && OfStream(m.action)
  }

  ghost predicate WinsAlone(path: seq<System>, moves: seq<Move>, s: System, who: nat) {
    && Wins(path, moves, s, who)
    && forall i :: 0 <= i < |moves| ==> OwnMove(moves[i], who)
  }

  /** The completions of its own operations, in some order and with whatever results, make the candidate the leader. */
  ghost predicate CanWinAlone(s: System, who: nat) {
    exists path: seq<System>, moves: seq<Move> :: WinsAlone(path, moves, s, who)
  }

  lemma WinsAloneNow(s: System, who: nat)
    requires who < |s.clients| && s.clients[who].cs.elected
    ensures CanWinAlone(s, who)
  {
    assert WinsAlone([s], [], s, who);
  }

  lemma WinsAloneEarlier(s: System, a: Action, who: nat)
    requires Possible(s, Acts(who, a)) && OfStream(a) && CanWinAlone(After(s, Acts(who, a)), who)
    ensures CanWinAlone(s, who)
  {
    var path, moves :| WinsAlone(path, moves, After(s, Acts(who, a)), who);
    WinsFromEarlier(path, moves, s, Acts(who, a), who);
    assert WinsAlone([s] + path, [Acts(who, a)] + moves, s, who);
  }

  lemma {:induction false} OnCourseWins(s: System, who: nat)
    requires SystemCovered(s) && who < |s.clients|
    requires Running(s.log, s.clients[who]) && OnCourse(s.log, s.clients[who])
    ensures CanWinAlone(s, who)
    decreases StepsLeft(s.clients[who])
  {
    var a := SomethingAdvances(s.log, s.clients[who]);
    OwnStepKeepsWithin(s.log, s.clients[who], a);
    ActsOn(s, who, a);
    var t := After(s, Acts(who, a));
    if Elected(t.clients[who]) {
      WinsAloneNow(t, who);
    } else {
      OnCourseWins(t, who);
    }
    WinsAloneEarlier(s, a, who);
  }

  ghost predicate Waits(s: System, who: nat) {
    && SystemInv(s) && who < |s.clients| && InTheRunning(s.clients[who])
    && Leads(Now(s.log), s.clients[who].cs.Rank()) && !OnCourse(s.log, s.clients[who])
  }

  lemma WaitsOn(s: System, who: nat, m: Move)
    requires Waits(s, who) && Possible(s, m) && OwnMove(m, who)
    ensures Waits(After(s, m), who)
  {
    MoveKeepsInv(s, m);
    OffCourseAfterStep(s.log, s.clients[who], m.action);
    StepKeepsIdentity(s.log, s.clients[who], m.action);
  }

  lemma WaitsForever(path: seq<System>, moves: seq<Move>, who: nat, k: nat)
    requires IsPath(path, moves) && k < |path| && Waits(path[0], who)
    requires forall i :: 0 <= i < |moves| ==> OwnMove(moves[i], who)
    ensures Waits(path[k], who)
  {
    var waits := (s: System) => Waits(s, who);
    forall j | 0 <= j < k && waits(path[j]) ensures waits(path[j + 1]) {
      WaitsOn(path[j], who, moves[j]);
    }
    Carries(path, waits, 0, k);
  }

  lemma WaitingIsNotElected(s: System, who: nat)
    requires Waits(s, who)
    ensures !ThinksElected(s.clients[who].cs)
  {
  }

  /** The candidate is first in line and has not given up. The completions of its own operations can make it the leader
      exactly if it is on course: an operation is in flight, no empty answer comes while keys are watched, and every
      watched key has a deletion that is still to be delivered, on an open watch or on the one about to be created. */
  lemma CanWinAloneIff(states: seq<System>, moves: seq<Move>, k: nat, who: nat)
    requires IsRun(states, moves) && k < |states| && who < |states[k].clients|
    requires InTheRunning(states[k].clients[who]) && Leads(Now(states[k].log), states[k].clients[who].cs.Rank())
    requires !states[k].clients[who].cs.ops.shutdown && !states[k].clients[who].cs.readOps.shutdown
    ensures CanWinAlone(states[k], who) <==> OnCourse(states[k].log, states[k].clients[who])
  {
    RunKeepsCovered(states, moves, k);
    var s := states[k];
    if OnCourse(s.log, s.clients[who]) {
      OnCourseWins(s, who);
    } else if CanWinAlone(s, who) {
      var path, acts :| WinsAlone(path, acts, s, who);
      WaitsForever(path, acts, who, |acts|);
      WaitingIsNotElected(path[|acts|], who);
    }
  }
}
