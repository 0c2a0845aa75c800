/** Candidates' nodes hang on their leases: over every run, a lease that expires takes its candidates out of their
    elections, and nobody else. */
module Leases {
  import opened ByteStrings
  import opened Keys
  import opened Etcd
  import opened Candidates
  import opened Campaign
  import opened Elections
  import opened Runs

  /** What a change may do to the leases of the nodes: those it writes get this lease. */
  predicate WritesUnder(live: Live, live': Live, key: Bytes, lease: int) {
    && (forall k :: k in live' && k != key ==> k in live && live'[k].lease == live[k].lease)
    && (key in live' ==> live'[key].lease == lease || (key in live && live'[key].lease == live[key].lease))
  }

  lemma CommitWritesUnder(log: Log, txn: Txn)
    ensures WritesUnder(Now(log), Now(Commit(log, txn)), txn.key, txn.lease)
  {
    if Commit(log, txn) != log {
      NowStep(log, Commit(log, txn)[|log|]);
    }
  }

  /** Whatever a candidate does, it writes no key but its own, and that under its lease. */
  lemma OwnStepWritesUnder(log: Log, c: Client, a: Action)
    requires ValidLog(log) && Enabled(log, c, a)
    ensures WritesUnder(Now(log), Now(Step(log, c, a).0), c.cs.Key(), c.cs.leaseId)
  {
    if a.CreateNode? {
      CommitWritesUnder(log, CreateTxn(c.cs));
    } else if a.PublishNode? || a.RpcFails? {
      CommitWritesUnder(log, NextTxn(c));
    } else if a.ProclaimValue? {
      CommitWritesUnder(log, PublishTxn(c.cs, a.value, NothingOnFailure));
    }
  }

  /** Nobody else puts the key under another lease. */
  predicate LeavesToOwner(m: Move, name: Bytes, leaseId: LeaseId) {
    m.OthersChange? && m.change.PutKey? && m.change.key == CandidateKey(name, leaseId) ==> m.change.lease == leaseId
  }

  predicate HangsOn(live: Live, name: Bytes, leaseId: LeaseId) {
    CandidateKey(name, leaseId) in live ==> live[CandidateKey(name, leaseId)].lease == leaseId
  }

  lemma MoveHangs(s: System, m: Move, name: Bytes, leaseId: LeaseId)
    requires Possible(s, m) && LeavesToOwner(m, name, leaseId) && HangsOn(Now(s.log), name, leaseId)
    ensures HangsOn(Now(After(s, m).log), name, leaseId)
  {
    if m.OthersChange? {
      NowStep(s.log, m.change);
    } else if m.Acts? {
      var cs := s.clients[m.who].cs;
      OwnStepWritesUnder(s.log, s.clients[m.who], m.action);
      KeysAreUnique(name, leaseId, cs.name, cs.leaseId);
    }
  }

  /** A candidate's node is always attached to the candidate's lease. */
  lemma NodeHangsOnLease(states: seq<System>, moves: seq<Move>, k: nat, name: Bytes, leaseId: LeaseId)
    requires IsRun(states, moves) && k < |states| && forall i :: 0 <= i < k ==> LeavesToOwner(moves[i], name, leaseId)
    ensures HangsOn(Now(states[k].log), name, leaseId)
  {
    var hangs := (s: System) => HangsOn(Now(s.log), name, leaseId);
    forall i | 0 <= i < k && hangs(states[i]) ensures hangs(states[i + 1]) {
      MoveHangs(states[i], moves[i], name, leaseId);
    }
    Carries(states, hangs, 0, k);
  }

  /** The lease expires or is revoked, which deletes all its keys. */
  ghost predicate Expires(live: Live, change: Change, lease: int) {
    change.DeleteKeys? && forall key :: key in change.keys <==> key in live && live[key].lease == lease
  }

  /** When a lease ends, a candidate's node stays exactly if it is the node of another lease. */
  lemma ExpiryTakesOwnNodes(
    states: seq<System>, moves: seq<Move>, k: nat, lease: int, name: Bytes, leaseId: LeaseId)
    requires IsRun(states, moves) && k < |moves| && forall i :: 0 <= i < k ==> LeavesToOwner(moves[i], name, leaseId)
    requires moves[k].OthersChange? && Expires(Now(states[k].log), moves[k].change, lease)
    ensures
      var key := CandidateKey(name, leaseId);
      key in Now(states[k + 1].log) <==> key in Now(states[k].log) && leaseId != lease
  {
    NodeHangsOnLease(states, moves, k, name, leaseId);
    NowStep(states[k].log, moves[k].change);
  }
}
