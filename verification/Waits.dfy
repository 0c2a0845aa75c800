/** Blocking until nothing is pending on a counter, while the event loop goes on and its callbacks change the object
    that waits. */
module Waits {
  /** Candidates and sessions have two counters: one for the reads of their streams, one for all other operations. */
  datatype Which = Ops | Reads

  /** A wait that begins in state s while completions arrive: the state after it, what the callbacks posted, and whether
      the wait is over. */
  function Await<S, D, O>(s: S, pending: S -> int, handle: (S, D) -> (S, seq<O>), dones: seq<D>): (S, seq<O>, bool)
    decreases |dones|
  {
    if pending(s) == 0 then (s, [], true)
    else if dones == [] then (s, [], false)
    else
      var (s, posted) := handle(s, dones[0]);
      var (s, more, over) := Await(s, pending, handle, dones[1..]);
      (s, posted + more, over)
  }

  /** What a wait that began in start comes to, when i completions have led to s and posted so much. */
  predicate Underway<S(==), D, O(==)>(
    start: S, s: S, pending: S -> int, handle: (S, D) -> (S, seq<O>), dones: seq<D>, i: nat, posted: seq<O>)
    requires i <= |dones|
  {
    var rest := Await(s, pending, handle, dones[i..]);
    Await(start, pending, handle, dones) == (rest.0, posted + rest.1, rest.2)
  }

  lemma UnderwayBegins<S, D, O>(s: S, pending: S -> int, handle: (S, D) -> (S, seq<O>), dones: seq<D>)
    ensures Underway(s, s, pending, handle, dones, 0, [])
  {
    assert dones[0..] == dones;
    Neutral(Await(s, pending, handle, dones).1);
  }

  lemma UnderwayGoesOn<S, D, O>(
    start: S, s: S, pending: S -> int, handle: (S, D) -> (S, seq<O>), dones: seq<D>, i: nat, posted: seq<O>)
    requires i < |dones| && Underway(start, s, pending, handle, dones, i, posted) && pending(s) != 0
    ensures
      var (next, more) := handle(s, dones[i]);
      Underway(start, next, pending, handle, dones, i + 1, posted + more)
  {
    var (next, more) := handle(s, dones[i]);
    var rest := Await(next, pending, handle, dones[i + 1..]);
    assert dones[i..][1..] == dones[i + 1..];
    assert posted + (more + rest.1) == (posted + more) + rest.1;
  }

  lemma UnderwayEnds<S, D, O>(
    start: S, s: S, pending: S -> int, handle: (S, D) -> (S, seq<O>), dones: seq<D>, i: nat, posted: seq<O>)
    requires i <= |dones| && Underway(start, s, pending, handle, dones, i, posted)
    requires pending(s) == 0 || i == |dones|
    ensures Await(start, pending, handle, dones) == (s, posted, pending(s) == 0)
  {
    Neutral(posted);
  }

  lemma Neutral<O>(posted: seq<O>)
    ensures [] + posted == posted && posted + [] == posted
  {
  }
}
