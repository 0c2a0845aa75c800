# A verified model of the Gee-H leader election

Gee-H elects a leader among any number of processes with the help of an etcd server. Each candidate creates a node
under the election's prefix, tied to a lease that it keeps alive; the candidate whose node was created first leads, and
every other candidate watches only the node created just before its own. Observers follow the election by replaying
the watch events of the whole prefix.

This project models the candidate, the observer, the session that keeps the lease alive and the two pieces of
concurrency support they share, and proves what the protocol promises over every run.

How it is built:

- Each object of the library is a class whose methods change its fields in place, as the callbacks do. The contract of
  each method ties the new fields, and the operations it hands to the completion queue, to a function on values.
- State machines put those functions to work: a candidate with its operations in flight and its watches at the server
  (`Campaign`), any number of candidates on one store that others change at will (`Elections`, `Progress`, `Winning`,
  `FirstInLine`, `OnCourseRuns`, `Resignation`, `Leases`), runs of them in which something goes wrong (`FaultyRuns`), an
  observer with its requests in flight and a watch whose responses are cut into batches anywhere (`ObserverRuns`,
  `Listening`, `Subscribers`), the completion queue against gRPC and the allocator (`CompletionQueues`), and a session in
  time (`KeepAliveTiming`).
- Where threads matter the machines are finer. `CleanupRuns` and `SessionRuns` take the callbacks apart at the calls of
  the counters, so that the thread that cleans up or shuts down can step in between any two of them; `OpCounterThreads`
  takes the counter itself apart, with its mutex and condition variable.
- The store (`Etcd`) is a log with one change for each revision; the live keys at a revision, ranges, transactions and
  watch events are functions of that log. It starts at revision 1, so the first node has create revision 2.

One event loop runs the callbacks. Where only the store and the candidate's own fields matter a callback is one step of
the object it belongs to. An operation that is posted completes once, with or without success. A lease that expires or
is revoked is a deletion of its keys by others.

What the code does not do, and what holds instead:

- `prefix_end` yields the range of the prefix only if the prefix is not empty and does not end in a 0xFF byte; each
  trailing 0xFF lets in one more string. Election prefixes end in a slash, so they are not affected.
- `query_predecessor` checks that the first counter is not shut down, starts the operation and ignores whether the start
  was accepted. If `cleanup` shuts the counter down between the two, the query is posted all the same and calls back
  after `cleanup` has returned. `CleanupLeavesQueryIff` says that this is the only way, `QueryAfterCleanup` shows a run.
- Each callback counts down before it has done its work, so `cleanup` can return while the callback that ran last is
  still in the candidate; `CallbackOutlivesCleanup` is such a run. `LoopIsOutIff` says exactly when the event loop is out
  of the candidate for good, `OneStepFromOut` that it otherwise has one step left, which posts nothing. The session
  counts down as early. It checks every start, so its `shutdown` leaves nothing behind either, but the callback that ran
  last may still stand before a start that is refused.
- A candidate that nobody precedes any more is not always elected. `CanWinAloneIff` says exactly when the completions of
  its own operations can do it. `FirstInLineWins` says that without faults they do, and `OnCourseIsElected` that faults
  of the past do not matter as long as that condition holds. An operation that fails leaves nothing in flight, and two
  more faults leave a key watched that nobody will report:
  - After a cancelled or compacted watch the candidate asks for its predecessor again without clearing the keys it
    watches. A key whose deletion was hidden by the compaction stays among them, and the campaign can never be won.
    `CanWinIff` says exactly which campaigns are lost in this sense, `CancelLosesIff` which cancellations lose them.
    In the runs `CompactionHidesDeletion` and `StaleKeyKeepsReading` a candidate is first in line and can never win: in
    one its query is in flight, in the other it reads, and goes on reading (`StaleReadsForever`).
  - A deletion that comes without the previous value, because that was compacted, names no key, so nothing is erased and
    the candidate reads on. In the run `DeletionWithoutValue` the watch is still open, and only others can help, by
    creating and deleting the same key once more.
- A Range that completes without success leaves its count in the first counter, so `cleanup` blocks for good
  (`RangeFailure`, `CancelledRangeBlocksCleanup`).
- A candidate that has resigned can still be elected, by the query that was in flight: `ElectedAfterResigningIff` says
  exactly when. The future that `campaign` returned keeps the first outcome (`OutcomeIsDecided`).
- doc/design-doc.md:28 says that the node is associated to the lease. A candidate that finds a node under its key with
  the value it was to write takes it over as it is, under whatever lease it is (`TakesOverForeignNode`).
  `NodeHangsOnLease` says that nothing else can detach a candidate's node from its lease, `ExpiryTakesOwnNodes` what the
  end of a lease does then.
- `async_op_tracer` counts down even if its start was refused.
- gh/election_observer.hpp:49 says that a subscriber is always called upon subscription, and line 40 that the key is
  empty if there is no leader. The code makes no call when there is no leader, and `current_key` throws then;
  `SubscribeCallsIff` and `CurrentLeaderIff` say when there is one.

## Model

| member | source | states |
|---|---|---|
| PrefixRange.PrefixEnd | gh/prefix_end.cpp:4-25 | the in-place loop computes the byte string whose properties the next three rows state |
| PrefixRange.EndIsNumericSuccessor | gh/prefix_end.cpp:10-18 | with a byte other than 0xFF the end has the same length and is one more, as a big-endian number |
| PrefixRange.PrefixRangeIs | gh/prefix_end.hpp:15-19 | the range holds the strings with the prefix and one explicit extra string for each trailing 0xFF byte |
| PrefixRange.PrefixRangeExactIff | gh/prefix_end.hpp:15-19 | the range is exactly the strings with the prefix if and only if the prefix is not empty and does not end in 0xFF |
| Keys.KeyDecodes | gh/detail/election_candidate_impl.hpp:52-55 | a candidate's key splits at its last slash into the election name and the lease it was made from |
| Keys.KeysAreUnique | doc/design-doc.md:29-29 | two candidates have the same key only with the same election and lease |
| Keys.ElectionRangeIsExact | gh/detail/election_candidate_impl.hpp:267-271 | the range the requests use selects exactly the keys that start with the election's prefix |
| Keys.KeyInElectionIff | gh/detail/election_candidate_impl.hpp:52-55 | a key lies in another election's range only if that election has the same name or names a parent |
| Etcd.CreatedBy | doc/design-doc.md:31-32 | the create revision of a live key is the revision that put it, and is at least 2 |
| Etcd.CreateRevisionsAreUnique | doc/design-doc.md:31-32 | no two nodes share a create revision, at whatever revisions they are looked at |
| Etcd.LiveSinceCreation | doc/design-doc.md:31-32 | a node that is live was live, as the same node, ever since it was created |
| OpCounter.AsyncOpCounter.AsyncOpStart | gh/detail/async_op_counter.hpp:88-95 | a start counts exactly if the counter is not shut down |
| OpCounter.AsyncOpCounter.AsyncOpDone | gh/detail/async_op_counter.hpp:98-104 | a completion counts down and notifies exactly when nothing is left |
| OpCounter.AsyncOpCounter.BlockUntilAllDone | gh/detail/async_op_counter.cpp:6-10 | the wait returns exactly when all that was pending has completed, spurious wakeups or not |
| OpCounter.TracerBalancesIff | gh/detail/async_op_counter.hpp:116-127 | a tracer leaves the counter as it was exactly if its start was accepted |
| OpCounterThreads.StepKeepsInv | gh/detail/async_op_counter.hpp:88-104 | every lock, check, sleep, unlock and notify keeps: the count is the number of open operations, the mutex has one holder, a sleeper with nothing pending will be notified |
| OpCounterThreads.NoLostWakeup | gh/detail/async_op_counter.cpp:6-10 | if the waiter sleeps with nothing pending, a worker is between its decrement and its notification, and its next steps wake the waiter |
| OpCounterThreads.ReturnedIsFinal | gh/detail/async_op_counter.cpp:6-10 | once the wait has returned nothing is pending, no operation is open, and this stays so |
| CompletionQueues.BaseCompletionQueue.RegisterOp | gh/detail/base_completion_queue.cpp:71-78 | a new tag is remembered with its operation, a known one is refused |
| CompletionQueues.BaseCompletionQueue.UnregisterOp | gh/detail/base_completion_queue.cpp:80-89 | a known tag gives its operation and is forgotten |
| CompletionQueues.BaseCompletionQueue.Run | gh/detail/base_completion_queue.cpp:32-63 | the loop handles what AsyncNext reports one by one until the queue shuts down, whatever callbacks and other threads register in between; the next two rows say what that delivers |
| CompletionQueues.RunsOnIff | gh/detail/base_completion_queue.cpp:35-46 | the loop goes on exactly as long as the queue is not shut down and gRPC does not report the end; timeouts do not end it |
| CompletionQueues.RegisteredIsCalled | gh/detail/base_completion_queue.cpp:32-63 | an operation registered during some turn is called back, with its result, by the turn in which its completion comes, if nothing ended the loop before |
| CompletionQueues.RunsUntilShutdown | gh/detail/base_completion_queue.cpp:35-46 | over every run against gRPC the loop waits for the next report as long as nobody has shut the queue down |
| CompletionQueues.ExactlyOnce | gh/detail/base_completion_queue.cpp:32-89 | over every run with reused addresses, shut down at any point, the assertion never fails and every operation is either pending or was called back exactly once with its own result |
| CompletionQueues.UnknownTagIsIgnored | gh/detail/base_completion_queue.cpp:47-58 | a null tag, or one that gRPC does not hold, changes nothing |
| Candidates.ElectionCandidate.constructor | gh/detail/election_candidate_impl.hpp:31-56 | a new candidate has its prefix and key, watches nothing and is not elected |
| Candidates.ElectionCandidate.CreateNode | gh/detail/election_candidate_impl.hpp:198-255 | when it returns, whatever happened between its transactions, the store holds the node with the create revision and value the candidate knows, under its lease unless a node with that value was there before; when it throws over a lost node, the key is gone |
| Candidates.CreateTxnOwns | gh/detail/election_candidate_impl.hpp:205-235 | the first transaction leaves a node under the key and the candidate knows its create revision; a new node has the candidate's value and lease, one that was there stays as it was |
| Candidates.PublishTxnEffect | gh/detail/election_candidate_impl.hpp:310-327 | a publication writes if and only if the node is still the one known; then it has the new value and the candidate's lease and keeps its create revision, hence the order of succession; all other keys stay, and otherwise nothing is written |
| Candidates.ElectionCandidate.Proclaim | gh/detail/election_candidate_impl.hpp:92-108 | the candidate takes the new value exactly if the publication succeeded; then its node has that value, the candidate's lease and the same create revision |
| Leases.NodeHangsOnLease | gh/detail/election_candidate_impl.hpp:198-327 | over every run a candidate's live node is attached to the candidate's lease, as long as nobody else puts the key under another |
| Leases.ExpiryTakesOwnNodes | doc/design-doc.md:28-28 | the end of a lease takes a candidate's node out of the store exactly if it is that candidate's lease |
| FaultyRuns.TakesOverForeignNode | gh/detail/election_candidate_impl.hpp:222-246 | a run in which a candidate owns a node under a lease that is not its own |
| Candidates.ElectionCandidate.DoQueryPredecessor | gh/detail/election_candidate_impl.hpp:258-289 | one Range for the last node created before the candidate's, or a lost election after shutdown |
| Candidates.ElectionCandidate.HandleRangeRequest | gh/detail/election_candidate_impl.hpp:339-367 | a watch for each key of the answer from the answer's revision, victory if no key is watched |
| Candidates.ElectionCandidate.HandleWatchCreate | gh/detail/election_candidate_impl.hpp:370-383 | a read follows a watch that was created |
| Candidates.ElectionCandidate.HandleWatchRead | gh/detail/election_candidate_impl.hpp:392-439 | deleted keys are no longer watched; then a new query or another read |
| Candidates.ElectionCandidate.Resign | gh/detail/election_candidate_impl.hpp:119-162 | every watch is cancelled once; only after the cancels and the read are done, with callbacks running meanwhile, is the election lost; it throws exactly after a shutdown |
| Resignation.GiveUpLoses | gh/detail/election_candidate_impl.hpp:119-162 | when resigning returns, as many cancel requests as there were current watches have completed, no Read is pending or will be accepted, the candidate is not elected and its future is decided |
| Resignation.CancelsCurrentWatches | gh/detail/election_candidate_impl.hpp:399-424 | over every run the watches that resigning cancels are exactly those reported created and neither cancelled nor taken since, and all of them are open at the server |
| Resignation.ElectedAfterResigningIff | gh/detail/election_candidate_impl.hpp:119-162 | a candidate that has resigned can still be elected exactly if its query is in flight, not answered with a predecessor, and no key is watched |
| Resignation.OutcomeIsDecided | gh/detail/election_candidate_impl.hpp:442-466 | over every run the future and the flag change only by an empty answer with no key watched, a failed Range, a query after shutdown or a resignation; the first decides the future for good, the last the flag |
| Candidates.ElectionCandidate.Cleanup | gh/detail/election_candidate_impl.hpp:296-307 | two waits with any callbacks running meanwhile; it returns exactly when both are over |
| Candidates.CleanUpDrains | gh/detail/election_candidate_impl.hpp:296-307 | when it returns both counters are drained, although callbacks handed work from one to the other |
| CleanupRuns.StepsMakeCallback | gh/detail/election_candidate_impl.hpp:258-439 | the steps a callback is taken apart into make up the callback when nothing comes between them |
| CleanupRuns.CleanupLeavesQueryIff | gh/detail/election_candidate_impl.hpp:258-307 | once cleanup has returned, an operation that calls back is in flight or about to be posted exactly if the event loop stood between the check and the start of a query when the first counter was shut down, and that query has not completed since |
| CleanupRuns.QueryAfterCleanup | gh/detail/election_candidate_impl.hpp:258-307 | such a run, for every candidate and predecessor |
| CleanupRuns.LoopIsOutIff | gh/detail/election_candidate_impl.hpp:258-307 | once cleanup has returned, the event loop is outside the candidate and never comes back exactly if it rests and no query has slipped through and is still to complete |
| CleanupRuns.OneStepFromOut | gh/detail/election_candidate_impl.hpp:370-439 | if it is inside then, and no query slipped through, its next step takes it out, posts nothing and leaves the counters alone |
| CleanupRuns.CallbackOutlivesCleanup | gh/detail/election_candidate_impl.hpp:370-383 | a run in which cleanup returns while the callback of a created watch is about to start its read |
| CampaignSteps.AnswerMeans | gh/detail/election_candidate_impl.hpp:263-283 | an empty answer means that no node precedes the candidate's, any other is the last one that does; the bound is never the zero that etcd takes for no bound |
| CampaignReads.DeliveredIsGone | gh/detail/election_candidate_impl.hpp:405-414 | a key a watch reports as deleted precedes the candidate no more and never will again |
| CampaignReads.StepKeepsInv | gh/detail/election_candidate_impl.hpp:258-466 | every step of a campaign, failures and shutdown included, keeps the whole invariant |
| CampaignInvariants.InvStable | gh/detail/election_candidate_impl.hpp:258-466 | so does every change that others make to the store |
| Elections.ElectedLeadsForever | gh/detail/election_candidate_impl.hpp:442-466 | once a candidate is elected, or its future says so, no live node of the election comes before its own, ever after |
| Elections.OneLeader | gh/detail/election_candidate_impl.hpp:258-289 | two elected candidates never both have a live node unless it is the same node |
| Elections.NoMissedDeletion | gh/detail/election_candidate_impl.hpp:346-439 | without faults a waiting candidate has one operation in flight, and if its predecessor is gone the deletion is still to be delivered by its watch |
| Elections.FullDeliveryRequeries | gh/detail/election_candidate_impl.hpp:405-430 | delivering that watch in full makes the candidate ask again |
| Elections.NoThunderingHerd | doc/design-doc.md:37-39 | two candidates with different nodes, the earlier one live, never watch the same node |
| Elections.OneAsksAgain | doc/design-doc.md:37-39 | of the candidates whose nodes are live when a node is deleted, at most one ever asks again because of it |
| FirstInLine.CanWinAloneIff | gh/detail/election_candidate_impl.hpp:339-452 | the completions of its own operations can elect a candidate that nobody precedes exactly if one is in flight, no empty answer comes while keys are watched, and every watched key has a deletion still to be delivered, by an open watch or the one about to be created |
| OnCourseRuns.OnCourseIsElected | gh/detail/election_candidate_impl.hpp:339-452 | such a candidate, as long as none of its operations fails and it does not give up, is elected once a known number of them have advanced it, whatever others do and wherever the deliveries are cut, and until then one can advance it |
| OnCourseRuns.FirstInLineWins | gh/detail/election_candidate_impl.hpp:339-452 | in a run without faults a candidate that nobody precedes any more is elected by at most five advances, whatever else goes on |
| Elections.QueriesAreBounded | gh/detail/election_candidate_impl.hpp:392-430 | a campaign issues at most one query, plus one for each node before it at its creation, plus one for each cancelled watch |
| Elections.RequeryFindsFewer | gh/detail/election_candidate_impl.hpp:405-430 | whenever a watched key is reported deleted, strictly fewer nodes precede the candidate than at the query that found the key |
| Elections.OneOperationInFlight | gh/detail/election_candidate_impl.hpp:278-439 | at most one operation is in flight, watches and reads only with a watched key, and the counters add up to operations, blocking calls and failed ranges |
| Elections.DrainedIsFinal | gh/detail/election_candidate_impl.hpp:296-307 | if cleanup does not step into the middle of a callback, nothing that calls back is in flight after it or ever starts |
| Elections.CleanupPassesIff | gh/detail/election_candidate_impl.hpp:296-307 | cleanup gets past its first wait exactly if no blocking call is under way, no Range ever failed and nothing but a Read is in flight |
| Elections.CancelledRangeBlocksCleanup | gh/detail/election_candidate_impl.hpp:339-343 | after a failed Range cleanup never passes its first wait, then and ever after |
| Winning.CanWinIff | gh/detail/election_candidate_impl.hpp:392-452 | some continuation of the run, in which others may also create a watched key anew, makes the candidate the leader exactly if an operation is in flight, the query in flight does not come back empty while keys are watched, and no watched key is stale: its node gone and no open watch, or watch to come, on it |
| Progress.LostForGood | gh/detail/election_candidate_impl.hpp:392-452 | a campaign that is lost in this sense stays lost, and not won, whatever happens |
| Progress.CancelLosesIff | gh/detail/election_candidate_impl.hpp:416-424 | a cancelling response loses the campaign exactly if it leaves keys watched and nobody precedes the candidate, or one of them is gone and has no other watch |
| FaultyRuns.CompactionHidesDeletion | gh/detail/election_candidate_impl.hpp:416-424 | a run, for every candidate and predecessor, in which a compaction hides the deletion and the candidate, first in line, cannot win |
| FaultyRuns.StaleKeyKeepsReading | gh/detail/election_candidate_impl.hpp:416-438 | a run in which the hidden key stays behind a predecessor found later; the candidate, first in line, has a Read in flight and can never win |
| OnCourseRuns.StaleReadsForever | gh/detail/election_candidate_impl.hpp:433-438 | a candidate with a Read in flight and a stale key has both at every later time, as long as none of its operations fails and it does not give up |
| FaultyRuns.DeletionWithoutValue | gh/detail/election_candidate_impl.hpp:405-438 | a run in which the deletion of the only predecessor comes without its previous value: the candidate is first in line and its watch open, but the completions of its own operations cannot elect it |
| FaultyRuns.RangeFailure | gh/detail/election_candidate_impl.hpp:339-343 | a run, for every candidate, in which a Range fails and its count stays behind |
| Elections.StuckIsFinal | gh/detail/election_candidate_impl.hpp:442-452 | a campaign with nothing in flight and no victory stays so |
| Observers.ElectionObserver.HandleNodePut | gh/detail/election_observer_impl.hpp:278-290 | the entry is added or replaced, and the result says if the first entry changed |
| Observers.ElectionObserver.HandleNodeDelete | gh/detail/election_observer_impl.hpp:293-302 | the entry is removed if there is one, and the result says if it was the first |
| Observers.ElectionObserver.NotifySubscribers | gh/detail/election_observer_impl.hpp:311-326 | every subscriber is called once with the leader, or with empty strings |
| Observers.ElectionObserver.DoDiscover | gh/detail/election_observer_impl.hpp:178-198 | one Range for the first node of the election |
| Observers.ElectionObserver.HandleRangeRequest | gh/detail/election_observer_impl.hpp:200-218 | a watch from the first node's create revision or the answer's revision, and the leader is reported |
| Observers.ElectionObserver.HandleWatchRead | gh/detail/election_observer_impl.hpp:244-275 | the events are handled in order and the subscribers are called once if any of them changed the leader |
| Observers.ElectionObserver.GetCurrentKey | gh/detail/election_observer_impl.hpp:76-84 | the key of the first participant; it throws exactly if there is none |
| Observers.ElectionObserver.GetCurrentValue | gh/detail/election_observer_impl.hpp:85-93 | its value; it throws exactly if there is none |
| Observers.ElectionObserver.AddSubscriber | gh/detail/election_observer_impl.hpp:94-107 | a new token, and a new subscription; the subscriber is called at once if there is a leader |
| Observers.ElectionObserver.RemoveSubscriber | gh/detail/election_observer_impl.hpp:108-111 | the token is forgotten |
| ObserverRefinement.RevisionKeepsIndex | gh/detail/election_observer_impl.hpp:257-302 | the events of one revision carry correct participants over to that revision |
| ObserverRefinement.FirstRevision | gh/detail/election_observer_impl.hpp:209-217 | the first revision of the replay replaces the value from the future by the original one |
| ObserverRefinement.ReplayIsIndex | gh/detail/election_observer_impl.hpp:200-302 | from the answer's revision on, the replay that starts in the past gives exactly the live nodes |
| ObserverRefinement.IndexIsUnique | gh/detail/election_observer_impl.hpp:330-330 | only one map of participants agrees with the store |
| Subscribers.EventTellsIff | gh/detail/election_observer_impl.hpp:278-302 | an event that the watch delivers changes the leader, or the leader's value, exactly if handling it reports a change |
| ObserverRuns.ObserverRefinesStore | gh/detail/election_observer_impl.hpp:244-309 | in every run, however the responses are batched, the participants of an observer that has processed what the watch it posted reports are exactly the live nodes with their current values |
| ObserverRuns.CurrentLeaderIff | gh/detail/election_observer_impl.hpp:69-93 | a caught-up observer names a leader exactly if the election has a live node; it is the live node created first, with its value |
| Listening.CanCatchUp | gh/detail/election_observer_impl.hpp:112-275 | an observer that was started before it was cleaned up, and met no fault since, knows exactly the live nodes after at most four completions of its own operations |
| Listening.CancelNamesWatch | gh/detail/election_observer_impl.hpp:116-176 | once a response has come in, a request to cancel names the watch the server keeps |
| Listening.DrainedIsFinal | gh/detail/election_observer_impl.hpp:128-134 | after cleanup nothing that calls back into the observer is in flight, then and ever after |
| Subscribers.SubscribeCallsIff | gh/detail/election_observer_impl.hpp:94-107 | a new subscriber of a caught-up observer is called at once exactly if the election has a live node |
| Subscribers.SubscribersKnowLeader | gh/detail/election_observer_impl.hpp:94-111 | after every step whoever has subscribed, and not unsubscribed, was last told the current leader, or that there is none |
| Subscribers.SubscriberIsCalledIff | gh/detail/election_observer_impl.hpp:254-326 | a subscriber is called by a response exactly if some event of it changes the leader or the leader's value, and then once |
| Subscribers.UnsubscribedIsLeftAlone | gh/detail/election_observer_impl.hpp:108-111 | who has unsubscribed is never called again |
| Subscribers.TokensDiffer | gh/detail/election_observer_impl.hpp:104-106 | no two subscribers get the same token |
| Agreement.CandidateIsLeader | gh/detail/election_observer_impl.hpp:76-93 | an elected candidate with a live node is the leader of every caught-up observer, with its node's value |
| Sessions.KeepAliveSession.Preamble | gh/detail/session_impl.hpp:161-184 | the granted lease and time-to-live are taken, whichever was asked for, and the timer is set; a rejected grant shuts the session down and throws |
| Sessions.KeepAliveSession.DoSetTimer | gh/detail/session_impl.hpp:204-216 | the timer is set to a fifth of the time-to-live unless the session is shut down |
| Sessions.KeepAliveSession.HandleTimeout | gh/detail/session_impl.hpp:219-230 | a timer that fires sends a keep-alive |
| Sessions.KeepAliveSession.HandleWrite | gh/detail/session_impl.hpp:233-240 | a keep-alive that was sent is followed by a read |
| Sessions.KeepAliveSession.HandleRead | gh/detail/session_impl.hpp:243-253 | the answer's time-to-live is taken and the timer is set again |
| Sessions.KeepAliveSession.Shutdown | gh/detail/session_impl.hpp:187-201 | two waits with any callbacks running meanwhile; it returns exactly when both are over |
| Sessions.ShutDownDrains | gh/detail/session_impl.hpp:187-201 | when it returns both counters are drained, although callbacks handed work from one to the other, and the timer is gone unless a read completed meanwhile |
| SessionRuns.StepsMakeCallback | gh/detail/session_impl.hpp:204-253 | the steps a callback is taken apart into make up the callback when nothing comes between them |
| SessionRuns.OneOperationPending | gh/detail/session_impl.hpp:204-253 | between any two steps of the callbacks at most one of timer, write and read is in flight or with a callback, and the counters count it and the blocking calls |
| SessionRuns.KeepsGrantedLease | gh/detail/session_impl.hpp:174-230 | from the grant on the session has the granted lease, and so has every keep-alive in flight or about to be posted |
| SessionRuns.ActiveIff | gh/detail/session_impl.hpp:94-96 | until it is shut down a session is active exactly if it was granted a lease, after that it is not |
| SessionRuns.CycleStops | gh/detail/session_impl.hpp:105-140 | once the reads are shut down at most three completions arrive |
| SessionRuns.DrainedIsFinal | gh/detail/session_impl.hpp:187-201 | after shutdown, wherever it stepped into a callback, nothing that calls back is in flight or ever starts |
| KeepAliveTiming.IntervalIsExact | gh/detail/session_impl.hpp:210-210 | a time-to-live in whole seconds divides into five intervals without loss |
| KeepAliveTiming.LateIff | gh/detail/session_impl.hpp:204-253 | a keep-alive comes too late exactly if the answer to the last grant, the timer and the request were late by more than four fifths of the time-to-live in all |
| KeepAliveTiming.LeaseNeverExpires | gh/detail/session_impl.hpp:204-253 | with separate bounds on the three that add up to at most four fifths of every time-to-live granted, no keep-alive of any run comes after the lease has expired; only a keep-alive that names the granted lease renews it |
| KeepAliveTiming.KeepsLeaseIff | gh/detail/session_impl.hpp:36-36 | the bounds keep the lease in every run exactly if they add up to at most four fifths of the least time-to-live granted |

## Left out

- gRPC, protobuf, channels, stubs, interceptors and the request plumbing of gh/completion_queue.hpp: foreign calls and thin wrappers.
- `Elections.DrainedIsFinal`: takes a callback as one step, as all of `Elections` does, and does not hold without that; `CleanupRuns.CleanupLeavesQueryIff` says what holds when cleanup runs in the middle of one.
- `Candidates.ElectionCandidate.DoQueryPredecessor`: nothing comes between its check and its start; `CleanupRuns` takes them apart.
- `Observers.ElectionObserver.AddSubscriber`: the lock that is released around the call is not modelled, because the properties of subscribers need a subscription that does not overlap the handling of events.
- `Listening.DrainedIsFinal`: takes a callback of the observer as one step, and leaves out the blocking call that creates its stream.
- Range answers with an error status: the candidate's callback throws them into the event loop, the observer does not look at the status.
- The order in which `resign` writes its cancel requests, and the several Writes this puts in flight: they are counted on a counter of their own and are not among the operations in flight of a campaign.
- `Elections.NoMissedDeletion`: covers runs without cancelled watches, failed operations, missing previous values and shutdown, because the code promises nothing otherwise.
- `ObserverRuns.ObserverRefinesStore`: covers watches that are not cancelled, with previous values present, because the observer does not restart its watch.
- `Subscribers.SubscribersKnowLeader`: subscribing does not overlap the handling of events and callbacks do not subscribe or unsubscribe, because the code drops its lock around the calls.
- `Candidates.ElectionCandidate.Resign`: closing the stream and reading its final status are blocking calls of gRPC and appear only as counted operations.
- Fairness: `OnCourseRuns.OnCourseIsElected` and `OnCourseRuns.FirstInLineWins` say how many completions that advance the candidate elect it, and the first that one is always possible; that they come is not claimed.
- Integer widths: revisions, counters and times are unbounded; leases are 64 bits wide where they are written as hexadecimal.
- gh/detail/cluster_membership_impl.hpp, gh/detail/rpc_policies.cpp, gh/etcd_client.cpp, gh/log.cpp and gh/assert_throw.cpp: loops over addresses, one-line updates and output, which would only add easy members.
- gh/active_completion_queue.hpp: a thread around the event loop; only its single loop is assumed.
- gh/leader_election.hpp and gh/watch_election.hpp: they forward to the classes modelled here.
