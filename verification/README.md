# A Dafny model of the course repository's distributed programs

The centre is the Raft peer of `lab3/raft/raft.go`, run by any number of servers over the lossy
network of `lab3/labrpc/labrpc.go`. The smaller programs beside it are the FIFO queue and the
channel merge of `lab0`, and the deterministic bcrypt, the ranker, the user and video service
checks and the recommendation pipeline of `lab1`.

`dafny verify dfyconfig.toml` checks the whole project.

## How Raft is modelled

- `RaftCore` has one pure step function for every section of the peer that runs under its lock.
  `RaftPeer` has the peer as a class with the source's fields and loops; every method equates its
  new state with the step function on the old one.
- `Cluster` is the transition relation. An event is one lock-held section of one peer, the loss of a
  call, or a restart. `LateRead` is the section of lines 495-498 when it runs later than its candidacy,
  and asks with whatever the peer then is; `Overwrite` is the copy of line 332 when the handler (299-300)
  has meanwhile written over the array the call shares. A call in flight is handled at most once and answered at most once; nothing
  bounds its delay or its order. `Labrpc` proves, goroutine by goroutine, that the network code does
  no more to a call than these steps of the cluster.
- The ledger of the cluster (votes, bids, tallies, reigns, acknowledgements) and the `full` log
  beside a call are history. They are written by the events and read by no step of a peer.
- The ticker is over-approximated: a follower, or any other server, may become a candidate at any
  time without a term change (line 479), a candidate may stand again at any time (487-498), and any
  server may be put back to follower at any time (511, 515).
- An event's guards stand where Go would panic: a broadcast needs its next indices in range, a
  delivery its log lookup. `NextIndexBounds` and `ApplyStream` prove these guards always true, and
  `AlwaysShaped` proves, for every run, the shape that all events ask for.

The hypotheses:

- **H1**, no restarts, is `NoRestarts`. `AlwaysDurable` does without it.
- **H2**, a request is read in one step with its candidacy, is `NoLateReads`. `AlwaysDurable` does
  without it.
- **H3**, a call's contents are fixed when it is built, is `NoOverwrites`.
- **H4**, calls to append from one leader term to one follower are handled in the order in which
  they were built, is `InOrder`.
- **H5**, no server takes office in two different terms, is `OneTermEach`.

They appear in the theorems as weaker conditions, one for each step:

- for H1, a server that restarts has voted in no term from its persisted one on (`Careful`), so that
  the restart forgets no vote;
- for H2, a request is read in the term of its candidacy (`Timely`), however late;
- for H3, what is written over the array of a call not yet copied is what is there (`Untouched`);
  `OverwriteKeepsIff` says when that is so;
- for H4, an accepted call reaches at least as far as what the follower has acknowledged in that term
  (`Retains`);
- for H5, the match indices a server wins with lie inside its log (`FreshMatches`).

Election safety, log matching, the next-index bounds and the back-up bound need the first three, that
is a `ProperRun`. Completeness, the apply stream and state machine safety need all five; a run that
meets them is an `OrderlyRun`, and `ClassicRunsAreOrderly` derives that from H4, H5 and `ProperRun`.
`ClassicIsProper` makes H1, H2 and H3 the special case. `OrderlyRunsDeliver` and `OrderlyRunsRestart` are
runs that meet them, without and with a restart. For every hypothesis there is a run in which it fails,
and a theorem with it.

Safety alone would allow handlers that do nothing. `Handlers` says, without the step functions' helpers,
when a vote is granted, what a reply records, whom it deposes, what is sent and what is written.
`Delivery` proves that what is committed is on its way to the service, and there when nothing is
pending. `Progress` proves that from every state of an orderly run of two servers or more a leader can
be elected and any command delivered everywhere, as long as some server that a majority would vote for
has no left-over match index past its log (`NoDeadEnd`).

## Where the code departs from Figure 2 of the Raft paper

The comments at lines 63 and 245 of `raft.go` name Figure 2. The model follows the code:

- Line 299 truncates the log at every accepted call, not only at a conflict. `AcceptRetainsIff` says
  exactly when an acknowledged entry is lost, and `SafetyNeedsOrder` is a run, without restarts and
  with one term of office for each server, in which two servers deliver different commands.
- Lines 232-236 do not reset `matchIdx`. `StaleMatchIff` says exactly when the commit loop can count
  a server that has acknowledged nothing, and `SafetyNeedsFreshMatches` is a run, without restarts
  and with calls in order, in which two servers deliver different commands.
- Line 173 grants a vote without persisting it, and line 570 clears it at boot. `RestartForgetsIff`
  says exactly when some request of another server, whether or not any continuation of the run sends
  it, would get a second vote of one term: with three servers or more, exactly when the restart is not
  `Careful`. `ElectionNeedsMemory` is a run with exactly one restart and two leaders of one term.
- Lines 495-498 read the request in a goroutine of its own. `ElectionNeedsTimelyReads` is a run with
  exactly one late read, in a later term than the candidacy's, and two leaders of one term.
- Line 332 copies the entries of a call in a later section than line 407 cuts them out of the shared log.
  `MatchingNeedsFixedCalls` is a run of five servers with exactly one such overwriting, in which a
  follower accepts a mixture of two logs, with decreasing terms and against log matching.

In `lab1/det_bcrypt/det_bcrypt.go` the parser takes more than the printer writes: any byte as a
separator, a plus sign in the cost, and a hash of any length, of which a comparison reads 31 bytes.
`ParseThenPrint`, `PrintThenParse` and `Verdict` give the exact conditions, and `OtherTextsParse` the
families of texts that parse without being canonical.

## Model

| member | source | states |
|---|---|---|
| RaftPeer.Raft.constructor | lab3/raft/raft.go:543-578 | a booted peer is a follower with the saved term and log, no vote, and no indices |
| RaftPeer.Raft.Persist | lab3/raft/raft.go:92-112 | term, vote and log are saved; nothing else changes |
| RaftPeer.Raft.GetState | lab3/raft/raft.go:82-86 | the term, and whether the peer leads |
| RaftPeer.Raft.RequestVote | lab3/raft/raft.go:150-179 | the new state and the reply are those of the pure vote step, on every branch |
| RaftPeer.Raft.FinishRequestVote | lab3/raft/raft.go:208-243 | the handling of a vote reply is the pure step: stale replies ignored, step down, count, win |
| RaftPeer.Raft.AppendEntries | lab3/raft/raft.go:261-318 | the new state and the reply are those of the pure append step, on every branch |
| RaftPeer.Raft.TakeEntries | lab3/raft/raft.go:298-315 | the accepting branch: truncation, append, commit index and pending delivery |
| RaftPeer.Raft.BackUp | lab3/raft/raft.go:290-297 | the conflict loop finds the start of the run of entries with the conflicting term |
| RaftPeer.Raft.FinishAppendEntries | lab3/raft/raft.go:343-388 | the handling of an append reply is the pure step, commit loop included |
| RaftPeer.Raft.AdvanceCommit | lab3/raft/raft.go:367-387 | the downward loop moves the commit index as the pure scan does, and spawns one delivery if it moves |
| RaftPeer.Raft.CountHolders | lab3/raft/raft.go:368-373 | the counter is one more than the number of other servers whose match index reaches the entry |
| RaftPeer.Raft.BroadcastHeartbeat | lab3/raft/raft.go:390-413 | calls go to exactly the other peers with a positive next index, each with the whole rest of the log |
| RaftPeer.Raft.Start | lab3/raft/raft.go:427-443 | a leader appends the command in its term and persists, anybody else does nothing; the results |
| RaftPeer.Raft.ApplyCommitted | lab3/raft/raft.go:306-314 | a delivery sends exactly the entries from the last applied to the commit index, in order |
| RaftPeer.Raft.ElectionTimeout | lab3/raft/raft.go:478-481 | candidate, same term |
| RaftPeer.Raft.BecomeCandidate | lab3/raft/raft.go:487-498 | next term, own vote, and a request with that term and the last entry |
| RaftPeer.Raft.BackToFollower | lab3/raft/raft.go:510-517 | follower, same term |
| RaftCore.AppendKeepsIndexed | lab3/raft/raft.go:298-300 | a well-built call keeps entry k at index k in the follower's log |
| RaftCore.CommitScanIsLargest | lab3/raft/raft.go:367-387 | the loop finds the largest index that the declarative commit rule of Figure 2 allows, and moves nothing only if there is none: stopping at the first older entry loses nothing |
| RaftCore.DeliveriesAt | lab3/raft/raft.go:309-313 | a delivery is the sequence of consecutive indices, each with the command at that index |
| Handlers.VoteIsGrantedIff | lab3/raft/raft.go:155-178 | a vote is refused exactly to an older term, to a rival of the server voted for in that term, or when the voter's last term and index come after the request's; a later term makes a follower, whatever the answer |
| Handlers.ExtensionIsGranted | lab3/raft/raft.go:170 | a candidate of a later term whose log extends the voter's gets the vote |
| Handlers.OneOfTwoIsGranted | lab3/raft/raft.go:170 | of any two servers at least one would be granted the other's vote in a new term |
| Handlers.VoteReplyOrigin | lab3/raft/raft.go:209-217 | a reply to a request was computed by the addressed server's handler at one earlier moment |
| Handlers.AppendReplyOrigin | lab3/raft/raft.go:340-346 | the same for a reply to a call to append |
| Handlers.CandidateIsDeposed | lab3/raft/raft.go:219-225 | a candidate that finishes the reply of a server that was in a later term ends as a follower in exactly that term, without a vote; else it stays in its term |
| Handlers.LeaderIsDeposed | lab3/raft/raft.go:351-358 | a leader that finishes the reply of a server that was in a later term ends as a follower in exactly that term, without a vote, and has persisted this; else it goes on leading |
| Handlers.DemotedIsIdle | lab3/raft/raft.go:508-517 | a server put back to follower counts no vote, takes no reply and no command |
| Handlers.MajorityLeads | lab3/raft/raft.go:226-238 | a counted vote makes a leader exactly when the distinct servers counted are more than half; next indices are then one past the log, and all is persisted |
| Handlers.ReplyIsRecorded | lab3/raft/raft.go:359-386 | a leader's whole state after a reply: an acceptance of entries records the whole log of the call, one of none records nothing, a refusal where to try next; then the commit rule of Figure 2 on what is recorded, and one delivery exactly when the commit index moves |
| Handlers.EveryoneIsAsked | lab3/raft/raft.go:487-506 | a candidacy asks every other server, in the new term, naming the last entry |
| Handlers.EveryoneIsSent | lab3/raft/raft.go:389-413 | a leader's broadcast sends every other server the rest of the log from its next index, with the commit index, and nothing else; nobody else sends |
| Handlers.WhatIsWritten | lab3/raft/raft.go:107-112 | standing, winning, submitting, accepting and a leader's stepping down persist term, vote and log |
| Handlers.WhatIsNotWritten | lab3/raft/raft.go:160-225 | voting, going back, refusing a call and recording a reply persist nothing |
| Handlers.RefusalEffect | lab3/raft/raft.go:262-297 | a refused call leaves all but term, role and vote, and the reply names where to try next: the end of the log, or the start of the whole run of the term in conflict |
| Handlers.BootEffect | lab3/raft/raft.go:543-578 | a server starts as a follower without a vote, in the saved term with the saved log, with nothing committed, delivered or counted, and leaves what is saved as it is, the vote included |
| Handlers.NothingIsBlocked | lab3/raft/raft.go:464-532 | in every run any server may time out, go back, save, restart or take a command at any time, and any call may be lost, handled or finished |
| Delivery.DeliveriesStart | lab3/raft/raft.go:303-315 | a delivery starts exactly when an accepted call carries a later commit index or the commit rule moves it, one each time |
| Delivery.AlwaysOwed | lab3/raft/raft.go:303-315 | in every run, without any hypothesis, what is committed and not delivered has a delivery pending |
| Delivery.QuietServersHaveDelivered | lab3/raft/raft.go:306-314 | H1-H5: a server with no delivery pending has delivered exactly the committed entries of its log, and one pending delivery suffices for that |
| Progress.SomeoneIsSupported | lab3/raft/raft.go:170 | there is always a server that all others would vote for |
| Progress.CanLead | lab3/raft/raft.go:150-243 | H1-H5: from every state with two servers or more, each server that a majority would vote for, and whose match indices lie inside its log, can become a leader whose term no server is past |
| Progress.CanDeliver | lab3/raft/raft.go:245-457 | H1-H5: from every state with such a leader, any command can come to be in every server's log, committed and delivered everywhere, with all before it |
| Progress.NoDeadEnd | lab3/raft/raft.go:150-570 | H1-H5: the two together: for each such server, the run can go on, orderly and without restart, late read or overwriting, to a state in which all servers have delivered that server's log with a given command at its end |
| DurableLog.SpliceOk | lab3/raft/raft.go:298-300 | truncating at an agreeing entry and appending keeps the log well formed and its terms sorted |
| DurableLog.AppendEffect | lab3/raft/raft.go:261-318 | what handling a call does to term, log and persister, for accepted and refused calls |
| DurableLog.DurableStep | lab3/raft/raft.go:92-129 | every event, a restart and a late read included, keeps logs well formed and durable |
| DurableLog.AlwaysShaped | lab3/raft/raft.go:258-315 | in every run, without any hypothesis, entries sit at their indices in logs, persisted logs and calls, and every peer and call has the shape that `Enabled` asks for |
| DurableLog.AlwaysDurable | lab3/raft/raft.go:107-129 | H3: over all runs with any loss, reordering and restarts: indices, sentinel, sorted terms, persisted log equal to the log, persisted term between every entry's term and the current term |
| Elections.MajoritiesMeet | lab3/raft/raft.go:229 | two sets of more than half of the servers share a member |
| Elections.CandidacyStep | lab3/raft/raft.go:487-493 | a candidacy keeps the vote and tally invariants: the vote counter is the number of distinct counted voters, each of which voted so |
| Elections.RestartStep | lab3/raft/raft.go:543-570 | a restart that forgets no vote keeps them |
| Elections.ReadStep | lab3/raft/raft.go:495-498 | a request that is read later, in the term of its candidacy, keeps them |
| Elections.VoteStep | lab3/raft/raft.go:155-178 | a vote request keeps them: one vote for each server and term |
| Elections.CountStep | lab3/raft/raft.go:215-238 | a vote reply keeps them, and a win has a majority of votes and no rival |
| LogMatching.AgreeAt | lab3/raft/raft.go:289-301 | two logs traced to leaders' logs agree up to any entry at which their terms agree |
| LogMatching.SpliceIsFull | lab3/raft/raft.go:298-302 | acceptance makes the follower's log exactly the log the call was cut from |
| LogMatching.HeartbeatsOk | lab3/raft/raft.go:402-408 | a call is built from the whole log of the leader of its term, which is a prefix of the reign's log from at least its start |
| Replication.RejectionBacksUp | lab3/raft/raft.go:283-297 | a refusal of the follower's own term names an index from 1 to the refused one |
| Replication.AcksAfterHandling | lab3/raft/raft.go:298-302 | an acceptance is recorded as an acknowledgement: of entries in the leader's log, in a term that the follower has persisted; a success reply stands for one |
| Replication.NextsAfterReply | lab3/raft/raft.go:359-366 | late and reordered replies keep every next index between 1 and one past the end |
| Acknowledged.AcknowledgedIsHeld | lab3/raft/raft.go:298-302 | H1-H5: a server that is in the term in which it acknowledged entries still holds them as the leader has them |
| Invariant.BasicStep | lab3/raft/raft.go:150-570 | every event, careful restarts, timely reads and copies that change nothing included, keeps the election, log, acknowledgement and next-index invariants |
| Completeness.UpToDateHolds | lab3/raft/raft.go:170 | a candidate whose log passes the comparison holds what the voter holds and a quorum may have acknowledged |
| Completeness.KeepsAfterAccept | lab3/raft/raft.go:298-300 | an accepted call that reaches the follower's acknowledgements cuts off nothing that may be committed |
| Completeness.WinnerHolds | lab3/raft/raft.go:229-236 | a winner's log holds every entry that is or may become committed in an earlier term |
| Commitment.MatchesAfterReply | lab3/raft/raft.go:359-363 | after a success reply the match index stands for an acknowledgement in the leader's term |
| Commitment.CommitIsBacked | lab3/raft/raft.go:367-375 | the quorum the loop counts is a quorum of acknowledgements |
| Commitment.AcceptKeepsCommitted | lab3/raft/raft.go:298-305 | acceptance leaves the committed prefix of the follower as it was |
| Theorems.SoundStep | lab3/raft/raft.go:150-570 | every orderly event, careful restarts included, keeps completeness, the ballots, the match indices, the commit indices and the deliveries |
| Theorems.ElectionSafety | lab3/raft/raft.go:155-238 | H1-H3: two leaders of one term, at any two moments of a run, are the same server; restarts that forget no vote are allowed here and below |
| Theorems.LogMatchingHolds | lab3/raft/raft.go:289-301 | H1-H3: two logs, of servers or in flight, at any two moments, agree up to an entry of equal index and term |
| Theorems.CallsAreSuffixes | lab3/raft/raft.go:402-408 | H3: a call in flight carries its log from the previous index to the end |
| Theorems.LeaderAppendOnly | lab3/raft/raft.go:436-438 | H1-H3: a leader's log is a prefix of its log at any later moment of the same term |
| Theorems.Birth | lab3/raft/raft.go:402-408 | a call in flight was built by a broadcast of the leader of its term from its whole log of that moment, from the next index of its destination on and with its commit index |
| Theorems.AcceptanceCopies | lab3/raft/raft.go:298-302 | H1-H3: right after accepting, a follower has exactly the log the leader had when it built the call |
| Theorems.NextIndexBounds | lab3/raft/raft.go:396-408 | H1-H3: a leader's next indices lie between 1 and one past its log, so no lookup fails, no peer is skipped, and a refusal the leader can act on never names index 0 |
| Theorems.LeaderCompleteness | lab3/raft/raft.go:367-376 | H1-H5: what the commit rule commits is, with all before it, in the log of every server that later takes office in a later term |
| Theorems.CommittedInReign | lab3/raft/raft.go:303-304 | H1-H5: what any server regards as committed is in the log of every reign of a later term |
| Theorems.CommitIndexGrows | lab3/raft/raft.go:303-304 | H1-H5: the commit index never passes the last index, and never decreases but by a restart |
| Theorems.ApplyStream | lab3/raft/raft.go:306-314 | H1-H5: since it started, each server has sent exactly indices 1, 2, 3 and so on, without gap or repeat, whatever number of deliveries is pending, and each pending delivery is in range |
| Theorems.DeliveriesGrow | lab3/raft/raft.go:377-384 | what was delivered stays delivered until the server restarts |
| Theorems.StateMachineSafety | lab3/raft/raft.go:303-315 | H1-H5: two messages with the same index, of any servers at any moments, before or after restarts, have the same command |
| Hypotheses.RetainsByOrder | lab3/raft/raft.go:298-300 | delivery in order implies that an accepted call reaches the follower's acknowledgements |
| Hypotheses.FreshByOneTerm | lab3/raft/raft.go:232-236 | H1-H5: whenever a reply wins an election, the winner's match indices lie inside its log |
| Hypotheses.ClassicRunsAreOrderly | lab3/raft/raft.go:150-570 | H4, H5 and a `ProperRun` imply the step conditions of an orderly run |
| Limits.AcceptRetainsIff | lab3/raft/raft.go:298-300 | after acceptance the follower holds all it has acknowledged if and only if the call reaches that far |
| Limits.OverwriteKeepsIff | lab3/raft/raft.go:299-332 | a call copied late is still a slice of its log if and only if the sender's log has the call's entries as far as both go |
| Limits.StaleMatchIff | lab3/raft/raft.go:232-236 | before any reply, the loop can come to count a server if and only if it is another one whose left-over match index lies past the winner's log |
| Limits.RestartForgetsIff | lab3/raft/raft.go:568-570 | some request of another server, sent by a continuation or not, would get a second vote of one term from the restarted server if and only if it had voted in its persisted term or later and there is a server other than itself and the one it voted for; with three servers or more, if and only if the restart is not careful |
| Counterexamples.SafetyNeedsOrder | lab3/raft/raft.go:299 | a run with H1, H2, H3 and H5 and without H4 that breaks state machine safety |
| Counterexamples.SafetyNeedsFreshMatches | lab3/raft/raft.go:232-236 | a run with H1 to H4 and without H5 that breaks state machine safety |
| Counterexamples.ElectionNeedsMemory | lab3/raft/raft.go:568-570 | a run with exactly one restart, no late read and no overwriting that breaks election safety |
| Counterexamples.ElectionNeedsTimelyReads | lab3/raft/raft.go:495-498 | a run with exactly one late read, no restart and no overwriting that breaks election safety |
| Counterexamples.MatchingNeedsFixedCalls | lab3/raft/raft.go:299-332 | a run with exactly one overwriting, no restart and no late read that breaks log matching and the order of terms in a log |
| Counterexamples.OrderlyRunsDeliver | lab3/raft/raft.go:303-315 | a run that meets H1 to H5 and delivers a committed command, so the theorems are not about nothing |
| Counterexamples.OrderlyRunsRestart | lab3/raft/raft.go:543-570 | an orderly run with exactly one restart, and with a delivery |
| BackUp.RoundShifts | lab3/raft/raft.go:283-302 | in reachable states, a broadcast, the handling of its call and the handling of the reply, whatever else happens in between elsewhere, finish or back up over the run of terms in conflict |
| BackUp.ConflictSkipsTerm | lab3/raft/raft.go:290-297 | a conflict skips at least one distinct term of the follower's log |
| BackUp.FastBackUp | lab3/raft/raft.go:359-366 | in every run, after D + 2 lossless rounds without a new command the logs are equal, D being the number of distinct non-zero terms in the follower's log; every other round moves the next index strictly back |
| BackUp.RoundCommits | lab3/raft/raft.go:303-304 | H1-H5: once a round has made the logs equal, the follower's commit index is at least what the leader's was at the broadcast |
| BackUp.LeadersPair | lab3/raft/raft.go:232-236 | in a state with the basic invariants, the logs of a leader and of any server not past its term agree up to every entry of equal term, and the next indices are in range |
| Labrpc.AtMostOnce | lab3/labrpc/labrpc.go:218-309 | in every interleaving the handler runs at most once, at most one reply is sent, and a reported success carries the handler's result |
| Labrpc.SmoothCallsSucceed | lab3/labrpc/labrpc.go:218-295 | on a network that loses nothing, a Call to a server that stays returns only the handler's result |
| Labrpc.LostCallsFail | lab3/labrpc/labrpc.go:227-280 | after a look that finds the server gone, a dropped request or a dropped reply a Call returns only a failure, and in the first two cases no handler runs |
| Labrpc.CheckIsLast | lab3/labrpc/labrpc.go:268-275 | the last look at the server is the one whose finding a success vouches for |
| Labrpc.ServersComeBack | lab3/labrpc/labrpc.go:208-216 | a Call can succeed after its server was gone |
| Labrpc.CallsEnd | lab3/labrpc/labrpc.go:244-309 | a Call takes at most seven steps but for polls, and until it returns one is possible, for a server that is gone without its handler |
| Labrpc.CallRefinesCluster | lab3/labrpc/labrpc.go:84-309 | every step of the network changes the cluster's set of calls as handling or finishing the one call does, or not at all |
| Labrpc.ClusterSteps | lab3/labrpc/labrpc.go:84-309 | handling and finishing change the cluster's set of calls so, and no other event answers a call or takes an answer away |
| Labrpc.VoteCallMatched | lab3/labrpc/labrpc.go:84-309 | in a cluster that holds a request for a vote, every step of the network that carries it is an event of the cluster that can happen, with that effect on its calls, or none |
| Labrpc.AppendCallMatched | lab3/labrpc/labrpc.go:84-309 | the same for a call to append |
| LinkedQueue.Queue.constructor | lab0/queue.go:20-25 | an empty queue: no head, no tail, no contents |
| LinkedQueue.Queue.Push | lab0/queue.go:29-38 | the value is added behind the contents; the chain of nodes grows by one fresh node |
| LinkedQueue.Queue.Pop | lab0/queue.go:47-60 | the first of the contents is taken, or nothing exactly when the head was nil; head and tail are nil together |
| LinkedQueue.FirstInFirstOut | lab0/queue.go:29-61 | for every sequence of calls, the values popped and then the values left are the values pushed, in order |
| LinkedQueue.RefusedWhenDrained | lab0/queue.go:47-51 | a pop is refused exactly when everything pushed has been popped |
| Merge.MergeSafety | lab0/merge_channels.go:66-113 | in every interleaving with cancellation: one close, no send after it, the closed output is an order-preserving shuffle of the received prefixes, nil means the whole inputs, an error means the context was done |
| Merge.UncancelledMergeIsWhole | lab0/merge_channels.go:23-46 | without a cancellation whatever is closed is a shuffle of both whole inputs |
| Merge.ClosedIsFinal | lab0/merge_channels.go:106-110 | once closed, the output and what was received never change |
| Merge.CancelledReadersStop | lab0/merge_channels.go:78-84 | a reader that looks at the context after the cancellation receives and sends nothing more |
| Merge.ErrorTellsCancellation | lab0/merge_channels.go:66-72 | the result is the context's error exactly when the context was done as the closer asked; a merge begun after the cancellation reads nothing and closes its output |
| Merge.CancelledMergeCanEnd | lab0/merge_channels.go:86-89 | from every state after the cancellation the merge can end without another value or close of its inputs |
| Merge.MergeEnds | lab0/merge_channels.go:75-112 | a merge of m and n values takes at most 3(m + n) + 9 steps, and until the caller has a result some goroutine can step |
| DetBcrypt.Hashed.Hash | lab1/det_bcrypt/det_bcrypt.go:272-292 | the buffer and cursor spell the version, cost, separator, salt, and the hash cut or zero-filled to 31 bytes |
| DetBcrypt.Append | lab1/det_bcrypt/det_bcrypt.go:283-290 | a copy at the cursor and the cursor's move leave the field, cut or zero-filled |
| DetBcrypt.Hashed.DecodeVersion | lab1/det_bcrypt/det_bcrypt.go:294-308 | major and minor versions and the bytes used, or the error, with nothing else changed |
| DetBcrypt.Hashed.DecodeCost | lab1/det_bcrypt/det_bcrypt.go:311-322 | the cost, or the number or range error, with nothing else changed |
| DetBcrypt.NewFromHash | lab1/det_bcrypt/det_bcrypt.go:197-223 | the fresh record is the one the pure parser gives, or the same error |
| DetBcrypt.NewFromPassword | lab1/det_bcrypt/det_bcrypt.go:164-195 | a cost below 1 becomes 10, one above 31 is an error, and the record holds the digest |
| DetBcrypt.GenerateFromPassword | lab1/det_bcrypt/det_bcrypt.go:123-129 | the printed form of that record, or the error |
| DetBcrypt.CompareHashAndPassword | lab1/det_bcrypt/det_bcrypt.go:133-150 | accepts exactly when the text parses and its 31 bytes of hash are those of the password's digest |
| DetBcrypt.PrintThenParse | lab1/det_bcrypt/det_bcrypt.go:197-322 | parsing the printed form gives the record back if and only if the minor version is not a dollar sign, the major is at most 2 and the hash has 31 bytes |
| DetBcrypt.ParseThenPrint | lab1/det_bcrypt/det_bcrypt.go:197-322 | printing the parsed record gives the text back if and only if the text is canonical |
| DetBcrypt.OtherTextsParse | lab1/det_bcrypt/det_bcrypt.go:294-322 | any byte for a separator, a plus sign for the cost's leading zero and any bytes behind the hash parse, and are not canonical |
| DetBcrypt.GeneratedText | lab1/det_bcrypt/det_bcrypt.go:164-195 | a generated text byte by byte, with cost 10 for less than 1, and the refusals |
| DetBcrypt.ParseRefuses | lab1/det_bcrypt/det_bcrypt.go:197-322 | which texts are refused, with which error, in literal bytes, and the record of every other |
| DetBcrypt.GeneratedIsAccepted | lab1/det_bcrypt/det_bcrypt.go:123-150 | a generated hash has 60 bytes, is accepted for its password and for exactly the passwords of the same digest, and its cost reads back |
| Ranker.DotProduct | lab1/ranker/ranker.go:31-38 | for every order in which the map is met, the exact sum over the shared features modulo 2^64 |
| Ranker.FeatureAdds | lab1/ranker/ranker.go:31-38 | nothing shared scores 0, and one more shared feature adds the product of its coefficients modulo 2^64; one that is not shared adds nothing |
| Ranker.OrderIsImmaterial | lab1/ranker/ranker.go:31-38 | any two enumerations of the user's features give the same score |
| Services.DeduplicateIds | lab1/video_service/server_lib/server_lib.go:71-81 | the loop keeps the first occurrences, in order |
| Services.DedupKeepsAll | lab1/video_service/server_lib/server_lib.go:162 | every element once and nothing else; the length changes exactly when there is a duplicate |
| Services.DedupKeepsOrder | lab1/video_service/server_lib/server_lib.go:74-79 | first occurrences stay in their order |
| Services.GetVideo | lab1/video_service/server_lib/server_lib.go:135-181 | the checks in their order, each refusal exactly when it applies, and else all entries or the first missing id |
| Services.GetUser | lab1/user_service/server_lib/server_lib.go:122-163 | the same without the check for duplicates |
| Batching.UpdateUserBatchSize | lab1/video_rec_service/server_lib/server_lib.go:448-488 | after any number of internal errors, probing leaves the smaller of the two limits, each taken as at least 1 |
| Batching.UpdateVideoBatchSize | lab1/video_rec_service/server_lib/server_lib.go:508-548 | the same for the video service |
| Batching.SizeWithinLimit | lab1/video_rec_service/server_lib/server_lib.go:88-92 | before and after probing the size is positive, and within the service's limit if and only if that limit is positive |
| Batching.IssueBatches | lab1/video_rec_service/server_lib/server_lib.go:1041-1066 | the loop issues the full batches and the rest, if any |
| Batching.BatchesSpell | lab1/video_rec_service/server_lib/server_lib.go:1054-1135 | the batches concatenate to the id list |
| Batching.BatchesAreParts | lab1/video_rec_service/server_lib/server_lib.go:1061-1066 | no batch is empty or longer than the batch size, and each is a stretch of the list |
| Batching.BatchesAreFewest | lab1/video_rec_service/server_lib/server_lib.go:1054-1066 | there are as few batches as the size allows, and all but the last are full |
| Batching.VideoBatchesAreAccepted | lab1/video_rec_service/server_lib/server_lib.go:1066-1135 | every batch of a list without duplicates passes the video service's checks if and only if the service's limit is positive |
| Batching.UserBatchesAreAccepted | lab1/video_rec_service/server_lib/server_lib.go:847-896 | the same for the user service and any list |
| Batching.CompletionIsPermutation | lab1/video_rec_service/server_lib/server_lib.go:1189-1195 | in whatever order batches complete, the ids answered are the ids asked, each as often |
| TopVideos.SortIsStable | lab1/video_rec_service/server_lib/server_lib.go:652-654 | the sort is descending, keeps every element and keeps the order within a rank |
| TopVideos.StableSortIsUnique | lab1/video_rec_service/server_lib/server_lib.go:652-654 | any stable descending sort gives the same list |
| TopVideos.RankVideos | lab1/video_rec_service/server_lib/server_lib.go:636-665 | the loop, the sort by the filled map and the cut by a limit give the stable ranking, cut |
| TopVideos.KeptIsMin | lab1/video_rec_service/server_lib/server_lib.go:655-657 | exactly when the cut leaves min(limit, n) videos, given the 32-bit comparison; always below 2^31 videos |
| TopVideos.Int32Wraps | lab1/video_rec_service/server_lib/server_lib.go:655 | the length is compared as its low 32 bits, read as a signed number |
| TopVideos.RankedIsTop | lab1/video_rec_service/server_lib/server_lib.go:655-657 | the ranking of any order of the videos is their top: a prefix, of the length the cut leaves, of a descending arrangement of all of them |
| TopVideos.TopIsUnique | lab1/video_rec_service/server_lib/server_lib.go:652-657 | when no tie reaches into the cut there is one such answer |
| TopVideos.CollectLiked | lab1/video_rec_service/server_lib/server_lib.go:966-977 | the nested loops keep the first occurrences of all likes |
| TopVideos.FetchUsers | lab1/video_rec_service/server_lib/server_lib.go:847-938 | for every order in which the batches complete, what is gathered is the records asked for, each as often, and no call is refused |
| TopVideos.FetchVideos | lab1/video_rec_service/server_lib/server_lib.go:1054-1201 | the same for videos |
| TopVideos.FallBack | lab1/video_rec_service/server_lib/server_lib.go:978-989 | with nothing to rank: the ranked cache, marked stale, or an empty answer |
| TopVideos.AnyScheduleIsTop | lab1/video_rec_service/server_lib/server_lib.go:841-1234 | for all batch sizes and orders of completion the answer is the top of the deduplicated liked videos |
| TopVideos.GetTopVideos | lab1/video_rec_service/server_lib/server_lib.go:825-1237 | a request without failures: fresh, and that top, on every schedule; the fall-back when nothing is liked |
| TopVideos.SchedulesAgreeIff | lab1/video_rec_service/server_lib/server_lib.go:841-1234 | all schedules give the same list if and only if no two different liked videos of equal rank reach into the cut; without a limit, if and only if ranks are pairwise distinct |
| TopVideos.TiesFollowTheSchedule | lab1/video_rec_service/server_lib/server_lib.go:652-657 | for any two videos whose tie reaches into the cut, two schedules give different lists |

## Left out

- Timers, sleeps, random delays, debug output, channel capacities, `Kill` and the liveness of elections: the cluster lets any timeout happen at any time, and `NoDeadEnd` says what can happen, not what must.
- The bytes of labgob and of the persister: values are stored and sent as they are, and a decoding error is not modelled.
- Election safety and completeness across restarts that forget a vote: not kept by this code, see `ElectionNeedsMemory`; durability is proved with any restarts.
- What holds of a run with an untimely read or an overwritten call, beyond `AlwaysShaped` and, for reads, `AlwaysDurable`: election safety and log matching do not, see `ElectionNeedsTimelyReads` and `MatchingNeedsFixedCalls`.
- What a service does with deliveries that repeat after a restart: a restarted server delivers from index 1 again.
- Calls of the cluster carry no end-point names: a request that a new incarnation of a server handles is the same call.
- The machine width of Go's `int` in terms and indices; a log of 2^63 entries is out of reach.
- TopVideos.GetTopVideos: starts from the subscriber's record and models requests without failures; retries, deadlines, error channels, counters and the choice of cached videos are not modelled, and the cache is a parameter.
- Batching.UpdateVideoBatchSize: does not model the ten-second context, connection errors or an unreadable error text, because a request without failures has none.
- Batching.UpdateUserBatchSize: attempts end in an answer or an internal error; the ten-second context, connection errors and an error text that cannot be read for another reason are not modelled.
- DetBcrypt.NewFromPassword: the cipher and the encoded fixed salt are parameters; Blowfish and base64 are foreign libraries.
- The final hash of a score by bcrypt and FNV in `lab1/ranker/ranker.go`: a function of the dot product alone, so a rank is a parameter of the pipeline.
- Merge.MergeEnds: the consumer of the output keeps receiving, and each input is closed by its sender.
- The locking wrapper of the queue: each of its calls is one call of the queue under a mutex, so `FirstInFirstOut` covers every interleaving.
- The refreshing of the trending cache around its batches, which are cut like those of `GetTopVideos`.
- The semaphore and the parallel fetcher of `lab0`: a unit count is easy, and the fetcher leans on a library semaphore.
- gRPC, protocol buffers, failure injection beyond its flag, random data, statistics, command line tools, and the Kubernetes files of `lab2`.
