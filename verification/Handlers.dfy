/** What the handlers owe their callers, said without the helpers they are made of. */
module Handlers {
  import opened Wrappers
  import opened RaftCore
  import opened Cluster
  import opened DurableLog
  import opened Elections
  import opened LogMatching
  import opened Replication
  import opened Invariant

  // ----- requests for votes -----

  // The last entry of the log comes after an entry of this term and index: the term decides first.
  predicate Ahead(log: seq<Entry>, term: nat, index: nat)
    requires |log| > 0
  {
    Last(log).term > term || (Last(log).term == term && Last(log).index > index)
  }

  /** A vote is refused only to a request of an older term, or to one of the current term in which
      another server has the vote, or when the voter's log is ahead; otherwise it is granted.  A
      request of a later term makes a follower of the voter whatever the answer. */
  lemma VoteIsGrantedIff(p: Peer, a: VoteArgs)
    requires |p.log| > 0
    ensures var (q, r) := OnRequestVote(p, a);
            && (!r.granted <==>
                  || a.term < p.term
                  || (a.term == p.term && p.votedFor != -1 && p.votedFor != a.cand)
                  || Ahead(p.log, a.lastTerm, a.lastIdx))
            && q.term == r.term == Max(p.term, a.term)
            && (r.granted ==> q.votedFor == a.cand)
            && (!r.granted ==> q.votedFor == if a.term > p.term then -1 else p.votedFor)
            && q.role == (if a.term > p.term then Follower else p.role)
            && q == p.(term := q.term, votedFor := q.votedFor, role := q.role)
  {
  }

  /** A candidate of a later term whose log extends the voter's gets the vote. */
  lemma ExtensionIsGranted(p: Peer, cand: Peer)
    requires LogOk(cand.log) && |p.log| > 0 && p.log <= cand.log && p.term < cand.term
    ensures OnRequestVote(p, BuildVote(cand)).1.granted
    ensures OnRequestVote(p, BuildVote(cand)).0.votedFor == cand.me
  {
    var m := |p.log| - 1;
    assert p.log[m] == cand.log[m] && cand.log[m].term <= Last(cand.log).term;
  }

  /** Of any two servers at least one would be granted the other's vote in a term new to both. */
  lemma OneOfTwoIsGranted(p: Peer, q: Peer, term: nat)
    requires Indexed(p.log) && Indexed(q.log) && p.term < term && q.term < term
    ensures || OnRequestVote(p, BuildVote(q.(term := term))).1.granted
            || OnRequestVote(q, BuildVote(p.(term := term))).1.granted
  {
  }

  // ----- where replies come from -----

  /** A reply to a request for a vote is what the handler of the addressed server made of it, at one
      earlier moment of the run. */
  lemma {:induction false} VoteReplyOrigin(tr: seq<Cluster>, es: seq<Event>, j: nat, k: Call)
    returns (i: nat)
    requires Run(tr, es) && j < |tr| && k in tr[j].net && k.VoteCall? && k.vr.Some?
    ensures i < j && es[i] == HandleVote(k.(vr := None))
    ensures k.dst < |tr[i].peers| && |tr[i].peers[k.dst].log| > 0
    ensures k.vr.value == OnRequestVote(tr[i].peers[k.dst], k.va).1
  {
    i := j - 1;
    assert StepAt(tr, es, i);
    if k in tr[i].net {
      i := VoteReplyOrigin(tr, es, i, k);
    } else {
      NewVoteReply(tr[i], es[i], k);
    }
  }

  lemma NewVoteReply(c: Cluster, e: Event, k: Call)
    requires Enabled(c, e) && k.VoteCall? && k.vr.Some? && k in Next(c, e).net && k !in c.net
    ensures e == HandleVote(k.(vr := None)) && k.dst < |c.peers| && |c.peers[k.dst].log| > 0
    ensures k.vr.value == OnRequestVote(c.peers[k.dst], k.va).1
  {
    assert e.HandleVote?;
    assert CallShape(e.call, |c.peers|);
  }

  lemma {:induction false} AppendReplyOrigin(tr: seq<Cluster>, es: seq<Event>, j: nat, k: Call)
    returns (i: nat)
    requires Run(tr, es) && j < |tr| && k in tr[j].net && k.AppendCall? && k.ar.Some?
    ensures i < j && es[i] == HandleAppend(k.(ar := None))
    ensures k.dst < |tr[i].peers| && Indexed(tr[i].peers[k.dst].log)
    ensures k.ar.value == OnAppend(tr[i].peers[k.dst], k.aa).1
  {
    i := j - 1;
    assert StepAt(tr, es, i);
    if k in tr[i].net {
      i := AppendReplyOrigin(tr, es, i, k);
    } else {
      NewAppendReply(tr[i], es[i], k);
    }
  }

  lemma NewAppendReply(c: Cluster, e: Event, k: Call)
    requires Enabled(c, e) && k.AppendCall? && k.ar.Some? && k in Next(c, e).net && k !in c.net
    ensures e == HandleAppend(k.(ar := None)) && k.dst < |c.peers| && Indexed(c.peers[k.dst].log)
    ensures k.ar.value == OnAppend(c.peers[k.dst], k.aa).1
  {
    assert e.HandleAppend?;
    assert CallShape(e.call, |c.peers|);
  }

  // ----- deposing -----

  /** A candidate that finishes a reply to its current candidacy from a server that was in a later
      term, when it handled the request, ends as a follower in exactly that term, without a vote and
      without writing anything; from any other server, it stays in its term. */
  lemma CandidateIsDeposed(tr: seq<Cluster>, es: seq<Event>, j: nat, k: Call) returns (i: nat)
    requires Run(tr, es) && j < |es| && es[j] == FinishVote(k) && k.VoteCall?
    requires k.va.cand < |tr[j].peers| && tr[j].peers[k.va.cand].role == Candidate
    requires tr[j].peers[k.va.cand].term == k.va.term
    ensures i < j && es[i] == HandleVote(k.(vr := None)) && k.dst < |tr[i].peers|
    ensures |tr[j + 1].peers| == |tr[j].peers|
    ensures var (voter, p, q) := (tr[i].peers[k.dst], tr[j].peers[k.va.cand], tr[j + 1].peers[k.va.cand]);
            if voter.term > k.va.term
            then q == p.(term := voter.term, votedFor := -1, role := Follower)
            else q.term == p.term && q.votedFor == p.votedFor && q.role != Follower
  {
    assert StepAt(tr, es, j);
    i := VoteReplyOrigin(tr, es, j, k);
  }

  /** A leader that finishes a reply to a call of its own term from a server that was in a later
      term, when it handled the call, ends as a follower in exactly that term, without a vote, and
      has written this; from any other server, it stays the leader of its term. */
  lemma LeaderIsDeposed(tr: seq<Cluster>, es: seq<Event>, j: nat, k: Call) returns (i: nat)
    requires Run(tr, es) && j < |es| && es[j] == FinishAppend(k) && k.AppendCall?
    requires k.aa.leader < |tr[j].peers| && tr[j].peers[k.aa.leader].role == Leader
    requires tr[j].peers[k.aa.leader].term == k.aa.term
    ensures i < j && es[i] == HandleAppend(k.(ar := None)) && k.dst < |tr[i].peers|
    ensures |tr[j + 1].peers| == |tr[j].peers|
    ensures var (other, p, q) := (tr[i].peers[k.dst], tr[j].peers[k.aa.leader], tr[j + 1].peers[k.aa.leader]);
            if other.term > k.aa.term
            then q == p.(term := other.term, votedFor := -1, role := Follower,
                         stable := Stable(other.term, -1, p.log))
            else q.term == p.term && q.role == Leader && q.log == p.log && q.stable == p.stable
  {
    assert StepAt(tr, es, j);
    i := AppendReplyOrigin(tr, es, j, k);
    assert CallShape(k, |tr[j].peers|);
  }

  /** A server that the ticker has put back to follower counts no vote, takes no reply to a call and
      accepts no command, until it stands again. */
  lemma DemotedIsIdle(p: Peer, j: nat, va: VoteArgs, vr: VoteReply, aa: AppendArgs, ar: AppendReply,
                      command: Command)
    requires |p.log| > 0 && j < |p.nextIdx| == |p.matchIdx|
    ensures var q := OnDemote(p);
            && OnVoteReply(q, va, vr) == q && OnAppendReply(q, j, aa, ar) == q
            && OnStart(q, command) == q && q.term == p.term && q.votedFor == p.votedFor
  {
  }

  // ----- counting votes and acknowledgements -----

  /** A vote that counts makes its candidate a leader exactly when the servers whose votes it has
      counted, each once, are then more than half; the new leader's next indices are one past its
      log, and it has written its term, vote and log. */
  lemma MajorityLeads(c: Cluster, k: Call)
    requires Basic(c) && Enabled(c, FinishVote(k)) && k.vr.value.granted
    requires c.peers[k.va.cand].role == Candidate && c.peers[k.va.cand].term == k.va.term
    requires k.vr.value.term <= k.va.term
    ensures var (v, c') := (k.va.cand, Next(c, FinishVote(k)));
            var (p, q) := (c.peers[v], c'.peers[v]);
            && Tally(c'.h, At(v, p.term)) == Tally(c.h, At(v, p.term)) + {k.dst}
            && k.dst !in Tally(c.h, At(v, p.term))
            && (q.role == Leader <==> |Tally(c'.h, At(v, p.term))| > |c.peers| / 2)
            && (q.role == Leader ==>
                  && q.nextIdx == seq(|c.peers|, _ => |p.log|) && q.matchIdx == p.matchIdx
                  && q.stable == Stable(p.term, p.votedFor, p.log))
            && (q.role != Leader ==> q == p.(votes := q.votes))
  {
    assert VoteCallOk(c.h, k);
    assert BidOk(c.h, c.peers, At(k.va.cand, k.va.term));
    assert PeerOk(c.peers[k.va.cand], |c.peers|, k.va.cand);
  }

  // The commit index that the commit rule asks for: the largest that a majority holds, or the old one.
  ghost predicate Commits(p: Peer, commit: nat) {
    if exists N: nat :: Committable(p, N)
    then Committable(p, commit) && forall N: nat :: Committable(p, N) ==> N <= commit
    else commit == p.commit
  }

  lemma LeaderRecords(p: Peer, j: nat, a: AppendArgs, r: AppendReply)
    requires LogOk(p.log) && TermsUpTo(p.log, p.term) && j < |p.nextIdx| == |p.matchIdx|
    requires p.role == Leader && r.term <= p.term == a.term
    ensures var q := OnAppendReply(p, j, a, r);
            && q.nextIdx == (if !r.success then p.nextIdx[j := r.nextTry]
                             else if a.entries == [] then p.nextIdx
                             else p.nextIdx[j := Last(a.entries).index + 1])
            && q.matchIdx == (if r.success && a.entries != [] then p.matchIdx[j := Last(a.entries).index]
                              else p.matchIdx)
            && Commits(q.(commit := p.commit), q.commit)
            && q.pending == p.pending + (if q.commit > p.commit then 1 else 0)
            && q == p.(nextIdx := q.nextIdx, matchIdx := q.matchIdx, commit := q.commit,
                       pending := q.pending)
  {
    var q := Progress(p, j, a, r);
    CommitScanIsLargest(q);
    SameCommits(q, Advance(q).(commit := p.commit));
  }

  /** What a leader makes of a reply to a call of its own term, from a server not past it.  Acceptance
      of entries records that the server has all the log that the call was cut from; acceptance of
      none records nothing; a refusal records where to try next.  In every case the commit rule is
      applied to what is then recorded, and a delivery is started exactly when the commit index moves. */
  lemma ReplyIsRecorded(c: Cluster, k: Call)
    requires Basic(c) && Enabled(c, FinishAppend(k))
    requires c.peers[k.aa.leader].role == Leader && c.peers[k.aa.leader].term == k.aa.term
    requires k.ar.value.term <= k.aa.term
    ensures k.dst < |c.peers| == |c.peers[k.aa.leader].nextIdx| == |c.peers[k.aa.leader].matchIdx|
    ensures var (p, q, r) := (c.peers[k.aa.leader], Next(c, FinishAppend(k)).peers[k.aa.leader], k.ar.value);
            && q.nextIdx == (if !r.success then p.nextIdx[k.dst := r.nextTry]
                             else if k.aa.entries == [] then p.nextIdx
                             else p.nextIdx[k.dst := |k.full|])
            && q.matchIdx == (if r.success && k.aa.entries != [] then p.matchIdx[k.dst := |k.full| - 1]
                              else p.matchIdx)
            && Commits(q.(commit := p.commit), q.commit)
            && q.pending == p.pending + (if q.commit > p.commit then 1 else 0)
            && q == p.(nextIdx := q.nextIdx, matchIdx := q.matchIdx, commit := q.commit,
                       pending := q.pending)
  {
    var p := c.peers[k.aa.leader];
    assert PeerOk(p, |c.peers|, k.aa.leader);
    assert CallOk(k, |c.peers|);
    LeaderRecords(p, k.dst, k.aa, k.ar.value);
  }

  lemma SameCommits(p: Peer, q: Peer)
    requires q.commit == p.commit && q.log == p.log && q.term == p.term
    requires q.matchIdx == p.matchIdx && q.me == p.me
    ensures forall N: nat :: Committable(p, N) <==> Committable(q, N)
  {
    assert forall N: nat :: Holders(p, N) == Holders(q, N);
  }

  // ----- asking and sending -----

  /** A candidacy asks every other server for its vote in the new term, naming the last entry. */
  lemma EveryoneIsAsked(c: Cluster, v: nat, j: nat)
    requires Enabled(c, Candidacy(v)) && j < |c.peers| && j != v
    ensures var (p, c') := (c.peers[v], Next(c, Candidacy(v)));
            && |c'.peers| == |c.peers| && c'.peers[v].term == p.term + 1
            && VoteCall(j, VoteArgs(p.term + 1, v, |p.log| - 1, Last(p.log).term), None) in c'.net
  {
    var va := BuildVote(OnCandidacy(c.peers[v]));
    assert VoteCall(j, va, None) in Ballots(c, v, va);
  }

  // A call of v to j as a broadcast has to build it now: from the next index to the end, with the
  // commit index.
  ghost predicate Current(c: Cluster, v: nat, j: nat, k: Call)
    requires v < |c.peers|
  {
    var p := c.peers[v];
    && k.AppendCall? && k.id == c.clock && k.dst == j && k.full == p.log && k.ar.None?
    && j < |p.nextIdx| && 1 <= p.nextIdx[j] <= |p.log|
    && k.aa == AppendArgs(p.term, v, p.nextIdx[j] - 1, p.log[p.nextIdx[j] - 1].term,
                          p.log[p.nextIdx[j]..], p.commit)
  }

  ghost predicate Sends(c: Cluster, v: nat, j: nat, net: set<Call>)
    requires v < |c.peers|
  {
    exists k :: k in net && Current(c, v, j, k)
  }

  /** A leader's broadcast sends every other server a call with what it may lack; a broadcast of
      another server sends nothing. */
  lemma EveryoneIsSent(c: Cluster, v: nat)
    requires Basic(c) && Enabled(c, Broadcast(v))
    ensures var c' := Next(c, Broadcast(v));
            && c'.peers == c.peers && c.net <= c'.net
            && (c.peers[v].role == Leader ==>
                  forall j: nat :: j < |c.peers| && j != v ==> Sends(c, v, j, c'.net))
            && (forall k :: k in c'.net && k !in c.net ==>
                  c.peers[v].role == Leader && k.dst != v && Current(c, v, k.dst, k))
  {
    var p := c.peers[v];
    assert PeerOk(p, |c.peers|, v);
    assert NextsOk(c.peers[v]);
    NextsReach(p, |c.peers|, v);
    forall j: nat | p.role == Leader && j < |c.peers| && j != v
      ensures Sends(c, v, j, Next(c, Broadcast(v)).net)
    {
      var k := AppendCall(c.clock, j, BuildAppend(p, j), p.log, None);
      assert k in Heartbeats(c, v);
      assert Current(c, v, j, k) && k in Next(c, Broadcast(v)).net;
    }
  }

  // ----- what is written -----

  predicate Written(p: Peer) {
    p.stable == Stable(p.term, p.votedFor, p.log)
  }

  /** Standing, winning, submitting, accepting and a leader's stepping down write the term, the vote
      and the log. */
  lemma WhatIsWritten(p: Peer, va: VoteArgs, vr: VoteReply, aa: AppendArgs, ar: AppendReply, j: nat,
                      command: Command)
    requires Indexed(p.log) && j < |p.nextIdx| == |p.matchIdx|
    ensures Written(OnTimeout(p)) && OnTimeout(p) == p.(role := Candidate, stable := OnTimeout(p).stable)
    ensures Written(OnCandidacy(p))
    ensures OnVoteReply(p, va, vr).role == Leader ==> p.role == Leader || Written(OnVoteReply(p, va, vr))
    ensures p.role == Leader ==> Written(OnStart(p, command))
    ensures Accepts(p, aa) ==> Written(OnAppend(p, aa).0)
    ensures p.role == Leader && OnAppendReply(p, j, aa, ar).role != Leader ==>
              Written(OnAppendReply(p, j, aa, ar))
  {
  }

  /** Nothing is written when a vote is asked for, when a candidate goes back, when a call is refused
      for its term or for a missing or different previous entry, or when a reply is recorded. */
  lemma WhatIsNotWritten(p: Peer, va: VoteArgs, vr: VoteReply, aa: AppendArgs, ar: AppendReply, j: nat)
    requires LogOk(p.log) && j < |p.nextIdx| == |p.matchIdx|
    requires aa.prevIdx == 0 ==> aa.prevTerm == 0
    ensures OnRequestVote(p, va).0.stable == p.stable && OnDemote(p).stable == p.stable
    ensures OnVoteReply(p, va, vr).role != Leader ==> OnVoteReply(p, va, vr).stable == p.stable
    ensures !Accepts(p, aa) ==> OnAppend(p, aa).0.stable == p.stable
    ensures OnAppendReply(p, j, aa, ar).role == p.role ==> OnAppendReply(p, j, aa, ar).stable == p.stable
  {
  }

  /** A refused call leaves everything but the term, the role and the vote, and these unless its term
      is later; the reply names the follower's term and where to try next: the end of the log if the
      call is of an older term or starts past the end, and else the start of the run of the term in
      conflict. */
  lemma RefusalEffect(p: Peer, a: AppendArgs)
    requires LogOk(p.log) && !Accepts(p, a) && (a.prevIdx == 0 ==> a.prevTerm == 0)
    ensures var (q, r) := OnAppend(p, a);
            && !r.success && r.term == q.term == Max(p.term, a.term)
            && q == (if a.term > p.term then p.(term := a.term, votedFor := -1, role := Follower) else p)
            && (a.term < p.term || a.prevIdx >= |p.log| ==> r.nextTry == |p.log|)
            && (a.term >= p.term && a.prevIdx < |p.log| ==>
                  && 1 <= r.nextTry <= a.prevIdx
                  && (forall i :: r.nextTry <= i <= a.prevIdx ==> p.log[i].term == p.log[a.prevIdx].term)
                  && p.log[r.nextTry - 1].term != p.log[a.prevIdx].term)
  {
  }

  // ----- starting, and what can happen at any time -----

  /** A server starts as a follower without a vote, in the persisted term with the persisted log, or in
      term 0 with the sentinel alone; nothing is committed, delivered, pending or counted, and what is
      persisted stays as it is, the vote included. */
  lemma BootEffect(n: nat, me: nat, s: Stable)
    ensures var p := Boot(n, me, Some(s));
            && p.stable == s && p.term == s.term && p.log == s.log && p.votedFor == -1
            && p.role == Follower && p.me == me
            && p.votes == p.commit == p.applied == p.pending == 0
            && |p.nextIdx| == |p.matchIdx| == n
            && (forall j :: 0 <= j < n ==> p.nextIdx[j] == p.matchIdx[j] == 0)
    ensures Boot(n, me, None) == Boot(n, me, Some(Stable(0, 0, [SENTINEL])))
  {
  }

  /** Nothing holds the environment back: in every state of every run, any server may time out, go
      back, save, restart or be given a command; any call may be lost; and any is handled if it is
      unanswered and finished if it is answered. */
  lemma NothingIsBlocked(tr: seq<Cluster>, es: seq<Event>, i: nat, v: nat, command: Command)
    requires Run(tr, es) && i < |tr| && v < |tr[i].peers|
    ensures Enabled(tr[i], Timeout(v)) && Enabled(tr[i], Demote(v)) && Enabled(tr[i], Heartbeat(v))
    ensures Enabled(tr[i], Restart(v)) && Enabled(tr[i], Submit(v, command))
    ensures tr[i].peers[v].role == Candidate ==> Enabled(tr[i], Candidacy(v))
    ensures forall k :: k in tr[i].net ==>
              && Enabled(tr[i], Lose(k))
              && match k
                 case VoteCall(_, _, r) =>
                   if r.None? then Enabled(tr[i], HandleVote(k)) else Enabled(tr[i], FinishVote(k))
                 case AppendCall(_, _, _, _, r) =>
                   if r.None? then Enabled(tr[i], HandleAppend(k)) && Enabled(tr[i], Overwrite(k))
                   else Enabled(tr[i], FinishAppend(k))
  {
    AlwaysShaped(tr, es, i);
  }
}
