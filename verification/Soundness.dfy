/**
    The invariants that need the hypotheses on single steps.

    The run is proper, accepted calls retain what was acknowledged, and a winner's match indices are
    fresh.  Every kind of event is taken in turn; the case distinction over all of them is
    `SoundStep` in module Theorems.
*/
module Soundness {
  import opened Wrappers
  import opened RaftCore
  import opened Cluster
  import opened DurableLog
  import opened Elections
  import opened LogMatching
  import opened Replication
  import opened Invariant
  import opened Completeness
  import opened Commitment

  ghost predicate Sound(c: Cluster) {
    && Basic(c)
    && Complete(c) && Keeps(c) && BallotsOk(c)
    && MatchesOk(c) && CommitsOk(c)
  }

  // The hypotheses, each as weak as the proof allows: conditions on a single step.
  predicate Orderly(c: Cluster, e: Event)
    requires Enabled(c, e)
  {
    && Proper(c, e)
    && (e.HandleAppend? && Accepts(c.peers[e.call.dst], e.call.aa) ==> Retains(c.h, e.call))
    && (e.FinishVote? && Wins(c.peers[e.call.va.cand], e.call.va, e.call.vr.value) ==>
          FreshMatches(c.peers[e.call.va.cand]))
  }

  lemma InitSound(c: Cluster)
    requires Init(c)
    ensures Sound(c)
  {
  }

  // ----- commit indices and deliveries when one peer changes -----

  lemma CommitsStep(c: Cluster, c': Cluster, v: nat, p': Peer)
    requires CommitsOk(c) && Advances(c, c') && v < |c.peers|
    requires c'.peers == c.peers[v := p'] && |c'.sent| == |c.sent|
    requires forall w :: 0 <= w < |c.sent| && w != v ==> c'.sent[w] == c.sent[w]
    requires CommitOk(c', v, p') && DeliveredOk(p', c'.sent[v])
    requires forall k :: k in c'.net && k.AppendCall? ==> k in c.net || CallCommitOk(c', k)
    ensures CommitsOk(c')
  {
    forall w: nat | w < |c'.peers| ensures CommitOk(c', w, c'.peers[w]) {
      if w != v {
        assert CommitOk(c, w, c.peers[w]) && DeliveredOk(c.peers[w], c.sent[w]);
        CommitKept(c, c', w, c.peers[w], c.peers[w]);
      }
    }
    forall w: nat | w < |c'.peers| ensures DeliveredOk(c'.peers[w], c'.sent[w]) {
      assert w != v ==> DeliveredOk(c.peers[w], c.sent[w]);
    }
    forall k | k in c'.net && k.AppendCall? ensures CallCommitOk(c', k) {
      if k in c.net {
        assert CallCommitOk(c, k);
        CallCommitKept(c, c', k, k);
      }
    }
  }

  lemma CommitsQuiet(c: Cluster, c': Cluster, v: nat, p': Peer)
    requires CommitsOk(c) && Advances(c, c') && v < |c.peers|
    requires c'.peers == c.peers[v := p'] && c'.sent == c.sent
    requires p'.log == c.peers[v].log && p'.commit == c.peers[v].commit
    requires p'.applied == c.peers[v].applied && p'.term >= c.peers[v].term
    requires forall k :: k in c'.net && k.AppendCall? ==> k in c.net || CallCommitOk(c', k)
    ensures CommitsOk(c')
  {
    assert CommitOk(c, v, c.peers[v]) && DeliveredOk(c.peers[v], c.sent[v]);
    CommitKept(c, c', v, c.peers[v], p');
    CommitsStep(c, c', v, p');
  }

  // ----- the events -----

  // A step that changes no log, commit index or part of the ledger.
  lemma SoundQuiet(c: Cluster, c': Cluster, v: nat, p': Peer)
    requires Sound(c) && Basic(c') && v < |c.peers| && c'.peers == c.peers[v := p']
    requires p'.term >= c.peers[v].term && p'.log == c.peers[v].log
    requires p'.commit == c.peers[v].commit && p'.applied == c.peers[v].applied
    requires p'.matchIdx == c.peers[v].matchIdx && p'.me == v == c.peers[v].me
    requires c'.h == c.h && c'.sent == c.sent
    requires forall k :: k in c'.net ==> k in c.net || (k.AppendCall? && CallCommitOk(c', k))
    ensures Sound(c')
  {
    CompleteKept(c, c');
    BallotsKept(c, c');
    KeepsKept(c, c');
    MatchesKept(c, c', v, p');
    CommitsQuiet(c, c', v, p');
  }

  lemma SoundLocal(c: Cluster, e: Event)
    requires Sound(c) && Enabled(c, e) && (e.Timeout? || e.Demote? || e.Heartbeat?)
    ensures Sound(Next(c, e))
  {
    BasicStep(c, e);
    SoundQuiet(c, Next(c, e), e.v, Next(c, e).peers[e.v]);
  }

  lemma SoundLose(c: Cluster, k: Call)
    requires Sound(c) && Enabled(c, Lose(k))
    ensures Sound(Next(c, Lose(k)))
  {
    BasicStep(c, Lose(k));
    assert CallShape(k, |c.peers|);
    SoundQuiet(c, Next(c, Lose(k)), k.dst, c.peers[k.dst]);
  }

  lemma SoundBroadcast(c: Cluster, v: nat)
    requires Sound(c) && Enabled(c, Broadcast(v))
    ensures Sound(Next(c, Broadcast(v)))
  {
    var c' := Next(c, Broadcast(v));
    BasicStep(c, Broadcast(v));
    var p := c.peers[v];
    assert CommitOk(c, v, p);
    assert DeliveredOk(c.peers[v], c.sent[v]);
    CommitKept(c, c', v, p, p);
    forall k | k in Heartbeats(c, v)
      ensures k.AppendCall? && CallCommitOk(c', k)
    {
      BroadcastCommit(c', v, p, k);
    }
    SoundQuiet(c, c', v, p);
  }

  lemma BroadcastCommit(c: Cluster, v: nat, p: Peer, k: Call)
    requires CommitOk(c, v, p) && k.AppendCall?
    requires k.full == p.log && k.aa.commit == p.commit && k.aa.term == p.term
    ensures CallCommitOk(c, k)
  {
  }

  lemma SoundDeliver(c: Cluster, v: nat)
    requires Sound(c) && Enabled(c, Deliver(v))
    ensures Sound(Next(c, Deliver(v)))
  {
    var c' := Next(c, Deliver(v));
    var p := c.peers[v];
    BasicStep(c, Deliver(v));
    CompleteKept(c, c');
    BallotsKept(c, c');
    KeepsKept(c, c');
    MatchesKept(c, c', v, OnApply(p));
    assert CommitOk(c, v, c.peers[v]) && DeliveredOk(c.peers[v], c.sent[v]);
    DeliveriesJoin(p.log, p.applied, p.commit);
    CommitKept(c, c', v, p, OnApply(p));
    CommitsStep(c, c', v, OnApply(p));
  }

  lemma {:induction false} DeliveriesJoin(log: seq<Entry>, mid: nat, to: nat)
    requires mid <= to < |log|
    ensures Deliveries(log, 0, mid) + Deliveries(log, mid, to) == Deliveries(log, 0, to)
  {
    if mid < to {
      DeliveriesJoin(log, mid, to - 1);
    }
  }

  lemma {:induction false} DeliveriesSame(a: seq<Entry>, b: seq<Entry>, to: nat)
    requires to < |a| && to < |b| && a[..to + 1] == b[..to + 1]
    ensures Deliveries(a, 0, to) == Deliveries(b, 0, to)
  {
    if to > 0 {
      assert a[..to] == a[..to + 1][..to] == b[..to + 1][..to] == b[..to];
      DeliveriesSame(a, b, to - 1);
      assert a[to] == a[..to + 1][to] == b[..to + 1][to] == b[to];
    }
  }

  lemma SoundCandidacy(c: Cluster, v: nat)
    requires Sound(c) && Enabled(c, Candidacy(v))
    ensures Sound(Next(c, Candidacy(v)))
  {
    var c' := Next(c, Candidacy(v));
    BasicStep(c, Candidacy(v));
    FreshBid(c, v);
    CompleteKept(c, c');
    BallotsAfterCandidacy(c, c', v);
    KeepsKept(c, c');
    MatchesKept(c, c', v, OnCandidacy(c.peers[v]));
    CommitsQuiet(c, c', v, OnCandidacy(c.peers[v]));
  }

  lemma SoundHandleVote(c: Cluster, k: Call)
    requires Sound(c) && Enabled(c, HandleVote(k))
    ensures Sound(Next(c, HandleVote(k)))
  {
    var c' := Next(c, HandleVote(k));
    var (p', r) := OnRequestVote(c.peers[k.dst], k.va);
    BasicStep(c, HandleVote(k));
    SoundVote(c, c', k, p', r);
  }

  lemma SoundVote(c: Cluster, c': Cluster, k: Call, p': Peer, r: VoteReply)
    requires Sound(c) && Basic(c') && k in c.net && k.VoteCall? && k.dst < |c.peers|
    requires PeerOk(c.peers[k.dst], |c.peers|, k.dst)
    requires (p', r) == OnRequestVote(c.peers[k.dst], k.va)
    requires c'.peers == c.peers[k.dst := p'] && c'.h == RecordVote(c.h, k.dst, k.va, r)
    requires c'.net == c.net - {k} + {k.(vr := Some(r))} && c'.sent == c.sent
    ensures Sound(c')
  {
    VoteAdvances(c, c', k, p', r);
    CompleteKept(c, c');
    BallotsAfterGrant(c, c', k, p', r);
    KeepsKept(c, c');
    MatchesKept(c, c', k.dst, p');
    CommitsQuiet(c, c', k.dst, p');
  }

  lemma VoteAdvances(c: Cluster, c': Cluster, k: Call, p': Peer, r: VoteReply)
    requires ElectionsOk(c) && k in c.net && k.VoteCall? && k.dst < |c.peers|
    requires |c.peers[k.dst].log| > 0 && (p', r) == OnRequestVote(c.peers[k.dst], k.va)
    requires c'.peers == c.peers[k.dst := p'] && c'.h == RecordVote(c.h, k.dst, k.va, r)
    ensures Advances(c, c') && VotesGrow(c.h, c'.h)
  {
    if r.granted {
      assert VoteCallOk(c.h, k);
      VotesAfterGrant(c, c', k.dst, k.va);
    }
  }

  lemma SoundFinishVote(c: Cluster, k: Call)
    requires Sound(c) && Enabled(c, FinishVote(k)) && Orderly(c, FinishVote(k))
    ensures Sound(Next(c, FinishVote(k)))
  {
    var c' := Next(c, FinishVote(k));
    var v := k.va.cand;
    var p' := OnVoteReply(c.peers[v], k.va, k.vr.value);
    BasicStep(c, FinishVote(k));
    if Wins(c.peers[v], k.va, k.vr.value) && p'.term !in c.h.reigns {
      SoundWin(c, c', k, p');
    } else {
      SoundCount(c, c', v, p');
    }
  }

  // A reply that does not found a reign: at most the tally changes.
  lemma SoundCount(c: Cluster, c': Cluster, v: nat, p': Peer)
    requires Sound(c) && Basic(c') && v < |c.peers| && c'.peers == c.peers[v := p']
    requires p'.term >= c.peers[v].term && p'.log == c.peers[v].log
    requires p'.commit == c.peers[v].commit && p'.applied == c.peers[v].applied
    requires p'.matchIdx == c.peers[v].matchIdx && p'.me == v == c.peers[v].me
    requires c'.h == c.h.(tally := c'.h.tally) && c'.sent == c.sent
    requires forall k :: k in c'.net ==> k in c.net
    ensures Sound(c')
  {
    CompleteKept(c, c');
    BallotsKept(c, c');
    KeepsKept(c, c');
    MatchesKept(c, c', v, p');
    CommitsQuiet(c, c', v, p');
  }

  lemma SoundWin(c: Cluster, c': Cluster, k: Call, p': Peer)
    requires Sound(c) && Basic(c') && k in c.net && k.VoteCall? && k.vr.Some?
    requires k.va.cand < |c.peers| && c'.peers == c.peers[k.va.cand := p']
    requires p' == OnVoteReply(c.peers[k.va.cand], k.va, k.vr.value)
    requires Wins(c.peers[k.va.cand], k.va, k.vr.value) && p'.term !in c.h.reigns
    requires FreshMatches(c.peers[k.va.cand])
    requires c'.h == RecordCount(c.h, c.peers[k.va.cand], k.dst, k.va, k.vr.value)
    requires c'.net == c.net - {k} && c'.sent == c.sent
    ensures Sound(c')
  {
    var v := k.va.cand;
    NewReign(c, c', k, p');
    assert PeerOk(c.peers[v], |c.peers|, v);
    CompleteAfterWin(c, c', v, p'.log, p'.term);
    OthersAfterWin(c, c', v, p');
    MatchesAfterWin(c, c', v, p');
    CommitsQuiet(c, c', v, p');
  }

  lemma NewReign(c: Cluster, c': Cluster, k: Call, p': Peer)
    requires Basic(c) && Basic(c') && k in c.net && k.VoteCall? && k.vr.Some?
    requires k.va.cand < |c.peers| && c'.peers == c.peers[k.va.cand := p']
    requires p' == OnVoteReply(c.peers[k.va.cand], k.va, k.vr.value)
    requires Wins(c.peers[k.va.cand], k.va, k.vr.value) && p'.term !in c.h.reigns
    requires c'.h == RecordCount(c.h, c.peers[k.va.cand], k.dst, k.va, k.vr.value)
    ensures Advances(c, c')
    ensures At(k.va.cand, p'.term) in c.h.bids
    ensures c.h.bids[At(k.va.cand, p'.term)] == p'.log
    ensures |Voters(c.h.votes, |c.peers|, At(k.va.cand, p'.term))| > |c.peers| / 2
  {
    assert VoteCallOk(c.h, k);
    assert BidLogOk(c.h, c.peers, At(k.va.cand, p'.term));
    assert Elected(c'.h, |c'.peers|, p'.term);
    NotVotedPast(c, k.va.cand, p'.term);
    assert At(k.va.cand, p'.term) in c.h.acks ==> AckOk(c.h, c.peers, At(k.va.cand, p'.term));
  }

  lemma SoundHandleAppend(c: Cluster, k: Call)
    requires Sound(c) && Enabled(c, HandleAppend(k)) && Orderly(c, HandleAppend(k))
    ensures Sound(Next(c, HandleAppend(k)))
  {
    var c' := Next(c, HandleAppend(k));
    var p := c.peers[k.dst];
    var (p', r) := OnAppend(p, k.aa);
    BasicStep(c, HandleAppend(k));
    AppendEffect(p, k.aa);
    if Accepts(p, k.aa) {
      SoundAccept(c, c', k, p', r);
    } else {
      assert CallCommitOk(c, k);
      CallCommitKept(c, c', k, k.(ar := Some(r)));
      SoundQuiet(c, c', k.dst, p');
    }
  }

  lemma SoundAccept(c: Cluster, c': Cluster, k: Call, p': Peer, r: AppendReply)
    requires Sound(c) && Basic(c') && k in c.net && k.AppendCall? && k.dst < |c.peers|
    requires Accepts(c.peers[k.dst], k.aa) && Retains(c.h, k)
    requires (p', r) == OnAppend(c.peers[k.dst], k.aa)
    requires c'.peers == c.peers[k.dst := p'] && c'.sent == c.sent
    requires c'.h == RecordAck(c.h, k.dst, k.aa, r)
    requires c'.net == c.net - {k} + {k.(ar := Some(r))}
    ensures Sound(c')
  {
    AcceptEffect(c, c', k, p', r);
    CompleteKept(c, c');
    BallotsKept(c, c');
    KeepsAfterAccept(c, c', k, p');
    MatchesKept(c, c', k.dst, p');
    CommitAfterAccept(c, c', k, p');
    assert CallCommitOk(c, k);
    CallCommitKept(c, c', k, k.(ar := Some(r)));
    CommitsStep(c, c', k.dst, p');
  }

  // What an accepted call changes, in terms of the sender's log.
  lemma AcceptState(p: Peer, k: Call)
    requires k.AppendCall? && LogOk(p.log) && Accepts(p, k.aa)
    requires SliceOf(k.aa, k.full) && LogOk(k.full) && Splice(p.log, k.aa) == k.full
    ensures var (q, r) := OnAppend(p, k.aa);
            && q.log == k.full && p.term <= q.term == k.aa.term
            && q.me == p.me && q.matchIdx == p.matchIdx && q.applied == p.applied
            && q.commit == (if k.aa.commit > p.commit then Min(k.aa.commit, |k.full| - 1)
                            else p.commit)
            && r == AppendReply(k.aa.term, true, |k.full| - 1)
  {
  }

  // An accepted call makes the follower's log the sender's, and is not the sender's own.
  lemma AcceptedLogs(c: Cluster, k: Call)
    requires Durable(c) && LogsOk(c) && k in c.net && k.AppendCall? && k.dst < |c.peers|
    requires Accepts(c.peers[k.dst], k.aa)
    ensures ReplOk(c.h, k) && LogOk(c.peers[k.dst].log) && Splice(c.peers[k.dst].log, k.aa) == k.full
    ensures c.peers[k.dst].me == k.dst && k.aa.term in c.h.reigns
    ensures c.h.reigns[k.aa.term].leader != k.dst
  {
    assert PeerOk(c.peers[k.dst], |c.peers|, k.dst);
    assert ReplOk(c.h, k) && ReignOk(c.h, c.peers, k.aa.term) && Sane(c.h, c.peers[k.dst].log);
    SpliceIsFull(c.h, c.peers, c.peers[k.dst], k);
  }

  lemma AcceptEffect(c: Cluster, c': Cluster, k: Call, p': Peer, r: AppendReply)
    requires Durable(c) && VotesOk(c) && LogsOk(c)
    requires k in c.net && k.AppendCall? && k.dst < |c.peers|
    requires Accepts(c.peers[k.dst], k.aa)
    requires (p', r) == OnAppend(c.peers[k.dst], k.aa)
    requires c'.peers == c.peers[k.dst := p']
    requires c'.h == RecordAck(c.h, k.dst, k.aa, r)
    ensures ReplOk(c.h, k) && LogOk(c.peers[k.dst].log) && Splice(c.peers[k.dst].log, k.aa) == k.full
    ensures p'.log == k.full && p'.term == k.aa.term && p'.me == k.dst == c.peers[k.dst].me
    ensures p'.matchIdx == c.peers[k.dst].matchIdx
    ensures var b := At(k.dst, k.aa.term);
            c'.h == c.h.(acks := c.h.acks[b := Max(Acked(c.h, b), |k.full| - 1)])
    ensures Advances(c, c')
    ensures c.h.reigns[k.aa.term].leader != k.dst
  {
    AcceptedLogs(c, k);
    AcceptState(c.peers[k.dst], k);
    AckAdvances(c, c', k, p');
  }

  lemma AckAdvances(c: Cluster, c': Cluster, k: Call, p': Peer)
    requires VotesOk(c) && k.AppendCall? && k.dst < |c.peers| && c'.peers == c.peers[k.dst := p']
    requires c.peers[k.dst].term <= k.aa.term == p'.term && |k.full| > 0
    requires var b := At(k.dst, k.aa.term);
             c'.h == c.h.(acks := c.h.acks[b := Max(Acked(c.h, b), |k.full| - 1)])
    ensures Advances(c, c')
  {
    NotVotedPast(c, k.dst, k.aa.term);
  }

  lemma CommitAfterAccept(c: Cluster, c': Cluster, k: Call, p': Peer)
    requires CommitsOk(c) && Complete(c) && Advances(c, c')
    requires k in c.net && k.AppendCall? && k.dst < |c.peers| && ReplOk(c.h, k)
    requires LogOk(c.peers[k.dst].log)
    requires Accepts(c.peers[k.dst], k.aa) && Retains(c.h, k)
    requires p' == OnAppend(c.peers[k.dst], k.aa).0
    requires Splice(c.peers[k.dst].log, k.aa) == k.full
    requires At(k.dst, k.aa.term) in c'.h.acks
    requires c'.h.acks[At(k.dst, k.aa.term)] >= |k.full| - 1
    ensures CommitOk(c', k.dst, p') && DeliveredOk(p', c.sent[k.dst])
  {
    AcceptState(c.peers[k.dst], k);
    AcceptedCommit(c, c', k, p');
  }

  lemma AcceptedCommit(c: Cluster, c': Cluster, k: Call, p': Peer)
    requires CommitsOk(c) && Complete(c) && Advances(c, c')
    requires k in c.net && k.AppendCall? && k.dst < |c.peers| && ReplOk(c.h, k)
    requires LogOk(c.peers[k.dst].log)
    requires Accepts(c.peers[k.dst], k.aa) && Retains(c.h, k)
    requires Splice(c.peers[k.dst].log, k.aa) == k.full
    requires p'.log == k.full && c.peers[k.dst].term <= p'.term == k.aa.term
    requires p'.me == c.peers[k.dst].me && p'.applied == c.peers[k.dst].applied
    requires p'.commit == if k.aa.commit > c.peers[k.dst].commit
                          then Min(k.aa.commit, |k.full| - 1) else c.peers[k.dst].commit
    requires At(k.dst, k.aa.term) in c'.h.acks
    requires c'.h.acks[At(k.dst, k.aa.term)] >= |k.full| - 1
    ensures CommitOk(c', k.dst, p') && DeliveredOk(p', c.sent[k.dst])
  {
    var p := c.peers[k.dst];
    assert CallCommitOk(c, k) && CommitOk(c, k.dst, c.peers[k.dst]);
    assert DeliveredOk(c.peers[k.dst], c.sent[k.dst]);
    AcceptKeepsCommitted(c, k, p);
    DeliveriesPrefix(p.log, k.full, p.applied, p.commit);
    if k.aa.commit > p.commit {
      CallCommitKept(c, c', k, k);
      var t: nat, N: nat :| Backs(c', k.full, k.aa.commit, k.aa.term, t, N);
      assert p'.commit == k.aa.commit;
      assert Backs(c', p'.log, p'.commit, p'.term, t, N);
    } else {
      CommitKept(c, c', k.dst, p, p');
    }
  }

  lemma DeliveriesPrefix(a: seq<Entry>, b: seq<Entry>, applied: nat, commit: nat)
    requires applied <= commit < |a| && commit < |b| && a[..commit + 1] == b[..commit + 1]
    ensures Deliveries(a, 0, applied) == Deliveries(b, 0, applied)
  {
  }

  lemma SoundFinishAppend(c: Cluster, k: Call)
    requires Sound(c) && Enabled(c, FinishAppend(k))
    ensures Sound(Next(c, FinishAppend(k)))
  {
    var c' := Next(c, FinishAppend(k));
    var v := k.aa.leader;
    var p := c.peers[v];
    var p' := OnAppendReply(p, k.dst, k.aa, k.ar.value);
    BasicStep(c, FinishAppend(k));
    AppendReplyEffect(p, k.dst, k.aa, k.ar.value);
    if p.term == k.aa.term && p.role == Leader && k.ar.value.term <= p.term {
      SoundProgress(c, c', k, p');
    } else {
      SoundQuiet(c, c', v, p');
    }
  }

  lemma SoundProgress(c: Cluster, c': Cluster, k: Call, p': Peer)
    requires Sound(c) && Basic(c') && k in c.net && k.AppendCall? && k.ar.Some?
    requires k.aa.leader < |c.peers| && k.dst < |c.peers|
    requires c.peers[k.aa.leader].role == Leader && c.peers[k.aa.leader].term == k.aa.term
    requires k.ar.value.term <= k.aa.term
    requires p' == OnAppendReply(c.peers[k.aa.leader], k.dst, k.aa, k.ar.value)
    requires c'.peers == c.peers[k.aa.leader := p'] && c'.sent == c.sent && c'.h == c.h
    requires c'.net == c.net - {k}
    ensures Sound(c')
  {
    var v := k.aa.leader;
    var p := c.peers[v];
    var q := Progress(p, k.dst, k.aa, k.ar.value);
    assert PeerOk(p, |c.peers|, v) && InOffice(c.h, v, p) && MatchOk(c.h, p);
    assert ReplOk(c.h, k) && ReplyOk(c.h, k) && ReignOk(c.h, c.peers, p.term);
    MatchesAfterReply(c, k, p);
    SoundAdvance(c, c', v, q, p');
  }

  // The leader of its term has updated its bookkeeping to q, and then runs the commit loop.
  lemma SoundAdvance(c: Cluster, c': Cluster, v: nat, q: Peer, p': Peer)
    requires Sound(c) && Basic(c') && v < |c.peers|
    requires PeerOk(c.peers[v], |c.peers|, v) && InOffice(c.h, v, c.peers[v])
    requires c.peers[v].role == Leader && MatchOk(c.h, q)
    requires q == c.peers[v].(nextIdx := q.nextIdx, matchIdx := q.matchIdx)
    requires |q.matchIdx| == |c.peers|
    requires p' == Advance(q)
    requires c'.peers == c.peers[v := p'] && c'.sent == c.sent && c'.h == c.h
    requires forall k :: k in c'.net ==> k in c.net
    ensures Sound(c')
  {
    assert ReignOk(c.h, c.peers, q.term) && OwnAckOk(c.h, q.term);
    CompleteKept(c, c');
    BallotsKept(c, c');
    KeepsKept(c, c');
    MatchesAfterProgress(c, c', v, q);
    AdvanceEffect(q);
    if p'.commit == q.commit {
      CommitsQuiet(c, c', v, p');
    } else {
      CommitsAfterCommit(c, c', v, q, p');
    }
  }

  lemma MatchesAfterProgress(c: Cluster, c': Cluster, v: nat, q: Peer)
    requires MatchesOk(c) && v < |c.peers| && |q.log| > 0 && MatchOk(c.h, q)
    requires c'.peers == c.peers[v := Advance(q)] && c'.h == c.h
    ensures MatchesOk(c')
  {
  }

  lemma AdvanceEffect(q: Peer)
    requires |q.log| > 0 && Sorted(q.log) && TermsUpTo(q.log, q.term)
    ensures Advance(q).commit == q.commit ==> Advance(q) == q
    ensures Advance(q).commit != q.commit ==> Committable(q, Advance(q).commit)
    ensures Advance(q) == q.(commit := Advance(q).commit, pending := Advance(q).pending)
  {
    CommitScanIsLargest(q);
  }

  // The leader's commit index moves to an entry of its term that a majority holds.
  lemma CommitsAfterCommit(c: Cluster, c': Cluster, v: nat, q: Peer, p': Peer)
    requires CommitsOk(c) && Advances(c, c') && c'.h == c.h && c'.sent == c.sent
    requires v < |c.peers| && c'.peers == c.peers[v := p']
    requires q.me == v && |q.matchIdx| == |c.peers| && MatchOk(c.h, q)
    requires q.log == c.peers[v].log && q.applied == c.peers[v].applied
    requires q.commit == c.peers[v].commit
    requires q.term in c.h.reigns && c.h.reigns[q.term].leader == v
    requires q.log == c.h.reigns[q.term].log
    requires ReignOk(c.h, c.peers, q.term) && OwnAckOk(c.h, q.term)
    requires Committable(q, p'.commit)
    requires p'.log == q.log && p'.term == q.term && p'.applied == q.applied
    requires forall k :: k in c'.net ==> k in c.net
    ensures CommitsOk(c')
  {
    assert DeliveredOk(c.peers[v], c.sent[v]);
    CommitIsBacked(c, q, p'.commit);
    CommittedForward(c, c', q.term, p'.commit);
    assert Backs(c', p'.log, p'.commit, p'.term, q.term, p'.commit);
    CommitsStep(c, c', v, p');
  }

  lemma SoundSubmit(c: Cluster, v: nat, command: Command)
    requires Sound(c) && Enabled(c, Submit(v, command))
    ensures Sound(Next(c, Submit(v, command)))
  {
    var c' := Next(c, Submit(v, command));
    var p' := OnStart(c.peers[v], command);
    BasicStep(c, Submit(v, command));
    if c.peers[v].role == Leader {
      SoundStart(c, c', v, command);
    } else {
      SoundQuiet(c, c', v, p');
    }
  }

  lemma SoundStart(c: Cluster, c': Cluster, v: nat, command: Command)
    requires Sound(c) && Basic(c') && v < |c.peers| && PeerOk(c.peers[v], |c.peers|, v)
    requires c.peers[v].role == Leader
    requires c'.peers == c.peers[v := OnStart(c.peers[v], command)]
    requires c'.net == c.net && c'.sent == c.sent
    requires c'.h == RecordStart(c.h, OnStart(c.peers[v], command))
    ensures Sound(c')
  {
    var p := c.peers[v];
    var p' := OnStart(p, command);
    assert InOffice(c.h, v, c.peers[v]) && ReignOk(c.h, c.peers, p.term) && OwnAckOk(c.h, p.term);
    StartAdvances(c, c', v, p');
    CompleteAfterStart(c, c', v, p.term, p'.log);
    OthersAfterStart(c, c', v, p');
    MatchesKept(c, c', v, p');
    CommitsAfterStart(c, c', v, p');
  }

  lemma StartAdvances(c: Cluster, c': Cluster, v: nat, p': Peer)
    requires VotesOk(c) && v < |c.peers|
    requires c'.peers == c.peers[v := p'] && p'.term == c.peers[v].term
    requires p'.me == v && |p'.log| > 0 && p'.role == Leader && p'.term in c.h.reigns
    requires c.h.reigns[p'.term].log <= p'.log && OwnAckOk(c.h, p'.term)
    requires c.h.reigns[p'.term].leader == v && c'.h == RecordStart(c.h, p')
    ensures Advances(c, c') && c'.h.reigns.Keys == c.h.reigns.Keys
  {
    NotVotedPast(c, v, p'.term);
  }

  lemma CommitsAfterStart(c: Cluster, c': Cluster, v: nat, p': Peer)
    requires CommitsOk(c) && Advances(c, c') && v < |c.peers| && c'.peers == c.peers[v := p']
    requires c.peers[v].log <= p'.log && p'.commit == c.peers[v].commit
    requires p'.applied == c.peers[v].applied && p'.term == c.peers[v].term
    requires c'.sent == c.sent && c'.net == c.net
    ensures CommitsOk(c')
  {
    var p := c.peers[v];
    assert CommitOk(c, v, c.peers[v]) && DeliveredOk(c.peers[v], c.sent[v]);
    assert p'.log[..p.commit + 1] == p.log[..p.commit + 1];
    CommitKept(c, c', v, p, p');
    DeliveriesPrefix(p.log, p'.log, p.applied, p.commit);
    CommitsStep(c, c', v, p');
  }

  lemma SoundLateRead(c: Cluster, v: nat, va: VoteArgs)
    requires Sound(c) && Enabled(c, LateRead(v, va)) && Timely(c, LateRead(v, va))
    ensures Sound(Next(c, LateRead(v, va)))
  {
    var c' := Next(c, LateRead(v, va));
    BasicLateRead(c, v, va);
    CompleteKept(c, c');
    BallotsAfterRead(c, c', v, va);
    KeepsKept(c, c');
    MatchesKept(c, c', v, c.peers[v]);
    CommitsQuiet(c, c', v, c.peers[v]);
  }

  lemma SoundRestart(c: Cluster, v: nat)
    requires Sound(c) && Enabled(c, Restart(v)) && Careful(c, Restart(v))
    ensures Sound(Next(c, Restart(v)))
  {
    var c' := Next(c, Restart(v));
    BasicStep(c, Restart(v));
    assert PeerOk(c.peers[v], |c.peers|, v);
    CompleteKept(c, c');
    BallotsKept(c, c');
    KeepsKept(c, c');
    forall w: nat | w < |c'.peers| ensures MatchOk(c'.h, c'.peers[w]) {
      assert MatchOk(c.h, c.peers[w]);
      if c'.peers[w].term in c.h.reigns {
        LeaderVoted(c, c'.peers[w].term);
      }
    }
    CommitsStep(c, c', v, c'.peers[v]);
  }
}
