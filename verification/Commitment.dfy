/** Commit indices and delivery: what a server regards as committed is committed, and what it
    delivers to its service is that prefix of its log. */
module Commitment {
  import opened RaftCore
  import opened Cluster
  import opened Elections
  import opened LogMatching
  import opened Replication
  import opened Completeness

  // ----- the invariant -----

  // A match index at or past the leader's first own entry is an acknowledgement of its term.
  ghost predicate MatchOk(h: Ledger, p: Peer) {
    p.term in h.reigns && h.reigns[p.term].leader == p.me ==>
      forall j: nat {:trigger p.matchIdx[j]} :: j < |p.matchIdx| && j != p.me ==>
        && p.matchIdx[j] < |p.log|
        && (p.matchIdx[j] >= h.reigns[p.term].start ==> HasAck(h, j, p.term, p.matchIdx[j]))
  }

  // Up to entry k, the log is a committed prefix of the log of a leader of some term up to b.
  ghost predicate Backs(c: Cluster, log: seq<Entry>, k: nat, b: nat, t: nat, N: nat) {
    && Committed(c, t, N)
    && t <= b && k <= N && k < |log|
    && c.h.reigns[t].log[..k + 1] == log[..k + 1]
  }

  ghost predicate CommitOk(c: Cluster, v: nat, p: Peer) {
    p.commit == 0 ||
    exists t: nat, N: nat {:trigger Backs(c, p.log, p.commit, p.term, t, N)} ::
      && Backs(c, p.log, p.commit, p.term, t, N)
      && (t == p.term ==> HasAck(c.h, v, t, p.commit))
  }

  ghost predicate CallCommitOk(c: Cluster, k: Call)
    requires k.AppendCall?
  {
    k.aa.commit == 0 ||
    exists t: nat, N: nat {:trigger Backs(c, k.full, k.aa.commit, k.aa.term, t, N)} ::
      Backs(c, k.full, k.aa.commit, k.aa.term, t, N)
  }

  ghost predicate DeliveredOk(p: Peer, sent: seq<ApplyMsg>) {
    && p.applied <= p.commit < |p.log|
    && sent == Deliveries(p.log, 0, p.applied)
  }

  ghost predicate MatchesOk(c: Cluster) {
    forall v: nat {:trigger MatchOk(c.h, c.peers[v])} :: v < |c.peers| ==> MatchOk(c.h, c.peers[v])
  }

  ghost predicate CommitsOk(c: Cluster) {
    && |c.sent| == |c.peers|
    && (forall v: nat {:trigger CommitOk(c, v, c.peers[v])} ::
          v < |c.peers| ==> CommitOk(c, v, c.peers[v]))
    && (forall k {:trigger CallCommitOk(c, k)} ::
          k in c.net && k.AppendCall? ==> CallCommitOk(c, k))
    && (forall v: nat {:trigger DeliveredOk(c.peers[v], c.sent[v])} ::
          v < |c.peers| ==> DeliveredOk(c.peers[v], c.sent[v]))
  }

  // ----- match indices -----

  // A server that changes term does not come to a term it led before.
  lemma MatchesKept(c: Cluster, c': Cluster, v: nat, p': Peer)
    requires MatchesOk(c) && LogsOk(c) && Advances(c, c') && v < |c.peers|
    requires c'.peers == c.peers[v := p'] && c'.h.reigns.Keys == c.h.reigns.Keys
    requires p'.me == v == c.peers[v].me && p'.matchIdx == c.peers[v].matchIdx
    requires p'.term >= c.peers[v].term
    requires p'.term in c.h.reigns && c.h.reigns[p'.term].leader == v ==>
               |c.peers[v].log| <= |p'.log|
    ensures MatchesOk(c')
  {
    forall w: nat | w < |c'.peers| ensures MatchOk(c'.h, c'.peers[w]) {
      assert MatchOk(c.h, c.peers[w]);
      var t := c'.peers[w].term;
      assert t in c'.h.reigns.Keys <==> t in c.h.reigns.Keys;
      assert t in c.h.reigns ==> ReignOk(c.h, c.peers, t);
    }
  }

  // Hypothesis on a win, weaker than "no server leads two terms": no match index left over from
  // an earlier leadership lies past the end of the winner's log.
  predicate FreshMatches(p: Peer) {
    forall j :: 0 <= j < |p.matchIdx| && j != p.me ==> p.matchIdx[j] < |p.log|
  }

  lemma MatchesAfterWin(c: Cluster, c': Cluster, v: nat, p': Peer)
    requires MatchesOk(c) && Advances(c, c') && v < |c.peers|
    requires forall w :: 0 <= w < |c'.peers| ==> c'.peers[w].me == w
    requires c'.peers == c.peers[v := p'] && p'.term !in c.h.reigns
    requires c'.h.reigns == c.h.reigns[p'.term := Reign(v, |p'.log|, p'.log)]
    requires FreshMatches(p')
    ensures MatchesOk(c')
  {
    forall w: nat | w < |c'.peers| ensures MatchOk(c'.h, c'.peers[w]) {
      assert MatchOk(c.h, c.peers[w]);
    }
  }

  lemma MatchesAfterReply(c: Cluster, k: Call, p: Peer)
    requires k.AppendCall? && k.ar.Some? && ReplOk(c.h, k) && ReplyOk(c.h, k)
    requires p.term == k.aa.term && p.me == k.aa.leader && MatchOk(c.h, p)
    requires p.log == c.h.reigns[p.term].log
    requires k.dst < |p.nextIdx| == |p.matchIdx|
    ensures MatchOk(c.h, Progress(p, k.dst, k.aa, k.ar.value))
  {
  }

  // ----- the commit rule -----

  // The quorum that the leader counts is a quorum of acknowledgements.
  lemma CommitIsBacked(c: Cluster, p: Peer, N: nat)
    requires p.me < |c.peers| && |p.matchIdx| == |c.peers|
    requires p.term in c.h.reigns && c.h.reigns[p.term].leader == p.me
    requires ReignOk(c.h, c.peers, p.term) && OwnAckOk(c.h, p.term)
    requires p.log == c.h.reigns[p.term].log
    requires MatchOk(c.h, p) && Committable(p, N)
    ensures Committed(c, p.term, N) && HasAck(c.h, p.me, p.term, N)
  {
    forall j | j in Holders(p, N) ensures j in Backers(c, p.term, N) {
      assert p.matchIdx[j] >= N;
    }
    assert p.me in Backers(c, p.term, N);
    SubsetSize(Holders(p, N) + {p.me}, Backers(c, p.term, N));
  }

  // ----- commit indices -----

  lemma CommitKept(c: Cluster, c': Cluster, v: nat, p: Peer, p': Peer)
    requires CommitOk(c, v, p) && Advances(c, c')
    requires p'.commit == p.commit && p.term <= p'.term
    requires p.commit < |p'.log| && p.commit < |p.log|
    requires p'.log[..p.commit + 1] == p.log[..p.commit + 1]
    ensures CommitOk(c', v, p')
  {
    if p.commit != 0 {
      var t: nat, N: nat :| Backs(c, p.log, p.commit, p.term, t, N)
                            && (t == p.term ==> HasAck(c.h, v, t, p.commit));
      CommittedForward(c, c', t, N);
      assert c'.h.reigns[t].log[..p.commit + 1] == c.h.reigns[t].log[..p.commit + 1];
      assert Backs(c', p'.log, p'.commit, p'.term, t, N);
    }
  }

  lemma CallCommitKept(c: Cluster, c': Cluster, k: Call, k': Call)
    requires k.AppendCall? && CallCommitOk(c, k) && Advances(c, c')
    requires k'.AppendCall? && k'.aa == k.aa && k'.full == k.full
    ensures CallCommitOk(c', k')
  {
    if k.aa.commit != 0 {
      var t: nat, N: nat :| Backs(c, k.full, k.aa.commit, k.aa.term, t, N);
      CommittedForward(c, c', t, N);
      assert c'.h.reigns[t].log[..k.aa.commit + 1] == c.h.reigns[t].log[..k.aa.commit + 1];
      assert Backs(c', k'.full, k'.aa.commit, k'.aa.term, t, N);
    }
  }

  // An accepted call never takes away what the follower regards as committed.
  lemma AcceptKeepsCommitted(c: Cluster, k: Call, p: Peer)
    requires k.AppendCall? && k.dst < |c.peers| && p == c.peers[k.dst]
    requires ReplOk(c.h, k) && Retains(c.h, k) && p.term <= k.aa.term
    requires Complete(c) && CommitOk(c, k.dst, p) && p.commit < |p.log| && LogOk(p.log)
    ensures p.commit < |k.full| && k.full[..p.commit + 1] == p.log[..p.commit + 1]
  {
    if p.commit == 0 {
      assert k.full[..1] == [SENTINEL] == p.log[..1];
    } else {
      var w := k.aa.term;
      var t: nat, N: nat :| Backs(c, p.log, p.commit, p.term, t, N)
                            && (t == p.term ==> HasAck(c.h, k.dst, t, p.commit));
      if t < w {
        CommittedIsChoosable(c, t, N);
        assert CompleteAt(c, t, w, N);
        PrefixOfFull(c.h, k, t, N);
        assert k.full[..p.commit + 1] == k.full[..N + 1][..p.commit + 1];
        assert c.h.reigns[t].log[..p.commit + 1] == c.h.reigns[t].log[..N + 1][..p.commit + 1];
      }
    }
  }
}
