/** The leader's bookkeeping: next indices stay in range and acknowledgements are backed by the
    follower, under any loss, delay or reordering of calls. */
module Replication {
  import opened Wrappers
  import opened RaftCore
  import opened Cluster
  import opened DurableLog
  import opened Elections
  import opened LogMatching

  // ----- the invariant -----

  // What has been acknowledged was persisted, and is in the leader's log.
  ghost predicate AckOk(h: Ledger, peers: seq<Peer>, k: At)
    requires k in h.acks
  {
    && k.server < |peers| && k.term <= peers[k.server].stable.term <= peers[k.server].term
    && k.term in h.reigns && h.acks[k] < |h.reigns[k.term].log|
  }

  // A leader has all of its own log.
  ghost predicate OwnAckOk(h: Ledger, t: nat)
    requires t in h.reigns
  {
    var k := At(h.reigns[t].leader, t);
    k in h.acks && h.acks[k] == |h.reigns[t].log| - 1
  }

  ghost predicate NextsOk(p: Peer) {
    p.role == Leader ==>
      forall j :: 0 <= j < |p.nextIdx| && j != p.me ==> 1 <= p.nextIdx[j] <= |p.log|
  }

  // A success reply stands for an acknowledgement; a rejection moves back, and stays above the
  // sentinel.
  ghost predicate ReplyOk(h: Ledger, k: Call)
    requires k.AppendCall?
  {
    k.ar.Some? ==>
      var r := k.ar.value;
      && r.term >= k.aa.term
      && (r.success ==> r.term == k.aa.term && At(k.dst, k.aa.term) in h.acks
                        && h.acks[At(k.dst, k.aa.term)] >= |k.full| - 1)
      && (r.term == k.aa.term && !r.success ==> 1 <= r.nextTry <= k.aa.prevIdx)
  }

  ghost predicate AcksOk(c: Cluster) {
    && (forall k {:trigger AckOk(c.h, c.peers, k)} :: k in c.h.acks ==> AckOk(c.h, c.peers, k))
    && (forall t {:trigger OwnAckOk(c.h, t)} :: t in c.h.reigns ==> OwnAckOk(c.h, t))
    && (forall k {:trigger ReplyOk(c.h, k)} :: k in c.net && k.AppendCall? ==> ReplyOk(c.h, k))
  }

  ghost predicate AllNextsOk(c: Cluster) {
    forall v: nat {:trigger NextsOk(c.peers[v])} :: v < |c.peers| ==> NextsOk(c.peers[v])
  }

  // ----- acknowledgements -----

  ghost predicate AcksGrow(h: Ledger, h': Ledger) {
    forall k :: k in h.acks ==> k in h'.acks && h.acks[k] <= h'.acks[k]
  }

  lemma QuietAcks(c: Cluster, c': Cluster, v: nat, p': Peer)
    requires AcksOk(c) && v < |c.peers| && c'.peers == c.peers[v := p']
    requires c.peers[v].stable.term <= p'.stable.term <= p'.term
    requires c'.h.reigns == c.h.reigns && c'.h.acks == c.h.acks
    requires forall k :: k in c'.net && k.AppendCall? ==> k in c.net || ReplyOk(c.h, k)
    ensures AcksOk(c')
  {
    forall k | k in c'.h.acks ensures AckOk(c'.h, c'.peers, k) {
      assert AckOk(c.h, c.peers, k);
    }
    forall t | t in c'.h.reigns ensures OwnAckOk(c'.h, t) {
      assert OwnAckOk(c.h, t);
    }
    forall k | k in c'.net && k.AppendCall? ensures ReplyOk(c'.h, k) {
      assert ReplyOk(c.h, k);
    }
  }

  lemma AcksAfterWin(c: Cluster, c': Cluster, v: nat, p': Peer)
    requires AcksOk(c) && v < |c.peers| && c'.peers == c.peers[v := p']
    requires p'.term == p'.stable.term == c.peers[v].term && |p'.log| > 0
    requires p'.term !in c.h.reigns
    requires c'.h.reigns == c.h.reigns[p'.term := Reign(v, |p'.log|, p'.log)]
    requires c'.h.acks == c.h.acks[At(v, p'.term) := |p'.log| - 1]
    requires forall k :: k in c'.net && k.AppendCall? ==> k in c.net
    ensures AcksOk(c')
  {
    assert At(v, p'.term) in c.h.acks ==> AckOk(c.h, c.peers, At(v, p'.term));
    forall k | k in c'.h.acks ensures AckOk(c'.h, c'.peers, k) {
      assert k in c.h.acks ==> AckOk(c.h, c.peers, k);
    }
    forall t | t in c'.h.reigns ensures OwnAckOk(c'.h, t) {
      assert t in c.h.reigns ==> OwnAckOk(c.h, t);
    }
    forall k | k in c'.net && k.AppendCall? ensures ReplyOk(c'.h, k) {
      assert ReplyOk(c.h, k);
    }
  }

  lemma AcksAfterStart(c: Cluster, c': Cluster, v: nat, command: Command)
    requires AcksOk(c) && v < |c.peers| && PeerOk(c.peers[v], |c.peers|, v)
    requires c.peers[v].role == Leader && InOffice(c.h, v, c.peers[v])
    requires ReignOk(c.h, c.peers, c.peers[v].term)
    requires c'.peers == c.peers[v := OnStart(c.peers[v], command)] && c'.net == c.net
    requires c'.h == RecordStart(c.h, OnStart(c.peers[v], command))
    ensures AcksOk(c')
  {
    assert OwnAckOk(c.h, c.peers[v].term);
    forall k | k in c'.h.acks ensures AckOk(c'.h, c'.peers, k) {
      assert k in c.h.acks ==> AckOk(c.h, c.peers, k);
    }
    forall t | t in c'.h.reigns ensures OwnAckOk(c'.h, t) {
      assert OwnAckOk(c.h, t);
    }
    forall k | k in c'.net && k.AppendCall? ensures ReplyOk(c'.h, k) {
      assert ReplyOk(c.h, k);
    }
  }

  lemma AcksAfterHandling(c: Cluster, c': Cluster, k: Call, p': Peer, r: AppendReply)
    requires AcksOk(c) && k in c.net && k.AppendCall? && k.ar.None? && k.dst < |c.peers|
    requires PeerOk(c.peers[k.dst], |c.peers|, k.dst) && ReplOk(c.h, k)
    requires (p', r) == OnAppend(c.peers[k.dst], k.aa)
    requires c'.peers == c.peers[k.dst := p'] && c'.h == RecordAck(c.h, k.dst, k.aa, r)
    requires c'.net == c.net - {k} + {k.(ar := Some(r))}
    ensures AcksOk(c')
  {
    AppendEffect(c.peers[k.dst], k.aa);
    RejectionBacksUp(c.peers[k.dst], k);
    forall j | j in c'.h.acks ensures AckOk(c'.h, c'.peers, j) {
      assert j in c.h.acks ==> AckOk(c.h, c.peers, j);
    }
    forall t | t in c'.h.reigns ensures OwnAckOk(c'.h, t) {
      assert OwnAckOk(c.h, t);
    }
    forall j | j in c'.net && j.AppendCall? ensures ReplyOk(c'.h, j) {
      assert j in c.net ==> ReplyOk(c.h, j);
    }
  }

  // A rejection names an index that is at least 1 and at most the rejected one: the conflict scan
  // never runs through to the base.
  lemma RejectionBacksUp(p: Peer, k: Call)
    requires k.AppendCall? && LogOk(p.log) && LogOk(k.full) && SliceOf(k.aa, k.full)
    ensures var r := OnAppend(p, k.aa).1;
            && r.term == Max(p.term, k.aa.term)
            && (r.success <==> Accepts(p, k.aa))
            && (r.term == k.aa.term && !r.success ==> 1 <= r.nextTry <= k.aa.prevIdx)
  {
  }

  // ----- next indices -----

  lemma NextsKept(c: Cluster, c': Cluster, v: nat, p': Peer)
    requires AllNextsOk(c) && v < |c.peers| && c'.peers == c.peers[v := p']
    requires p'.role == Leader ==>
               c.peers[v].role == Leader && |c.peers[v].log| <= |p'.log|
               && p'.nextIdx == c.peers[v].nextIdx && p'.me == c.peers[v].me
    ensures AllNextsOk(c')
  {
    forall w: nat | w < |c'.peers| ensures NextsOk(c'.peers[w]) {
      assert NextsOk(c.peers[w]);
    }
  }

  lemma NextsAfterWin(p: Peer, va: VoteArgs, r: VoteReply)
    requires Indexed(p.log)
    requires p.role != Leader
    ensures NextsOk(OnVoteReply(p, va, r))
  {
  }

  lemma NextsAfterReply(c: Cluster, k: Call)
    requires k.AppendCall? && k.ar.Some? && ReplOk(c.h, k) && ReplyOk(c.h, k)
    requires k.aa.leader < |c.peers| && k.dst < |c.peers|
    requires ReignOk(c.h, c.peers, k.aa.term)
    requires PeerOk(c.peers[k.aa.leader], |c.peers|, k.aa.leader) && NextsOk(c.peers[k.aa.leader])
    ensures NextsOk(OnAppendReply(c.peers[k.aa.leader], k.dst, k.aa, k.ar.value))
  {
  }

  // The next indices of a leader let it build every call of a broadcast, and no peer is skipped.
  lemma NextsReach(p: Peer, n: nat, v: nat)
    requires PeerShape(p, n, v) && NextsOk(p)
    ensures NextInRange(p)
    ensures p.role == Leader ==> forall j: nat :: j < n && j != v ==> Addressed(p, j)
  {
  }
}
