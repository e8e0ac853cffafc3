/** Log matching: every log is put together from prefixes of leaders' logs, and acceptance copies. */
module LogMatching {
  import opened RaftCore
  import opened Cluster
  import opened DurableLog
  import opened Elections

  // ----- the invariant -----

  // Up to its entry k, the log is a prefix of the log of the leader that created that entry.
  ghost predicate Traced(h: Ledger, log: seq<Entry>, k: nat)
    requires k < |log|
  {
    && log[k].term in h.reigns
    && k < |h.reigns[log[k].term].log|
    && h.reigns[log[k].term].log[..k + 1] == log[..k + 1]
  }

  ghost predicate Sane(h: Ledger, log: seq<Entry>) {
    forall k: nat {:trigger Traced(h, log, k)} :: 1 <= k < |log| ==> Traced(h, log, k)
  }

  // A leader's log: what it won with is older than its term, the rest is of its term.
  ghost predicate ReignOk(h: Ledger, peers: seq<Peer>, t: nat)
    requires t in h.reigns
  {
    var r := h.reigns[t];
    && LogOk(r.log) && Sane(h, r.log)
    && 1 <= r.start <= |r.log|
    && (forall k :: 0 <= k < r.start ==> r.log[k].term < t)
    && (forall k :: r.start <= k < |r.log| ==> r.log[k].term == t)
    && r.leader < |peers|
    && peers[r.leader].term >= t
    && (peers[r.leader].term == t ==> peers[r.leader].log == r.log)
  }

  // A candidate keeps the log it stood with until its term has a leader.
  ghost predicate BidLogOk(h: Ledger, peers: seq<Peer>, k: At)
    requires k in h.bids
  {
    && LogOk(h.bids[k]) && Sane(h, h.bids[k])
    && k.term >= 1 && TermsUpTo(h.bids[k], k.term - 1)
    && k.server < |peers| && k.term <= peers[k.server].term
    && (k.term == peers[k.server].term && k.term !in h.reigns ==>
          peers[k.server].log == h.bids[k])
  }

  // A call to append was built by the leader of its term, from a log that was whole then.
  ghost predicate ReplOk(h: Ledger, k: Call)
    requires k.AppendCall?
  {
    && k.aa.term in h.reigns
    && k.aa.leader == h.reigns[k.aa.term].leader
    && k.dst != k.aa.leader
    && k.full <= h.reigns[k.aa.term].log
    && h.reigns[k.aa.term].start <= |k.full|
    && LogOk(k.full) && SliceOf(k.aa, k.full)
  }

  ghost predicate LogsOk(c: Cluster) {
    && (forall v: nat {:trigger Sane(c.h, c.peers[v].log)} ::
          v < |c.peers| ==> Sane(c.h, c.peers[v].log))
    && (forall k {:trigger BidLogOk(c.h, c.peers, k)} ::
          k in c.h.bids ==> BidLogOk(c.h, c.peers, k))
    && (forall t {:trigger ReignOk(c.h, c.peers, t)} ::
          t in c.h.reigns ==> ReignOk(c.h, c.peers, t))
    && (forall k {:trigger ReplOk(c.h, k)} :: k in c.net && k.AppendCall? ==> ReplOk(c.h, k))
  }

  // ----- consequences -----

  // Two logs that agree on the term of an entry agree up to it.
  lemma AgreeAt(h: Ledger, a: seq<Entry>, b: seq<Entry>, k: nat)
    requires Sane(h, a) && Sane(h, b) && LogOk(a) && LogOk(b)
    requires k < |a| && k < |b| && a[k].term == b[k].term
    ensures a[..k + 1] == b[..k + 1]
  {
    if k > 0 {
      assert Traced(h, a, k) && Traced(h, b, k);
    } else {
      assert a[0] == b[0];
    }
  }

  lemma PrefixSane(h: Ledger, a: seq<Entry>, b: seq<Entry>)
    requires a <= b && Sane(h, b)
    ensures Sane(h, a)
  {
    forall k: nat | 1 <= k < |a| ensures Traced(h, a, k) {
      assert Traced(h, b, k);
      assert a[..k + 1] == b[..k + 1];
    }
  }

  // What an accepted call leaves behind is exactly the sender's log.
  lemma SpliceIsFull(h: Ledger, peers: seq<Peer>, p: Peer, k: Call)
    requires k.AppendCall? && ReplOk(h, k) && ReignOk(h, peers, k.aa.term)
    requires LogOk(p.log) && Sane(h, p.log) && Accepts(p, k.aa)
    ensures Splice(p.log, k.aa) == k.full
  {
    PrefixSane(h, k.full, h.reigns[k.aa.term].log);
    AgreeAt(h, p.log, k.full, k.aa.prevIdx);
  }

  // ----- growth of the ledger -----

  ghost predicate ReignsExtend(h: Ledger, h': Ledger) {
    forall t :: t in h.reigns ==>
      && t in h'.reigns && h.reigns[t].log <= h'.reigns[t].log
      && h'.reigns[t].leader == h.reigns[t].leader && h'.reigns[t].start == h.reigns[t].start
  }

  lemma SaneGrow(h: Ledger, h': Ledger, log: seq<Entry>)
    requires ReignsExtend(h, h') && Sane(h, log)
    ensures Sane(h', log)
  {
    forall k: nat | 1 <= k < |log| ensures Traced(h', log, k) {
      assert Traced(h, log, k);
      var t := log[k].term;
      assert h'.reigns[t].log[..k + 1] == h.reigns[t].log[..k + 1];
    }
  }

  // ----- steps in which no log changes -----

  lemma QuietLogs(c: Cluster, c': Cluster, v: nat, p': Peer)
    requires LogsOk(c) && v < |c.peers|
    requires c'.peers == c.peers[v := p'] && p'.log == c.peers[v].log && p'.term >= c.peers[v].term
    requires c'.h.reigns == c.h.reigns && c'.h.bids == c.h.bids
    requires forall k :: k in c'.net && k.AppendCall? ==> k in c.net || ReplOk(c.h, k)
    ensures LogsOk(c')
  {
    forall w: nat | w < |c'.peers| ensures Sane(c'.h, c'.peers[w].log) {
      assert Sane(c.h, c.peers[w].log);
      SaneGrow(c.h, c'.h, c.peers[w].log);
    }
    forall k | k in c'.h.bids ensures BidLogOk(c'.h, c'.peers, k) {
      assert BidLogOk(c.h, c.peers, k);
      SaneGrow(c.h, c'.h, c.h.bids[k]);
    }
    forall t | t in c'.h.reigns ensures ReignOk(c'.h, c'.peers, t) {
      assert ReignOk(c.h, c.peers, t);
      SaneGrow(c.h, c'.h, c.h.reigns[t].log);
    }
    forall k | k in c'.net && k.AppendCall? ensures ReplOk(c'.h, k) {
      assert ReplOk(c.h, k);
    }
  }

  // ----- restarting -----

  lemma LogsAfterRestart(c: Cluster, c': Cluster, v: nat, p': Peer)
    requires LogsOk(c) && ElectionsOk(c) && Careful(c, Restart(v)) && v < |c.peers|
    requires c'.peers == c.peers[v := p'] && c'.h == c.h && c'.net == c.net
    requires p'.term == c.peers[v].stable.term && p'.log == c.peers[v].log
    ensures LogsOk(c')
  {
    forall w: nat | w < |c'.peers| ensures Sane(c'.h, c'.peers[w].log) {
      assert Sane(c.h, c.peers[w].log);
    }
    forall k | k in c'.h.bids ensures BidLogOk(c'.h, c'.peers, k) {
      assert BidLogOk(c.h, c.peers, k) && BidOk(c.h, c.peers, k);
    }
    forall t | t in c'.h.reigns ensures ReignOk(c'.h, c'.peers, t) {
      assert ReignOk(c.h, c.peers, t);
      LeaderVoted(c, t);
    }
    forall k | k in c'.net && k.AppendCall? ensures ReplOk(c'.h, k) {
      assert ReplOk(c.h, k);
    }
  }

  // ----- standing -----

  lemma LogsAfterCandidacy(c: Cluster, c': Cluster, v: nat)
    requires LogsOk(c) && v < |c.peers| && PeerOk(c.peers[v], |c.peers|, v)
    requires c'.peers == c.peers[v := OnCandidacy(c.peers[v])]
    requires c'.h == RecordBid(c.h, v, OnCandidacy(c.peers[v]))
    requires forall k :: k in c'.net && k.AppendCall? ==> k in c.net
    ensures LogsOk(c')
  {
    var b := At(v, c.peers[v].term + 1);
    assert Sane(c.h, c.peers[v].log);
    forall w: nat | w < |c'.peers| ensures Sane(c'.h, c'.peers[w].log) {
      assert Sane(c.h, c.peers[w].log);
      SaneGrow(c.h, c'.h, c.peers[w].log);
    }
    forall k | k in c'.h.bids ensures BidLogOk(c'.h, c'.peers, k) {
      if k != b {
        assert BidLogOk(c.h, c.peers, k);
        SaneGrow(c.h, c'.h, c.h.bids[k]);
      } else {
        SaneGrow(c.h, c'.h, c.peers[v].log);
      }
    }
    forall t | t in c'.h.reigns ensures ReignOk(c'.h, c'.peers, t) {
      assert ReignOk(c.h, c.peers, t);
      SaneGrow(c.h, c'.h, c.h.reigns[t].log);
    }
    forall k | k in c'.net && k.AppendCall? ensures ReplOk(c'.h, k) {
      assert ReplOk(c.h, k);
    }
  }

  // ----- winning -----

  lemma LogsAfterWin(c: Cluster, c': Cluster, v: nat, p': Peer)
    requires LogsOk(c) && v < |c.peers|
    requires c'.peers == c.peers[v := p'] && p'.log == c.peers[v].log && p'.term == c.peers[v].term
    requires p'.term !in c.h.reigns && At(v, p'.term) in c.h.bids
    requires c'.h.bids == c.h.bids
    requires c'.h.reigns == c.h.reigns[p'.term := Reign(v, |p'.log|, p'.log)]
    requires forall k :: k in c'.net && k.AppendCall? ==> k in c.net
    ensures LogsOk(c')
  {
    assert BidLogOk(c.h, c.peers, At(v, p'.term));
    forall w: nat | w < |c'.peers| ensures Sane(c'.h, c'.peers[w].log) {
      assert Sane(c.h, c.peers[w].log);
      SaneGrow(c.h, c'.h, c.peers[w].log);
    }
    forall k | k in c'.h.bids ensures BidLogOk(c'.h, c'.peers, k) {
      assert BidLogOk(c.h, c.peers, k);
      SaneGrow(c.h, c'.h, c.h.bids[k]);
    }
    forall t | t in c'.h.reigns ensures ReignOk(c'.h, c'.peers, t) {
      if t != p'.term {
        assert ReignOk(c.h, c.peers, t);
        SaneGrow(c.h, c'.h, c.h.reigns[t].log);
      } else {
        SaneGrow(c.h, c'.h, p'.log);
      }
    }
    forall k | k in c'.net && k.AppendCall? ensures ReplOk(c'.h, k) {
      assert ReplOk(c.h, k);
    }
  }

  // ----- submitting a command -----

  lemma LogsAfterStart(c: Cluster, c': Cluster, v: nat, command: Command)
    requires LogsOk(c) && v < |c.peers| && PeerOk(c.peers[v], |c.peers|, v)
    requires c.peers[v].role == Leader && InOffice(c.h, v, c.peers[v])
    requires c'.peers == c.peers[v := OnStart(c.peers[v], command)] && c'.net == c.net
    requires c'.h == RecordStart(c.h, OnStart(c.peers[v], command))
    ensures LogsOk(c')
  {
    var t := c.peers[v].term;
    var p' := OnStart(c.peers[v], command);
    assert ReignOk(c.h, c.peers, t);
    StartExtends(c, c', v, command);
    forall w: nat | w < |c'.peers| ensures Sane(c'.h, c'.peers[w].log) {
      if w != v {
        assert Sane(c.h, c.peers[w].log);
        SaneGrow(c.h, c'.h, c.peers[w].log);
      }
    }
    BidLogsAfterStart(c, c', v, p');
    LongerReign(c, c', v, p');
    forall u | u in c'.h.reigns ensures ReignOk(c'.h, c'.peers, u) {
      assert ReignOk(c.h, c.peers, u);
      if u != t {
        SaneGrow(c.h, c'.h, c.h.reigns[u].log);
      }
    }
    forall k | k in c'.net && k.AppendCall? ensures ReplOk(c'.h, k) {
      assert ReplOk(c.h, k);
    }
  }

  // The reign whose leader's log has one more entry.
  lemma LongerReign(c: Cluster, c': Cluster, v: nat, p': Peer)
    requires v < |c.peers| && PeerOk(c.peers[v], |c.peers|, v) && InOffice(c.h, v, c.peers[v])
    requires ReignOk(c.h, c.peers, c.peers[v].term) && c.peers[v].role == Leader
    requires c'.peers == c.peers[v := p'] && p'.term == c.peers[v].term
    requires |p'.log| == |c.peers[v].log| + 1 && c.peers[v].log <= p'.log
    requires Last(p'.log).term == p'.term && Last(p'.log).index == |p'.log| - 1
    requires p'.term in c'.h.reigns
    requires c'.h.reigns[p'.term] == c.h.reigns[p'.term].(log := p'.log) && Sane(c'.h, p'.log)
    ensures ReignOk(c'.h, c'.peers, p'.term)
  {
    var log, log' := c.peers[v].log, p'.log;
    assert forall k :: 0 <= k < |log| ==> log'[k] == log[k];
  }

  lemma BidLogsAfterStart(c: Cluster, c': Cluster, v: nat, p': Peer)
    requires LogsOk(c) && v < |c.peers| && c'.peers == c.peers[v := p']
    requires ReignsExtend(c.h, c'.h) && c'.h.bids == c.h.bids
    requires p'.term == c.peers[v].term && p'.term in c.h.reigns
    ensures forall k :: k in c'.h.bids ==> BidLogOk(c'.h, c'.peers, k)
  {
    forall k | k in c'.h.bids ensures BidLogOk(c'.h, c'.peers, k) {
      assert BidLogOk(c.h, c.peers, k);
      SaneGrow(c.h, c'.h, c.h.bids[k]);
    }
  }

  lemma StartExtends(c: Cluster, c': Cluster, v: nat, command: Command)
    requires v < |c.peers| && PeerOk(c.peers[v], |c.peers|, v)
    requires c.peers[v].role == Leader && InOffice(c.h, v, c.peers[v])
    requires ReignOk(c.h, c.peers, c.peers[v].term)
    requires c'.h == RecordStart(c.h, OnStart(c.peers[v], command))
    ensures ReignsExtend(c.h, c'.h)
    ensures Sane(c'.h, OnStart(c.peers[v], command).log)
  {
    var log := c.peers[v].log;
    var log' := OnStart(c.peers[v], command).log;
    SaneGrow(c.h, c'.h, log);
    forall k: nat | 1 <= k < |log'| ensures Traced(c'.h, log', k) {
      if k < |log| {
        assert Traced(c'.h, log, k);
        assert log'[..k + 1] == log[..k + 1];
      }
    }
  }

  // ----- accepting a call to append -----

  lemma LogsAfterAccept(c: Cluster, c': Cluster, k: Call, p': Peer)
    requires LogsOk(c) && k in c.net && k.AppendCall? && k.dst < |c.peers|
    requires c'.peers == c.peers[k.dst := p'] && p'.log == k.full
    requires p'.term == k.aa.term >= c.peers[k.dst].term
    requires c'.h.reigns == c.h.reigns && c'.h.bids == c.h.bids
    requires forall j :: j in c'.net && j.AppendCall? ==> j in c.net || ReplOk(c.h, j)
    ensures LogsOk(c')
  {
    assert ReplOk(c.h, k) && ReignOk(c.h, c.peers, k.aa.term);
    PrefixSane(c.h, k.full, c.h.reigns[k.aa.term].log);
    forall w: nat | w < |c'.peers| ensures Sane(c'.h, c'.peers[w].log) {
      assert w != k.dst ==> Sane(c.h, c.peers[w].log);
      SaneGrow(c.h, c'.h, c'.peers[w].log);
    }
    forall j | j in c'.h.bids ensures BidLogOk(c'.h, c'.peers, j) {
      assert BidLogOk(c.h, c.peers, j);
      SaneGrow(c.h, c'.h, c.h.bids[j]);
    }
    forall t | t in c'.h.reigns ensures ReignOk(c'.h, c'.peers, t) {
      assert ReignOk(c.h, c.peers, t);
      SaneGrow(c.h, c'.h, c.h.reigns[t].log);
    }
    forall j | j in c'.net && j.AppendCall? ensures ReplOk(c'.h, j) {
      assert ReplOk(c.h, j);
    }
  }

  // ----- broadcasting -----

  lemma HeartbeatsOk(c: Cluster, v: nat, k: Call)
    requires LogsOk(c) && v < |c.peers| && PeerOk(c.peers[v], |c.peers|, v)
    requires NextInRange(c.peers[v]) && k in Heartbeats(c, v)
    requires c.peers[v].role == Leader && InOffice(c.h, v, c.peers[v])
    ensures k.AppendCall? && ReplOk(c.h, k) && k.full == c.peers[v].log
  {
    assert ReignOk(c.h, c.peers, c.peers[v].term);
  }
}
