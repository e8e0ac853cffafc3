/** What an acknowledgement is worth: in an orderly run a server still holds what it has acknowledged
    to the leader of its term. */
module Acknowledged {
  import opened RaftCore
  import opened Cluster
  import opened DurableLog
  import opened Elections
  import opened LogMatching
  import opened Replication
  import opened Invariant
  import opened Completeness
  import opened Soundness
  import opened Theorems

  // While the server's persisted term is that of the acknowledgement, its log has the entries.
  ghost predicate HeldAt(h: Ledger, peers: seq<Peer>, k: At)
    requires k in h.acks
  {
    k.server < |peers| && k.term in h.reigns && h.acks[k] < |h.reigns[k.term].log| &&
    (peers[k.server].stable.term == k.term ==>
       && h.acks[k] < |peers[k.server].log|
       && peers[k.server].log[..h.acks[k] + 1] == h.reigns[k.term].log[..h.acks[k] + 1])
  }

  ghost predicate Held(c: Cluster) {
    forall k {:trigger HeldAt(c.h, c.peers, k)} :: k in c.h.acks ==> HeldAt(c.h, c.peers, k)
  }

  // One peer changes, and neither its log nor the part of the ledger that counts.
  lemma HeldQuiet(c: Cluster, c': Cluster, v: nat, p': Peer)
    requires Held(c) && AcksOk(c) && v < |c.peers| && c'.peers == c.peers[v := p']
    requires p'.log == c.peers[v].log && p'.stable.term >= c.peers[v].stable.term
    requires c'.h.acks == c.h.acks && c'.h.reigns == c.h.reigns
    ensures Held(c')
  {
    forall k | k in c'.h.acks ensures HeldAt(c'.h, c'.peers, k) {
      assert HeldAt(c.h, c.peers, k) && AckOk(c.h, c.peers, k);
    }
  }

  lemma HeldAfterAccept(c: Cluster, c': Cluster, k: Call, p': Peer)
    requires Held(c) && AcksOk(c) && k in c.net && k.AppendCall? && k.dst < |c.peers|
    requires ReplOk(c.h, k) && Retains(c.h, k) && c'.peers == c.peers[k.dst := p']
    requires p'.log == k.full && p'.stable.term == k.aa.term
    requires var b := At(k.dst, k.aa.term);
             c'.h == c.h.(acks := c.h.acks[b := Max(Acked(c.h, b), |k.full| - 1)])
    ensures Held(c')
  {
    forall j | j in c'.h.acks ensures HeldAt(c'.h, c'.peers, j) {
      if j in c.h.acks {
        assert HeldAt(c.h, c.peers, j);
      }
    }
  }

  // The leader's own acknowledgement covers its whole log; the other logs of reigns only grow.
  lemma HeldAfterOwn(c: Cluster, c': Cluster, v: nat, p': Peer)
    requires Held(c) && AcksOk(c) && v < |c.peers| && c'.peers == c.peers[v := p']
    requires p'.stable.term == p'.term && |p'.log| > 0 && c.peers[v].stable.term <= p'.term
    requires ReignsExtend(c.h, c'.h) && p'.term in c'.h.reigns
    requires c'.h.reigns[p'.term].log == p'.log
    requires c'.h.acks == c.h.acks[At(v, p'.term) := |p'.log| - 1]
    ensures Held(c')
  {
    forall k | k in c'.h.acks ensures HeldAt(c'.h, c'.peers, k) {
      if k != At(v, p'.term) {
        assert HeldAt(c.h, c.peers, k) && AckOk(c.h, c.peers, k);
        assert c.h.reigns[k.term].log <= c'.h.reigns[k.term].log;
      }
    }
  }

  lemma HeldHandleAppend(c: Cluster, k: Call)
    requires Sound(c) && Held(c) && Enabled(c, HandleAppend(k)) && Orderly(c, HandleAppend(k))
    ensures Held(Next(c, HandleAppend(k)))
  {
    var c' := Next(c, HandleAppend(k));
    var (p', r) := OnAppend(c.peers[k.dst], k.aa);
    assert PeerOk(c.peers[k.dst], |c.peers|, k.dst);
    AppendEffect(c.peers[k.dst], k.aa);
    if Accepts(c.peers[k.dst], k.aa) {
      AcceptEffect(c, c', k, p', r);
      HeldAfterAccept(c, c', k, p');
    } else {
      HeldQuiet(c, c', k.dst, p');
    }
  }

  lemma HeldFinishVote(c: Cluster, k: Call)
    requires Basic(c) && Held(c) && Enabled(c, FinishVote(k))
    ensures Held(Next(c, FinishVote(k)))
  {
    var c' := Next(c, FinishVote(k));
    var v := k.va.cand;
    var p' := OnVoteReply(c.peers[v], k.va, k.vr.value);
    BasicStep(c, FinishVote(k));
    HeldCount(c, c', k, p');
  }

  lemma HeldCount(c: Cluster, c': Cluster, k: Call, p': Peer)
    requires Basic(c) && Basic(c') && Held(c) && k in c.net && k.VoteCall? && k.vr.Some?
    requires k.va.cand < |c.peers| && c'.peers == c.peers[k.va.cand := p']
    requires p' == OnVoteReply(c.peers[k.va.cand], k.va, k.vr.value)
    requires c'.h == RecordCount(c.h, c.peers[k.va.cand], k.dst, k.va, k.vr.value)
    ensures Held(c')
  {
    var v := k.va.cand;
    assert PeerOk(c.peers[v], |c.peers|, v);
    if Wins(c.peers[v], k.va, k.vr.value) && p'.term !in c.h.reigns {
      NewReign(c, c', k, p');
      HeldAfterOwn(c, c', v, p');
    } else {
      HeldQuiet(c, c', v, p');
    }
  }

  lemma HeldSubmit(c: Cluster, v: nat, command: Command)
    requires Sound(c) && Held(c) && Enabled(c, Submit(v, command))
    ensures Held(Next(c, Submit(v, command)))
  {
    var c' := Next(c, Submit(v, command));
    var p' := OnStart(c.peers[v], command);
    assert PeerOk(c.peers[v], |c.peers|, v);
    if c.peers[v].role == Leader {
      assert InOffice(c.h, v, c.peers[v]) && ReignOk(c.h, c.peers, p'.term);
      assert OwnAckOk(c.h, p'.term);
      StartAdvances(c, c', v, p');
      HeldAfterOwn(c, c', v, p');
    } else {
      HeldQuiet(c, c', v, p');
    }
  }

  lemma HeldFinishAppend(c: Cluster, k: Call)
    requires Sound(c) && Held(c) && Enabled(c, FinishAppend(k))
    ensures Held(Next(c, FinishAppend(k)))
  {
    var v := k.aa.leader;
    assert PeerOk(c.peers[v], |c.peers|, v);
    AppendReplyEffect(c.peers[v], k.dst, k.aa, k.ar.value);
    HeldQuiet(c, Next(c, FinishAppend(k)), v, OnAppendReply(c.peers[v], k.dst, k.aa, k.ar.value));
  }

  lemma HeldLocal(c: Cluster, e: Event)
    requires Sound(c) && Held(c) && Enabled(c, e) && Untouched(c, e)
    requires !e.HandleAppend? && !e.FinishAppend?
    requires !e.FinishVote? && !e.Submit?
    ensures Held(Next(c, e))
  {
    if e.Lose? || e.Broadcast? {
    } else if e.Overwrite? {
      OverwriteIsNone(c, e.call);
    } else if e.HandleVote? {
      HeldQuiet(c, Next(c, e), e.call.dst, Next(c, e).peers[e.call.dst]);
    } else {
      assert PeerOk(c.peers[e.v], |c.peers|, e.v);
      HeldQuiet(c, Next(c, e), e.v, Next(c, e).peers[e.v]);
    }
  }

  lemma {:induction false} RunHeld(tr: seq<Cluster>, es: seq<Event>, i: nat)
    requires Run(tr, es) && OrderlyRun(tr, es) && i < |tr|
    ensures Held(tr[i])
  {
    if i > 0 {
      RunHeld(tr, es, i - 1);
      RunSound(tr, es, i - 1);
      assert OrderlyAt(tr, es, i - 1);
      var c := tr[i - 1];
      match es[i - 1]
      case HandleAppend(k) => HeldHandleAppend(c, k);
      case FinishAppend(k) => HeldFinishAppend(c, k);
      case FinishVote(k) => HeldFinishVote(c, k);
      case Submit(v, command) => HeldSubmit(c, v, command);
      case _ => HeldLocal(c, es[i - 1]);
    }
  }

  /** An acknowledgement is held (H1-H5): a server that is in the term in which it has acknowledged
      entries to that term's leader still has them, exactly as the leader has them. */
  lemma AcknowledgedIsHeld(tr: seq<Cluster>, es: seq<Event>, i: nat, k: At)
    requires Run(tr, es) && OrderlyRun(tr, es) && i < |tr|
    requires k in tr[i].h.acks && k.server < |tr[i].peers| && tr[i].peers[k.server].term == k.term
    ensures k.term in tr[i].h.reigns
    ensures var (n, p, r) := (tr[i].h.acks[k], tr[i].peers[k.server], tr[i].h.reigns[k.term]);
            n < |p.log| && n < |r.log| && p.log[..n + 1] == r.log[..n + 1]
  {
    RunHeld(tr, es, i);
    RunSound(tr, es, i);
    assert HeldAt(tr[i].h, tr[i].peers, k) && AckOk(tr[i].h, tr[i].peers, k);
  }
}
