/**
    The basic invariants of the cluster together.

    Every event of a proper run keeps them, with any loss, delay or reordering of calls.
*/
module Invariant {
  import opened Wrappers
  import opened RaftCore
  import opened Cluster
  import opened DurableLog
  import opened Elections
  import opened LogMatching
  import opened Replication

  // Holds in every state of a proper run, under any loss, delay or reordering.
  ghost predicate Basic(c: Cluster) {
    Durable(c) && ElectionsOk(c) && LogsOk(c) && AcksOk(c) && AllNextsOk(c)
  }

  lemma InitBasic(c: Cluster)
    requires Init(c)
    ensures Basic(c)
  {
  }

  // A step that changes one peer and no log, vote, bid or acknowledgement.
  lemma BasicQuiet(c: Cluster, c': Cluster, v: nat, p': Peer)
    requires Basic(c) && v < |c.peers| && c'.peers == c.peers[v := p']
    requires Durable(c')
    requires Calm(c.peers[v], p') && p'.term >= c.peers[v].term && p'.log == c.peers[v].log
    requires p'.stable.term >= c.peers[v].stable.term
    requires p'.role == Leader ==> p'.nextIdx == c.peers[v].nextIdx && p'.me == c.peers[v].me
    requires c'.h == c.h
    requires forall k :: k in c'.net ==>
               k in c.net || (k.AppendCall? && ReplOk(c.h, k) && ReplyOk(c.h, k))
    ensures Basic(c')
  {
    assert PeerOk(c'.peers[v], |c'.peers|, v);
    CalmStep(c, c', v, p');
    QuietLogs(c, c', v, p');
    QuietAcks(c, c', v, p');
    NextsKept(c, c', v, p');
  }

  lemma BasicRestart(c: Cluster, v: nat)
    requires Basic(c) && Enabled(c, Restart(v)) && Careful(c, Restart(v))
    ensures Basic(Next(c, Restart(v)))
  {
    var c' := Next(c, Restart(v));
    var p' := c'.peers[v];
    DurableStep(c, Restart(v));
    assert PeerOk(c.peers[v], |c.peers|, v);
    RestartStep(c, c', v, p');
    LogsAfterRestart(c, c', v, p');
    QuietAcks(c, c', v, p');
    NextsKept(c, c', v, p');
  }

  lemma BasicLateRead(c: Cluster, v: nat, va: VoteArgs)
    requires Basic(c) && Enabled(c, LateRead(v, va)) && Timely(c, LateRead(v, va))
    ensures Basic(Next(c, LateRead(v, va)))
  {
    var c' := Next(c, LateRead(v, va));
    DurableStep(c, LateRead(v, va));
    ReadStep(c, c', v, va);
    QuietLogs(c, c', v, c.peers[v]);
    assert PeerOk(c.peers[v], |c.peers|, v);
    QuietAcks(c, c', v, c.peers[v]);
  }

  lemma BasicLocal(c: Cluster, e: Event)
    requires Basic(c) && Enabled(c, e)
    requires e.Timeout? || e.Demote? || e.Deliver? || e.Heartbeat?
    ensures Basic(Next(c, e))
  {
    DurableStep(c, e);
    BasicQuiet(c, Next(c, e), e.v, Next(c, e).peers[e.v]);
  }

  lemma BasicLose(c: Cluster, k: Call)
    requires Basic(c) && Enabled(c, Lose(k))
    ensures Basic(Next(c, Lose(k)))
  {
  }

  lemma BasicBroadcast(c: Cluster, v: nat)
    requires Basic(c) && Enabled(c, Broadcast(v))
    ensures Basic(Next(c, Broadcast(v)))
  {
    DurableStep(c, Broadcast(v));
    forall k | k in Heartbeats(c, v)
      ensures k.AppendCall? && ReplOk(c.h, k) && ReplyOk(c.h, k)
    {
      assert c.peers[v].role == Leader && InOffice(c.h, v, c.peers[v]);
      HeartbeatsOk(c, v, k);
    }
    BasicQuiet(c, Next(c, Broadcast(v)), v, c.peers[v]);
  }

  lemma BasicCandidacy(c: Cluster, v: nat)
    requires Basic(c) && Enabled(c, Candidacy(v))
    ensures Basic(Next(c, Candidacy(v)))
  {
    var c' := Next(c, Candidacy(v));
    DurableStep(c, Candidacy(v));
    CandidacyStep(c, c', v);
    LogsAfterCandidacy(c, c', v);
    QuietAcks(c, c', v, OnCandidacy(c.peers[v]));
    NextsKept(c, c', v, OnCandidacy(c.peers[v]));
  }

  lemma BasicHandleVote(c: Cluster, k: Call)
    requires Basic(c) && Enabled(c, HandleVote(k))
    ensures Basic(Next(c, HandleVote(k)))
  {
    var c' := Next(c, HandleVote(k));
    var (p', r) := OnRequestVote(c.peers[k.dst], k.va);
    DurableStep(c, HandleVote(k));
    VoteStep(c, c', k, p', r);
    QuietLogs(c, c', k.dst, p');
    QuietAcks(c, c', k.dst, p');
    NextsKept(c, c', k.dst, p');
  }

  lemma BasicFinishVote(c: Cluster, k: Call)
    requires Basic(c) && Enabled(c, FinishVote(k))
    ensures Basic(Next(c, FinishVote(k)))
  {
    var c' := Next(c, FinishVote(k));
    var v := k.va.cand;
    var p' := OnVoteReply(c.peers[v], k.va, k.vr.value);
    DurableStep(c, FinishVote(k));
    CountStep(c, c', k, p');
    if Wins(c.peers[v], k.va, k.vr.value) && p'.term !in c.h.reigns {
      assert VoteCallOk(c.h, k);
      LogsAfterWin(c, c', v, p');
      AcksAfterWin(c, c', v, p');
    } else {
      QuietLogs(c, c', v, p');
      QuietAcks(c, c', v, p');
    }
    if p'.role == Leader && c.peers[v].role != Leader {
      NextsAfterWin(c.peers[v], k.va, k.vr.value);
      forall w: nat | w < |c'.peers| ensures NextsOk(c'.peers[w]) {
        assert w != v ==> NextsOk(c.peers[w]);
      }
    } else {
      NextsKept(c, c', v, p');
    }
  }

  lemma BasicHandleAppend(c: Cluster, k: Call)
    requires Basic(c) && Enabled(c, HandleAppend(k))
    ensures Basic(Next(c, HandleAppend(k)))
  {
    var c' := Next(c, HandleAppend(k));
    var (p', r) := OnAppend(c.peers[k.dst], k.aa);
    DurableStep(c, HandleAppend(k));
    BasicAppend(c, c', k, p', r);
  }

  lemma BasicAppend(c: Cluster, c': Cluster, k: Call, p': Peer, r: AppendReply)
    requires Basic(c) && Durable(c') && k in c.net && k.AppendCall? && k.ar.None?
    requires k.dst < |c.peers| && Indexed(c.peers[k.dst].log)
    requires (p', r) == OnAppend(c.peers[k.dst], k.aa)
    requires c'.peers == c.peers[k.dst := p'] && c'.h == RecordAck(c.h, k.dst, k.aa, r)
    requires c'.net == c.net - {k} + {k.(ar := Some(r))}
    ensures Basic(c')
  {
    var p := c.peers[k.dst];
    AppendEffect(p, k.aa);
    CalmStep(c, c', k.dst, p');
    assert PeerOk(p, |c.peers|, k.dst);
    assert ReplOk(c.h, k) && ReplOk(c.h, k.(ar := Some(r)));
    AcksAfterHandling(c, c', k, p', r);
    LogsAfterHandling(c, c', k, p', r);
    if p'.role == Leader {
      assert InOffice(c.h, k.dst, p) && ReignOk(c.h, c.peers, k.aa.term);
    }
    NextsKept(c, c', k.dst, p');
  }

  lemma LogsAfterHandling(c: Cluster, c': Cluster, k: Call, p': Peer, r: AppendReply)
    requires LogsOk(c) && k in c.net && k.AppendCall? && k.dst < |c.peers|
    requires PeerOk(c.peers[k.dst], |c.peers|, k.dst)
    requires (p', r) == OnAppend(c.peers[k.dst], k.aa)
    requires c'.peers == c.peers[k.dst := p'] && c'.h == RecordAck(c.h, k.dst, k.aa, r)
    requires c'.net == c.net - {k} + {k.(ar := Some(r))}
    ensures LogsOk(c')
  {
    var p := c.peers[k.dst];
    AppendEffect(p, k.aa);
    assert ReplOk(c.h, k) && ReplOk(c.h, k.(ar := Some(r))) && ReignOk(c.h, c.peers, k.aa.term);
    if Accepts(p, k.aa) {
      assert Sane(c.h, c.peers[k.dst].log);
      SpliceIsFull(c.h, c.peers, p, k);
      LogsAfterAccept(c, c', k, p');
    } else {
      QuietLogs(c, c', k.dst, p');
    }
  }

  lemma BasicFinishAppend(c: Cluster, k: Call)
    requires Basic(c) && Enabled(c, FinishAppend(k))
    ensures Basic(Next(c, FinishAppend(k)))
  {
    var c' := Next(c, FinishAppend(k));
    var v := k.aa.leader;
    var p' := OnAppendReply(c.peers[v], k.dst, k.aa, k.ar.value);
    DurableStep(c, FinishAppend(k));
    AppendReplyEffect(c.peers[v], k.dst, k.aa, k.ar.value);
    CalmStep(c, c', v, p');
    QuietLogs(c, c', v, p');
    QuietAcks(c, c', v, p');
    assert ReplOk(c.h, k) && ReplyOk(c.h, k) && ReignOk(c.h, c.peers, k.aa.term);
    assert NextsOk(c.peers[v]);
    NextsAfterReply(c, k);
    forall w: nat | w < |c'.peers| ensures NextsOk(c'.peers[w]) {
      assert w != v ==> NextsOk(c.peers[w]);
    }
  }

  lemma AppendReplyEffect(p: Peer, j: nat, a: AppendArgs, r: AppendReply)
    requires |p.log| > 0 && j < |p.nextIdx| && j < |p.matchIdx|
    ensures var q := OnAppendReply(p, j, a, r);
            && Calm(p, q) && q.term >= p.term && q.log == p.log && q.me == p.me
            && q.applied == p.applied
            && (q.commit == p.commit || (q.term == p.term && q.commit > p.commit))
            && (q.term > p.term ==> q.matchIdx == p.matchIdx)
  {
  }

  lemma BasicSubmit(c: Cluster, v: nat, command: Command)
    requires Basic(c) && Enabled(c, Submit(v, command))
    ensures Basic(Next(c, Submit(v, command)))
  {
    var e := Submit(v, command);
    var c' := Next(c, e);
    var p' := OnStart(c.peers[v], command);
    DurableStep(c, e);
    if c.peers[v].role == Leader {
      assert InOffice(c.h, v, c.peers[v]) && ReignOk(c.h, c.peers, c.peers[v].term);
      CalmStep(c, c', v, p');
      LogsAfterStart(c, c', v, command);
      AcksAfterStart(c, c', v, command);
      NextsKept(c, c', v, p');
    } else {
      BasicQuiet(c, c', v, p');
    }
  }

  lemma BasicStep(c: Cluster, e: Event)
    requires Basic(c) && Enabled(c, e) && Proper(c, e)
    ensures Basic(Next(c, e))
  {
    match e
    case Candidacy(v) => BasicCandidacy(c, v);
    case HandleVote(k) => BasicHandleVote(c, k);
    case FinishVote(k) => BasicFinishVote(c, k);
    case Broadcast(v) => BasicBroadcast(c, v);
    case HandleAppend(k) => BasicHandleAppend(c, k);
    case FinishAppend(k) => BasicFinishAppend(c, k);
    case Submit(v, command) => BasicSubmit(c, v, command);
    case Lose(k) => BasicLose(c, k);
    case Restart(v) => BasicRestart(c, v);
    case LateRead(v, va) => BasicLateRead(c, v, va);
    case Overwrite(k) => OverwriteIsNone(c, k);
    case _ => BasicLocal(c, e);
  }
}
