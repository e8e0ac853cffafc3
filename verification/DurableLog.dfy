/** Logs are well formed and durable in every reachable state: with any loss and any order of calls,
    with restarts at any time, and with requests read at any time. */
module DurableLog {
  import opened Wrappers
  import opened RaftCore
  import opened Cluster

  ghost predicate PeerOk(p: Peer, n: nat, v: nat) {
    && PeerShape(p, n, v)
    && LogOk(p.log)
    && p.stable.log == p.log
    && p.stable.term <= p.term
    && TermsUpTo(p.log, p.stable.term)
    && (p.role == Leader ==> p.term >= 1)
  }

  // An AppendEntries call carries a slice of the sender's log as it was when the call was built.
  ghost predicate SliceOf(a: AppendArgs, full: seq<Entry>) {
    && a.prevIdx < |full|
    && a.prevTerm == full[a.prevIdx].term
    && a.entries == full[a.prevIdx + 1..]
  }

  ghost predicate CallOk(k: Call, n: nat) {
    && CallShape(k, n)
    && (k.VoteCall? ==> k.va.term >= 1)
    && (k.AppendCall? ==> LogOk(k.full) && TermsUpTo(k.full, k.aa.term) && SliceOf(k.aa, k.full))
  }

  ghost predicate Durable(c: Cluster) {
    && |c.sent| == |c.peers|
    && (forall v :: 0 <= v < |c.peers| ==> PeerOk(c.peers[v], |c.peers|, v))
    && (forall k :: k in c.net ==> CallOk(k, |c.peers|) && Stood(c, k))
  }

  // Who has asked for votes has persisted a term other than 0.
  ghost predicate Stood(c: Cluster, k: Call) {
    k.VoteCall? ==> k.va.cand < |c.peers| && c.peers[k.va.cand].stable.term >= 1
  }

  // ----- one step -----

  // The log after a truncation at an agreeing entry and an append.
  function Splice(log: seq<Entry>, a: AppendArgs): seq<Entry>
    requires a.prevIdx < |log|
  {
    log[..a.prevIdx + 1] + a.entries
  }

  lemma SpliceOk(log: seq<Entry>, a: AppendArgs, full: seq<Entry>)
    requires LogOk(log) && LogOk(full) && SliceOf(a, full) && TermsUpTo(full, a.term)
    requires a.prevIdx < |log| && log[a.prevIdx].term == a.prevTerm
    ensures LogOk(Splice(log, a)) && TermsUpTo(Splice(log, a), a.term)
    ensures |Splice(log, a)| == |full|
  {
  }

  // What the handler of AppendEntries does to log, term and persister.
  lemma AppendEffect(p: Peer, a: AppendArgs)
    requires Indexed(p.log)
    ensures var q := OnAppend(p, a).0;
            && q.me == p.me && q.nextIdx == p.nextIdx && q.matchIdx == p.matchIdx
            && q.term == Max(p.term, a.term)
            && q.log == (if Accepts(p, a) then Splice(p.log, a) else p.log)
            && q.applied == p.applied
            && (q.stable == p.stable || q.stable == Stable(q.term, q.votedFor, q.log))
            && (Accepts(p, a) || q.log != p.log ==> q.stable == Stable(q.term, q.votedFor, q.log))
            && (q.term == p.term ==> q.role == p.role && q.votedFor == p.votedFor)
            && (q.term > p.term ==> q.role == Follower && q.votedFor == -1)
            && q.votes == p.votes
  {
  }

  lemma AppendKeepsPeer(p: Peer, n: nat, v: nat, a: AppendArgs, full: seq<Entry>)
    requires PeerOk(p, n, v) && LogOk(full) && TermsUpTo(full, a.term) && SliceOf(a, full)
    ensures PeerOk(OnAppend(p, a).0, n, v)
  {
    AppendEffect(p, a);
    if Accepts(p, a) {
      SpliceOk(p.log, a, full);
    }
  }

  lemma StartKeepsPeer(p: Peer, n: nat, v: nat, command: Command)
    requires PeerOk(p, n, v)
    ensures PeerOk(OnStart(p, command), n, v)
  {
  }

  lemma BroadcastKeeps(c: Cluster, v: nat)
    requires Durable(c) && Enabled(c, Broadcast(v))
    ensures Durable(Next(c, Broadcast(v)))
  {
  }

  lemma VoteReplyKeepsPeer(p: Peer, n: nat, v: nat, va: VoteArgs, r: VoteReply)
    requires PeerOk(p, n, v) && va.term >= 1
    ensures PeerOk(OnVoteReply(p, va, r), n, v)
  {
  }

  lemma AppendReplyKeepsPeer(p: Peer, n: nat, v: nat, j: nat, a: AppendArgs, r: AppendReply)
    requires PeerOk(p, n, v) && j < n
    ensures PeerOk(OnAppendReply(p, j, a, r), n, v)
  {
  }

  lemma DurablePut(c: Cluster, c': Cluster, v: nat, p': Peer)
    requires Durable(c) && v < |c.peers|
    requires |c'.sent| == |c.sent| && c'.peers == c.peers[v := p']
    requires PeerOk(p', |c.peers|, v) && p'.stable.term >= c.peers[v].stable.term
    requires forall k :: k in c'.net ==> k in c.net || (CallOk(k, |c.peers|) && Stood(c', k))
    ensures Durable(c')
  {
  }

  lemma DurableVotes(c: Cluster, e: Event)
    requires Durable(c) && Enabled(c, e) && (e.HandleVote? || e.FinishVote?)
    ensures Durable(Next(c, e))
  {
    var k := e.call;
    if e.HandleVote? {
      DurablePut(c, Next(c, e), k.dst, OnRequestVote(c.peers[k.dst], k.va).0);
    } else {
      var v := k.va.cand;
      VoteReplyKeepsPeer(c.peers[v], |c.peers|, v, k.va, k.vr.value);
      DurablePut(c, Next(c, e), v, OnVoteReply(c.peers[v], k.va, k.vr.value));
    }
  }

  lemma DurableHandleAppend(c: Cluster, k: Call)
    requires Durable(c) && Enabled(c, HandleAppend(k))
    ensures Durable(Next(c, HandleAppend(k)))
  {
    assert CallOk(k, |c.peers|);
    AppendKeepsPeer(c.peers[k.dst], |c.peers|, k.dst, k.aa, k.full);
    AppendEffect(c.peers[k.dst], k.aa);
    DurablePut(c, Next(c, HandleAppend(k)), k.dst, OnAppend(c.peers[k.dst], k.aa).0);
  }

  lemma DurableFinishAppend(c: Cluster, k: Call)
    requires Durable(c) && Enabled(c, FinishAppend(k))
    ensures Durable(Next(c, FinishAppend(k)))
  {
    var v := k.aa.leader;
    AppendReplyKeepsPeer(c.peers[v], |c.peers|, v, k.dst, k.aa, k.ar.value);
    DurablePut(c, Next(c, FinishAppend(k)), v, OnAppendReply(c.peers[v], k.dst, k.aa, k.ar.value));
  }

  lemma DurableLocal(c: Cluster, e: Event)
    requires Durable(c) && Enabled(c, e)
    requires e.Timeout? || e.Candidacy? || e.Demote? || e.Submit? || e.Deliver? || e.Heartbeat?
             || e.Restart?
    ensures Durable(Next(c, e))
  {
    if e.Submit? {
      StartKeepsPeer(c.peers[e.v], |c.peers|, e.v, e.command);
    }
    DurablePut(c, Next(c, e), e.v, Next(c, e).peers[e.v]);
  }

  lemma DurableRead(c: Cluster, v: nat, va: VoteArgs)
    requires Durable(c) && Enabled(c, LateRead(v, va))
    ensures Durable(Next(c, LateRead(v, va)))
  {
    forall k | k in Ballots(c, v, BuildVote(c.peers[v]))
      ensures CallOk(k, |c.peers|) && Stood(c, k)
    {
      assert VoteCall(k.dst, va, None) in Ballots(c, v, va);
      assert Stood(c, VoteCall(k.dst, va, None));
    }
  }

  // A call that is overwritten with what it holds stays as it is.
  lemma OverwriteIsNone(c: Cluster, k: Call)
    requires Enabled(c, Overwrite(k)) && Untouched(c, Overwrite(k))
    ensures Next(c, Overwrite(k)) == c
  {
    assert c.net - {k} + {k} == c.net;
  }

  lemma DurableStep(c: Cluster, e: Event)
    requires Durable(c) && Enabled(c, e) && Untouched(c, e)
    ensures Durable(Next(c, e))
  {
    if e.Broadcast? {
      BroadcastKeeps(c, e.v);
    } else if e.HandleVote? || e.FinishVote? {
      DurableVotes(c, e);
    } else if e.HandleAppend? {
      DurableHandleAppend(c, e.call);
    } else if e.FinishAppend? {
      DurableFinishAppend(c, e.call);
    } else if e.LateRead? {
      DurableRead(c, e.v, e.va);
    } else if e.Overwrite? {
      OverwriteIsNone(c, e.call);
    } else if !e.Lose? {
      DurableLocal(c, e);
    }
  }

  /** Main result (H3): in every state of every run, with any loss, delay or reordering of calls,
      restarts at any time and requests read at any time, each log is well formed, its terms are sorted
      and at most the server's term, the persisted log is the log in memory, and the persisted term
      covers every entry and is at most the current term. */
  lemma {:induction false} AlwaysDurable(tr: seq<Cluster>, es: seq<Event>, i: nat)
    requires Run(tr, es) && UntouchedRun(tr, es) && i < |tr|
    ensures Durable(tr[i])
  {
    if i > 0 {
      AlwaysDurable(tr, es, i - 1);
      assert StepAt(tr, es, i - 1);
      DurableStep(tr[i - 1], es[i - 1]);
    }
  }

  // ----- without any hypothesis -----

  // Entries sit at their indices, in logs and in calls.
  ghost predicate Formed(c: Cluster) {
    && Shape(c)
    && (forall v :: 0 <= v < |c.peers| ==> Indexed(c.peers[v].stable.log))
    && (forall k :: k in c.net && k.AppendCall? ==> Consecutive(k.aa))
  }

  lemma FormedAppend(c: Cluster, k: Call)
    requires Formed(c) && Enabled(c, HandleAppend(k))
    ensures Formed(Next(c, HandleAppend(k)))
  {
    AppendKeepsIndexed(c.peers[k.dst], k.aa);
    AppendEffect(c.peers[k.dst], k.aa);
  }

  lemma FormedCalls(c: Cluster, e: Event)
    requires Formed(c) && Enabled(c, e) && (e.Broadcast? || e.Overwrite?)
    ensures Formed(Next(c, e))
  {
    var c' := Next(c, e);
    forall k | k in c'.net && k.AppendCall? ensures Consecutive(k.aa) {
    }
  }

  lemma FormedPut(c: Cluster, e: Event, v: nat)
    requires Formed(c) && Enabled(c, e) && v < |c.peers| && |Next(c, e).peers| == |c.peers|
    requires Next(c, e).peers == c.peers[v := Next(c, e).peers[v]]
    requires PeerShape(Next(c, e).peers[v], |c.peers|, v) && Indexed(Next(c, e).peers[v].stable.log)
    requires !e.Broadcast? && !e.Overwrite?
    ensures Formed(Next(c, e))
  {
    var c' := Next(c, e);
    forall k | k in c'.net ensures CallShape(k, |c.peers|) && (k.AppendCall? ==> Consecutive(k.aa)) {
    }
  }

  lemma FormedReply(c: Cluster, e: Event)
    requires Formed(c) && Enabled(c, e) && (e.HandleVote? || e.FinishVote? || e.FinishAppend?)
    ensures Formed(Next(c, e))
  {
    var k := e.call;
    assert CallShape(k, |c.peers|);
    if e.HandleVote? {
      FormedPut(c, e, k.dst);
    } else if e.FinishVote? {
      FormedPut(c, e, k.va.cand);
    } else {
      FormedPut(c, e, k.aa.leader);
    }
  }

  lemma FormedStep(c: Cluster, e: Event)
    requires Formed(c) && Enabled(c, e)
    ensures Formed(Next(c, e))
  {
    if e.HandleAppend? {
      FormedAppend(c, e.call);
    } else if e.HandleVote? || e.FinishVote? || e.FinishAppend? {
      FormedReply(c, e);
    } else if e.Broadcast? || e.Overwrite? {
      FormedCalls(c, e);
    } else if !e.Lose? {
      FormedPut(c, e, e.v);
    }
  }

  /** Whatever happens to calls, requests and servers, every event finds what its handler relies on:
      `Enabled` excludes no state of a run on that account. */
  lemma {:induction false} AlwaysShaped(tr: seq<Cluster>, es: seq<Event>, i: nat)
    requires Run(tr, es) && i < |tr|
    ensures Formed(tr[i])
  {
    if i > 0 {
      AlwaysShaped(tr, es, i - 1);
      assert StepAt(tr, es, i - 1);
      FormedStep(tr[i - 1], es[i - 1]);
    }
  }
}
