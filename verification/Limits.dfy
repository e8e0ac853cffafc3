/** Where the step conditions are exact: each holds if and only if the step does no harm. */
module Limits {
  import opened Wrappers
  import opened RaftCore
  import opened Cluster
  import opened DurableLog
  import opened LogMatching
  import opened Replication
  import opened Invariant

  /** H4, one step.  The branch that accepts a call truncates the log without looking at what is
      cut off.  The follower still holds everything it has acknowledged to the leader of that term
      if and only if the call reaches at least as far as those acknowledgements. */
  lemma AcceptRetainsIff(c: Cluster, k: Call)
    requires Basic(c) && k in c.net && k.AppendCall? && k.dst < |c.peers|
    requires Accepts(c.peers[k.dst], k.aa)
    ensures k.aa.term in c.h.reigns
    ensures Acked(c.h, At(k.dst, k.aa.term)) < |c.h.reigns[k.aa.term].log|
    ensures Indexed(c.peers[k.dst].log)
    ensures var acked := c.h.reigns[k.aa.term].log[..Acked(c.h, At(k.dst, k.aa.term)) + 1];
            acked <= OnAppend(c.peers[k.dst], k.aa).0.log
            <==> Acked(c.h, At(k.dst, k.aa.term)) <= k.aa.prevIdx + |k.aa.entries|
  {
    var p := c.peers[k.dst];
    assert PeerOk(p, |c.peers|, k.dst);
    assert ReplOk(c.h, k) && ReignOk(c.h, c.peers, k.aa.term) && Sane(c.h, c.peers[k.dst].log);
    var a := At(k.dst, k.aa.term);
    assert a in c.h.acks ==> AckOk(c.h, c.peers, a);
    SpliceIsFull(c.h, c.peers, p, k);
    AppendEffect(p, k.aa);
  }

  /** H3, one call.  Taking over what its sender's array holds by now leaves a call the slice of a
      well formed log that it was if and only if the sender's log has, as far as both go, the
      call's entries: it was not truncated below them, or has taken them over again. */
  lemma OverwriteKeepsIff(c: Cluster, k: Call)
    requires Durable(c) && Enabled(c, Overwrite(k))
    ensures CallOk(k, |c.peers|)
    ensures var log := c.peers[k.aa.leader].log;
            Durable(Next(c, Overwrite(k))) <==>
              forall i :: k.aa.prevIdx < i < |log| && i < |k.full| ==> log[i] == k.full[i]
  {
    var k' := Overwritten(c, k);
    assert CallOk(k, |c.peers|);
    OverlayKeepsIff(c.peers[k.aa.leader].log, k.aa, k.full);
    if Durable(Next(c, Overwrite(k))) {
      assert k' in Next(c, Overwrite(k)).net && CallOk(k', |c.peers|);
    } else if k' == k {
      OverwriteIsNone(c, k);
    }
  }

  lemma OverlayKeepsIff(log: seq<Entry>, a: AppendArgs, full: seq<Entry>)
    requires SliceOf(a, full)
    ensures Overlay(log, a) == a.entries <==>
              forall i :: a.prevIdx < i < |log| && i < |full| ==> log[i] == full[i]
  {
    if Overlay(log, a) == a.entries {
      forall i | a.prevIdx < i < |log| && i < |full| ensures log[i] == full[i] {
        assert Overlay(log, a)[i - a.prevIdx - 1] == log[i];
      }
    }
  }

  // The leader after submitting the commands one by one.
  function SubmitAll(p: Peer, commands: seq<Command>): (q: Peer)
    requires |p.log| > 0
    ensures |q.log| > 0 && p.log <= q.log
    ensures q.matchIdx == p.matchIdx && q.term == p.term && q.me == p.me
    decreases commands
  {
    if commands == [] then p else SubmitAll(OnStart(p, commands[0]), commands[1..])
  }

  // The commit loop would count server j as a holder of some entry of the leader's own term.
  predicate CountsFor(p: Peer, j: nat) {
    exists i :: 0 <= i < |p.log| && p.log[i].term == p.term && j in Holders(p, i)
  }

  // After submitting some commands, the loop would count server j, which has acknowledged nothing.
  ghost predicate Miscounts(p: Peer, j: nat)
    requires |p.log| > 0
  {
    exists commands: seq<Command> :: CountsFor(SubmitAll(p, commands), j)
  }

  /** H5, one win.  A win re-initializes the next indices and not the match indices.  Before any
      reply of the new term has arrived, the commit loop can come to count a server for an entry of
      the new term if and only if it is another server whose left-over match index lies past the end of the
      log. */
  lemma StaleMatchIff(p: Peer, j: nat)
    requires LogOk(p.log) && TermsUpTo(p.log, p.term) && p.role == Leader
    requires j < |p.matchIdx|
    requires Last(p.log).term < p.term
    ensures Miscounts(p, j) <==> j != p.me && p.matchIdx[j] >= |p.log|
  {
    if j != p.me && p.matchIdx[j] >= |p.log| {
      var q := OnStart(p, Nil);
      assert [Nil][1..] == [];
      assert SubmitAll(p, [Nil]) == SubmitAll(q, []) == q;
      assert q.log[|p.log|].term == q.term;
      assert CountsFor(SubmitAll(p, [Nil]), j);
    }
    forall commands | j == p.me || p.matchIdx[j] < |p.log| ensures !CountsFor(SubmitAll(p, commands), j) {
      NeverCounts(p, j, commands);
    }
  }

  lemma NeverCounts(p: Peer, j: nat, commands: seq<Command>)
    requires LogOk(p.log) && TermsUpTo(p.log, p.term) && j < |p.matchIdx|
    requires Last(p.log).term < p.term && (j == p.me || p.matchIdx[j] < |p.log|)
    ensures !CountsFor(SubmitAll(p, commands), j)
  {
  }

  // A request from some other server that makes p, which is server v, vote in a term in which v
  // has voted for somebody else before.
  predicate VotesAgain(c: Cluster, v: nat, p: Peer, a: VoteArgs)
    requires |p.log| > 0
  {
    && a.cand < |c.peers| && a.cand != v
    && OnRequestVote(p, a).1.granted
    && At(v, a.term) in c.h.votes && c.h.votes[At(v, a.term)] != a.cand
  }

  // A vote of v in its persisted term or a later one, and another server that can still ask for it.
  predicate Forgettable(c: Cluster, v: nat, k: At, w: nat)
    requires v < |c.peers|
  {
    && k in c.h.votes && k.server == v && k.term >= c.peers[v].stable.term
    && w < |c.peers| && w != v && w != c.h.votes[k]
  }

  /** H1, one restart.  The vote is not read back after a crash, and granting a vote does not write
      it.  Some request of another server, whether or not any continuation of the run sends it, would
      get a second vote of one term from the restarted server if and only if that server had voted in
      its persisted term or a later one and there is a server, other than itself and the one it voted
      for, to ask again.  With three servers or more that is exactly when the restart is not careful. */
  lemma RestartForgetsIff(c: Cluster, v: nat)
    requires Durable(c) && v < |c.peers|
    ensures |c.peers[v].stable.log| > 0
    ensures var p := Boot(|c.peers|, v, Some(c.peers[v].stable));
            && ((exists a :: VotesAgain(c, v, p, a)) <==>
                  (exists k, w: nat :: Forgettable(c, v, k, w)))
            && (|c.peers| >= 3 ==>
                  ((exists a :: VotesAgain(c, v, p, a)) <==> !Careful(c, Restart(v))))
  {
    assert PeerOk(c.peers[v], |c.peers|, v);
    var p := Boot(|c.peers|, v, Some(c.peers[v].stable));
    forall k, w: nat | Forgettable(c, v, k, w) ensures exists a :: VotesAgain(c, v, p, a) {
      assert k == At(v, k.term);
      assert VotesAgain(c, v, p, VoteArgs(k.term, w, Last(p.log).index, Last(p.log).term));
    }
    forall a | VotesAgain(c, v, p, a) ensures exists k, w: nat :: Forgettable(c, v, k, w) {
      assert Forgettable(c, v, At(v, a.term), a.cand);
    }
    if |c.peers| >= 3 && !Careful(c, Restart(v)) {
      var k :| k in c.h.votes && k.server == v && k.term >= c.peers[v].stable.term;
      var w := Third(v, c.h.votes[k]);
      assert Forgettable(c, v, k, w);
    }
  }

  // One of the first three servers is neither of two given ones.
  function Third(v: nat, w: nat): (r: nat)
    ensures r < 3 && r != v && r != w
  {
    if v != 0 && w != 0 then 0 else if v != 1 && w != 1 then 1 else 2
  }
}
