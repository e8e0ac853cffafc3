/** The textbook hypotheses, delivery in order and one term of office for each server, imply the step
    conditions of `OrderlyRun`. */
module Hypotheses {
  import opened RaftCore
  import opened Cluster
  import opened DurableLog
  import opened Elections
  import opened LogMatching
  import opened Replication
  import opened Invariant
  import opened Completeness
  import opened Commitment
  import opened Soundness
  import opened Theorems

  // Both calls append from the leader of one term to one server.
  predicate SameStream(j: Call, k: Call) {
    j.AppendCall? && k.AppendCall? && j.dst == k.dst && j.aa.term == k.aa.term
  }

  // H4: calls to append from the leader of one term to one follower are handled in the order in
  // which they were built; any of them may be lost.
  ghost predicate InOrder(es: seq<Event>) {
    forall i, j | 0 <= i < j < |es| && es[i].HandleAppend? && es[j].HandleAppend? ::
      SameStream(es[i].call, es[j].call) ==> es[i].call.id < es[j].call.id
  }

  // H5: no server takes office in two different terms.
  ghost predicate OneTermEach(tr: seq<Cluster>, es: seq<Event>)
    requires Run(tr, es)
  {
    forall i: nat, j: nat, v: nat {:trigger TakesOffice(tr, es, i, v), TakesOffice(tr, es, j, v)} ::
      (TakesOffice(tr, es, i, v) && TakesOffice(tr, es, j, v)) ==>
        tr[i].peers[v].term == tr[j].peers[v].term
  }

  // ----- order of building and length -----

  lemma {:induction false} ClockGrows(tr: seq<Cluster>, es: seq<Event>, i: nat, j: nat)
    requires Run(tr, es) && i <= j < |tr|
    ensures tr[i].clock <= tr[j].clock
    ensures i < j && es[i].Broadcast? ==> tr[i].clock < tr[j].clock
  {
    if i < j {
      ClockGrows(tr, es, i, j - 1);
      assert StepAt(tr, es, j - 1);
    }
  }

  // Of two calls of one leader's term, the one built later was cut from a log at least as long.
  lemma LaterIsLonger(tr: seq<Cluster>, es: seq<Event>, i: nat, k: Call, j: nat, k': Call)
    requires Run(tr, es) && ProperRun(tr, es) && i < |tr| && j < |tr|
    requires k in tr[i].net && k.AppendCall? && k' in tr[j].net && k'.AppendCall?
    requires k.aa.term == k'.aa.term && k.id < k'.id
    ensures |k.full| <= |k'.full|
  {
    var b := Birth(tr, es, i, k);
    var b' := Birth(tr, es, j, k');
    if b' <= b {
      ClockGrows(tr, es, b', b);
    }
    ElectionSafety(tr, es, b, b', k.aa.leader, k'.aa.leader);
    RunBasic(tr, es, b);
    LedgerGrows(tr, es, b, b');
    LeaderAppendOnly(tr, es, b, b', k.aa.leader);
  }

  // ----- where acknowledgements come from -----

  lemma {:induction false} AckOrigin(tr: seq<Cluster>, es: seq<Event>, i: nat, a: At) returns (j: nat)
    requires Run(tr, es) && ProperRun(tr, es) && i < |tr|
    requires a in tr[i].h.acks && a.term in tr[i].h.reigns
    requires tr[i].h.reigns[a.term].leader != a.server
    ensures j < i && es[j].HandleAppend? && es[j].call in tr[j].net && es[j].call.AppendCall?
    ensures es[j].call.dst == a.server && es[j].call.aa.term == a.term
    ensures tr[i].h.acks[a] == |es[j].call.full| - 1
  {
    RunBasic(tr, es, i - 1);
    var c, e := tr[i - 1], es[i - 1];
    assert StepAt(tr, es, i - 1);
    AckStep(c, e, a);
    if a in c.h.acks && c.h.acks[a] == tr[i].h.acks[a] {
      LedgerGrows(tr, es, i - 1, i);
      assert AckOk(c.h, c.peers, a);
      j := AckOrigin(tr, es, i - 1, a);
    } else {
      j := i - 1;
    }
  }

  lemma AckFromCall(c: Cluster, k: Call, a: At)
    requires Basic(c) && Enabled(c, HandleAppend(k)) && a in Next(c, HandleAppend(k)).h.acks
    ensures var h' := Next(c, HandleAppend(k)).h;
            || (a in c.h.acks && c.h.acks[a] == h'.acks[a])
            || (k.dst == a.server && k.aa.term == a.term && h'.acks[a] == |k.full| - 1)
  {
    assert CallOk(k, |c.peers|);
  }

  lemma AckStep(c: Cluster, e: Event, a: At)
    requires Basic(c) && Enabled(c, e) && Proper(c, e) && a in Next(c, e).h.acks
    requires a.term in Next(c, e).h.reigns && Next(c, e).h.reigns[a.term].leader != a.server
    ensures (a in c.h.acks && c.h.acks[a] == Next(c, e).h.acks[a]) ||
            (e.HandleAppend? && e.call.AppendCall? && e.call.dst == a.server
             && e.call.aa.term == a.term && Next(c, e).h.acks[a] == |e.call.full| - 1)
  {
    if e.HandleAppend? {
      AckFromCall(c, e.call, a);
    } else if e.Submit? && c.peers[e.v].role == Leader {
      assert InOffice(c.h, e.v, c.peers[e.v]);
    }
  }

  // ----- where leaders come from -----

  lemma {:induction false} ReignOrigin(tr: seq<Cluster>, es: seq<Event>, i: nat, t: nat) returns (j: nat)
    requires Run(tr, es) && ProperRun(tr, es) && i < |tr| && t in tr[i].h.reigns
    ensures j < i && TakesOffice(tr, es, j, tr[i].h.reigns[t].leader)
    ensures tr[j].peers[tr[i].h.reigns[t].leader].term == t
  {
    RunBasic(tr, es, i - 1);
    if t in tr[i - 1].h.reigns {
      LedgerGrows(tr, es, i - 1, i);
      j := ReignOrigin(tr, es, i - 1, t);
    } else {
      j := i - 1;
      assert StepAt(tr, es, j);
      ReignStep(tr[j], es[j], t);
    }
  }

  lemma ReignStep(c: Cluster, e: Event, t: nat)
    requires Basic(c) && Enabled(c, e) && Proper(c, e)
    requires t in Next(c, e).h.reigns && t !in c.h.reigns
    ensures e.FinishVote? && e.call.VoteCall?
    ensures var v := e.call.va.cand;
            && v < |c.peers| && v < |Next(c, e).peers| && c.peers[v].term == t
            && Next(c, e).h.reigns[t].leader == v
            && c.peers[v].role != Leader && Next(c, e).peers[v].role == Leader
  {
  }

  // Only a leader has match indices other than 0.
  lemma {:induction false} MatchOrigin(tr: seq<Cluster>, es: seq<Event>, i: nat, v: nat, m: nat)
    returns (t: nat)
    requires Run(tr, es) && ProperRun(tr, es) && i < |tr| && v < |tr[i].peers|
    requires m < |tr[i].peers[v].matchIdx| && tr[i].peers[v].matchIdx[m] != 0
    ensures t in tr[i].h.reigns && tr[i].h.reigns[t].leader == v
  {
    RunBasic(tr, es, i - 1);
    LedgerGrows(tr, es, i - 1, i);
    var c, e := tr[i - 1], es[i - 1];
    assert StepAt(tr, es, i - 1);
    MatchStep(c, e, v);
    if c.peers[v].matchIdx == tr[i].peers[v].matchIdx {
      t := MatchOrigin(tr, es, i - 1, v, m);
    } else {
      t := c.peers[v].term;
      assert InOffice(c.h, v, c.peers[v]);
    }
  }

  lemma MatchStep(c: Cluster, e: Event, v: nat)
    requires Basic(c) && Enabled(c, e) && Proper(c, e) && v < |c.peers| && v < |Next(c, e).peers|
    ensures Next(c, e).peers[v].matchIdx == c.peers[v].matchIdx || c.peers[v].role == Leader
            || Next(c, e).peers[v].matchIdx == seq(|c.peers|, _ => 0)
  {
    if e.HandleAppend? {
      AppendEffect(c.peers[e.call.dst], e.call.aa);
    } else if e.FinishAppend? {
      MatchOnReply(c.peers[e.call.aa.leader], e.call);
    }
  }

  lemma MatchOnReply(p: Peer, k: Call)
    requires k.AppendCall? && k.ar.Some? && |p.log| > 0 && k.dst < |p.nextIdx| == |p.matchIdx|
    ensures OnAppendReply(p, k.dst, k.aa, k.ar.value).matchIdx == p.matchIdx || p.role == Leader
  {
  }

  // ----- the textbook hypotheses suffice -----

  lemma RetainsByOrder(tr: seq<Cluster>, es: seq<Event>, i: nat)
    requires Run(tr, es) && ProperRun(tr, es) && InOrder(es) && i < |es| && es[i].HandleAppend?
    ensures es[i].call.AppendCall? && Retains(tr[i].h, es[i].call)
  {
    var c, k := tr[i], es[i].call;
    RunBasic(tr, es, i);
    assert StepAt(tr, es, i);
    assert ReplOk(c.h, k);
    var a := At(k.dst, k.aa.term);
    if a in c.h.acks {
      var j := AckOrigin(tr, es, i, a);
      LaterIsLonger(tr, es, j, es[j].call, i, k);
    }
  }

  lemma WinIsFresh(tr: seq<Cluster>, es: seq<Event>, i: nat)
    requires Run(tr, es) && ProperRun(tr, es) && OneTermEach(tr, es) && i < |es| && es[i].FinishVote?
    requires Sound(tr[i])
    requires es[i].call.VoteCall? && es[i].call.vr.Some? && es[i].call.va.cand < |tr[i].peers|
    requires Wins(tr[i].peers[es[i].call.va.cand], es[i].call.va, es[i].call.vr.value)
    ensures FreshMatches(tr[i].peers[es[i].call.va.cand])
  {
    var c, v := tr[i], es[i].call.va.cand;
    var p := c.peers[v];
    assert PeerOk(c.peers[v], |c.peers|, v);
    forall m | 0 <= m < |p.matchIdx| && m != p.me ensures p.matchIdx[m] < |p.log| {
      if p.matchIdx[m] != 0 {
        var t := MatchOrigin(tr, es, i, v, m);
        var j := ReignOrigin(tr, es, i, t);
        assert StepAt(tr, es, i);
        assert TakesOffice(tr, es, i, v);
        assert MatchOk(c.h, c.peers[v]);
      }
    }
  }

  lemma {:induction false} ClassicSound(tr: seq<Cluster>, es: seq<Event>, i: nat)
    requires Run(tr, es) && ProperRun(tr, es) && InOrder(es) && OneTermEach(tr, es) && i < |tr|
    ensures Sound(tr[i])
    ensures i < |es| ==> OrderlyAt(tr, es, i)
  {
    if i == 0 {
      InitSound(tr[0]);
    } else {
      ClassicSound(tr, es, i - 1);
      assert OrderlyAt(tr, es, i - 1);
      SoundStep(tr[i - 1], es[i - 1]);
    }
    if i < |es| {
      ClassicStep(tr, es, i);
    }
  }

  lemma ClassicStep(tr: seq<Cluster>, es: seq<Event>, i: nat)
    requires Run(tr, es) && ProperRun(tr, es) && InOrder(es) && OneTermEach(tr, es) && i < |es|
    requires Sound(tr[i])
    ensures OrderlyAt(tr, es, i)
  {
    assert StepAt(tr, es, i);
    if es[i].HandleAppend? {
      RetainsByOrder(tr, es, i);
    } else if es[i].FinishVote? {
      if Wins(tr[i].peers[es[i].call.va.cand], es[i].call.va, es[i].call.vr.value) {
        WinIsFresh(tr, es, i);
      }
    }
  }

  // Under the textbook hypotheses the match indices that a server wins with lie inside its log.
  lemma FreshByOneTerm(tr: seq<Cluster>, es: seq<Event>, i: nat)
    requires Run(tr, es) && ProperRun(tr, es) && InOrder(es) && OneTermEach(tr, es)
    requires i < |es| && es[i].FinishVote?
    ensures es[i].call.VoteCall? && es[i].call.vr.Some? && es[i].call.va.cand < |tr[i].peers|
    ensures Wins(tr[i].peers[es[i].call.va.cand], es[i].call.va, es[i].call.vr.value) ==>
              FreshMatches(tr[i].peers[es[i].call.va.cand])
  {
    ClassicSound(tr, es, i);
    assert OrderlyAt(tr, es, i) && StepAt(tr, es, i);
    assert CallShape(es[i].call, |tr[i].peers|);
  }

  // H1, H2 and H3 in their plain form are a special case.
  lemma ClassicIsProper(tr: seq<Cluster>, es: seq<Event>)
    requires Run(tr, es) && Classic(es)
    ensures ProperRun(tr, es)
  {
  }

  /** H1 to H3, in the form of a proper run, H4 and H5 together imply the step conditions, so every
      theorem about orderly runs holds when calls arrive in order and no server leads two terms. */
  lemma ClassicRunsAreOrderly(tr: seq<Cluster>, es: seq<Event>)
    requires Run(tr, es) && ProperRun(tr, es) && InOrder(es) && OneTermEach(tr, es)
    ensures OrderlyRun(tr, es)
  {
    forall i: nat | i < |es| ensures OrderlyAt(tr, es, i) {
      ClassicSound(tr, es, i);
    }
  }
}
