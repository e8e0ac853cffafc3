/**
    Runs of a few servers, written as scripts.

    A script is a run under construction; a move plays one event of the cluster, or a few, and says
    what it leaves in the last state and which of the hypotheses it keeps.
*/
module Scripts {
  import opened Wrappers
  import opened RaftCore
  import opened Cluster
  import opened DurableLog
  import opened Theorems
  import opened Hypotheses

  // A run under construction.
  datatype Script = Script(tr: seq<Cluster>, es: seq<Event>)

  ghost predicate Ok(s: Script) {
    Run(s.tr, s.es)
  }

  function Now(s: Script): Cluster
    requires |s.tr| > 0
  {
    s.tr[|s.tr| - 1]
  }

  // H4 so far, with all handled calls numbered below b.
  ghost predicate Ordered(s: Script, b: nat) {
    && InOrder(s.es)
    && forall i :: 0 <= i < |s.es| && s.es[i].HandleAppend? && s.es[i].call.AppendCall? ==>
         s.es[i].call.id < b
  }

  // H5 so far: server v has taken office in no term but office[v].
  ghost predicate Offices(s: Script, office: map<nat, nat>) {
    && |s.tr| == |s.es| + 1
    && forall i: nat, v: nat {:trigger TakesOffice(s.tr, s.es, i, v)} ::
         TakesOffice(s.tr, s.es, i, v) ==> v in office && s.tr[i].peers[v].term == office[v]
  }

  function Blank(n: nat): Cluster {
    Cluster(seq(n, v requires 0 <= v < n => Boot(n, v, None)), {}, 0, seq(n, _ => []),
            Ledger(map[], map[], map[], map[], map[]))
  }

  lemma Begin(n: nat) returns (s: Script)
    ensures Ok(s) && Ordered(s, 0) && Offices(s, map[]) && Slips(s.es) == []
    ensures Now(s) == Blank(n)
  {
    s := Script([Blank(n)], []);
  }

  lemma Play(s: Script, e: Event) returns (s': Script)
    requires Ok(s) && Enabled(Now(s), e)
    ensures Ok(s') && Now(s') == Next(Now(s), e)
    ensures s' == Script(s.tr + [Next(Now(s), e)], s.es + [e])
    ensures Slips(s'.es) == if IsSlip(e) then Slips(s.es) + [e] else Slips(s.es)
  {
    s' := Script(s.tr + [Next(Now(s), e)], s.es + [e]);
    RunGrows(s.tr, s.es, e, Next(Now(s), e));
    assert s'.es[..|s.es|] == s.es;
  }

  lemma RunGrows(tr: seq<Cluster>, es: seq<Event>, e: Event, c': Cluster)
    requires Run(tr, es) && Enabled(tr[|es|], e) && c' == Next(tr[|es|], e)
    ensures Run(tr + [c'], es + [e])
  {
    var tr', es' := tr + [c'], es + [e];
    assert tr'[0] == tr[0];
    forall i: nat | i < |es'| ensures StepAt(tr', es', i) {
      if i < |es| {
        assert StepAt(tr, es, i);
        assert tr'[i] == tr[i] && tr'[i + 1] == tr[i + 1] && es'[i] == es[i];
      } else {
        assert tr'[i] == tr[|es|] && tr'[i + 1] == c' && es'[i] == e;
      }
    }
  }

  // H1, H2 and H3 in their plain form exclude this event.
  predicate IsSlip(e: Event) {
    e.Restart? || e.LateRead? || e.Overwrite?
  }

  // All such events of a run, in order.
  function Slips(es: seq<Event>): seq<Event> {
    if es == [] then []
    else
      var (before, e) := (Slips(es[..|es| - 1]), es[|es| - 1]);
      if IsSlip(e) then before + [e] else before
  }

  lemma {:induction false} SlipsAreAll(es: seq<Event>)
    ensures Slips(es) == [] <==> Classic(es)
  {
    if es != [] {
      var before, e := es[..|es| - 1], es[|es| - 1];
      SlipsAreAll(before);
      assert es == before + [e];
    }
  }

  // What was true of the order of calls, of the offices and of the slips stays true.
  ghost predicate Carries(s: Script, s': Script) {
    && Slips(s'.es) == Slips(s.es)
    && (forall b :: Ordered(s, b) ==> Ordered(s', b))
    && (forall o :: Offices(s, o) ==> Offices(s', o))
  }

  lemma Plain(s: Script, e: Event) returns (s': Script)
    requires Ok(s) && Enabled(Now(s), e)
    requires !e.HandleAppend? && !e.FinishVote? && !IsSlip(e)
    ensures Ok(s') && Now(s') == Next(Now(s), e) && Carries(s, s')
  {
    s' := Play(s, e);
    forall b | Ordered(s, b) ensures Ordered(s', b) {
    }
    forall o | Offices(s, o) ensures Offices(s', o) {
      forall i: nat, v: nat | TakesOffice(s'.tr, s'.es, i, v)
        ensures v in o && s'.tr[i].peers[v].term == o[v]
      {
        assert TakesOffice(s.tr, s.es, i, v);
      }
    }
  }

  lemma ShapeNow(s: Script)
    requires Ok(s)
    ensures Shape(Now(s))
  {
    AlwaysShaped(s.tr, s.es, |s.tr| - 1);
  }

  // Only the peer v changed; no call was lost.
  ghost predicate Moved(c: Cluster, c': Cluster, v: nat, p': Peer) {
    && v < |c.peers| && c'.peers == c.peers[v := p'] && c'.sent == c.sent && c.net <= c'.net
  }

  // ----- moves -----

  lemma Stand(s: Script, v: nat) returns (s': Script)
    requires Ok(s) && v < |Now(s).peers|
    ensures Ok(s') && Carries(s, s') && Now(s').clock == Now(s).clock
    ensures |Now(s).peers[v].log| > 0
    ensures var p' := OnCandidacy(OnTimeout(Now(s).peers[v]));
            && Moved(Now(s), Now(s'), v, p')
            && forall j: nat :: j < |Now(s).peers| && j != v ==>
                 VoteCall(j, BuildVote(p'), None) in Now(s').net
  {
    ShapeNow(s);
    var s1 := Plain(s, Timeout(v));
    ShapeNow(s1);
    s' := Plain(s1, Candidacy(v));
    var p' := OnCandidacy(OnTimeout(Now(s).peers[v]));
    forall j: nat | j < |Now(s).peers| && j != v
      ensures VoteCall(j, BuildVote(p'), None) in Now(s').net {
      assert VoteCall(j, BuildVote(p'), None) in Ballots(Now(s1), v, BuildVote(p'));
    }
  }

  // The server w handles the request for its vote.
  lemma Ask(s: Script, w: nat, va: VoteArgs) returns (s': Script, r: VoteReply)
    requires Ok(s) && VoteCall(w, va, None) in Now(s).net
    ensures Ok(s') && Carries(s, s') && Now(s').clock == Now(s).clock && w < |Now(s).peers|
    ensures |Now(s).peers[w].log| > 0
    ensures r == OnRequestVote(Now(s).peers[w], va).1
    ensures Now(s').peers == Now(s).peers[w := OnRequestVote(Now(s).peers[w], va).0]
    ensures Now(s').sent == Now(s).sent
    ensures Now(s').net == Now(s).net - {VoteCall(w, va, None)} + {VoteCall(w, va, Some(r))}
  {
    ShapeNow(s);
    r := OnRequestVote(Now(s).peers[w], va).1;
    s' := Plain(s, HandleVote(VoteCall(w, va, None)));
  }

  lemma Send(s: Script, v: nat, w: nat) returns (s': Script, k: Call)
    requires Ok(s) && v < |Now(s).peers| && w < |Now(s).peers|
    requires NextInRange(Now(s).peers[v]) && Addressed(Now(s).peers[v], w)
    ensures Ok(s') && Carries(s, s') && Now(s').clock == Now(s).clock + 1
    ensures Moved(Now(s), Now(s'), v, Now(s).peers[v])
    ensures k == AppendCall(Now(s).clock, w, BuildAppend(Now(s).peers[v], w),
                            Now(s).peers[v].log, None)
    ensures k in Now(s').net
  {
    ShapeNow(s);
    s' := Plain(s, Broadcast(v));
    k := AppendCall(Now(s).clock, w, BuildAppend(Now(s).peers[v], w), Now(s).peers[v].log, None);
    assert k in Heartbeats(Now(s), v);
  }

  // The reply of server w to the candidate is counted.
  lemma Count(s: Script, w: nat, va: VoteArgs, r: VoteReply) returns (s': Script)
    requires Ok(s) && VoteCall(w, va, Some(r)) in Now(s).net
    ensures Slips(s'.es) == Slips(s.es)
    ensures Ok(s') && Now(s').clock == Now(s).clock
    ensures va.cand < |Now(s).peers| && |Now(s).peers[va.cand].log| > 0
    ensures Now(s').peers == Now(s).peers[va.cand := OnVoteReply(Now(s).peers[va.cand], va, r)]
    ensures Now(s').sent == Now(s).sent
    ensures Now(s').net == Now(s).net - {VoteCall(w, va, Some(r))}
    ensures forall b :: Ordered(s, b) ==> Ordered(s', b)
    ensures forall o {:trigger Offices(s, o)} :: Offices(s, o) && va.cand !in o ==>
              Offices(s', o[va.cand := Now(s).peers[va.cand].term])
  {
    ShapeNow(s);
    var e := FinishVote(VoteCall(w, va, Some(r)));
    s' := Play(s, e);
    forall b | Ordered(s, b) ensures Ordered(s', b) {
    }
    forall o | Offices(s, o) && va.cand !in o
      ensures Offices(s', o[va.cand := Now(s).peers[va.cand].term])
    {
      var o' := o[va.cand := Now(s).peers[va.cand].term];
      forall i: nat, v: nat | TakesOffice(s'.tr, s'.es, i, v)
        ensures v in o' && s'.tr[i].peers[v].term == o'[v]
      {
        assert TakesOffice(s.tr, s.es, i, v) || i == |s.es|;
      }
    }
  }

  // Server v stands, gets the vote of w, and leads; the request to the third server is in flight.
  lemma Elect(s: Script, v: nat, w: nat) returns (s': Script)
    requires Ok(s) && v < 3 && w < 3 && v != w && |Now(s).peers| == 3
    requires Now(s).peers[w].term <= Now(s).peers[v].term
    requires |Now(s).peers[v].log| > 0 && |Now(s).peers[w].log| > 0
    requires UpToDate(BuildVote(Now(s).peers[v]), Now(s).peers[w].log)
    ensures Slips(s'.es) == Slips(s.es)
    ensures Ok(s') && |Now(s').peers| == 3 && Now(s').sent == Now(s).sent
    ensures Now(s').clock == Now(s).clock
    ensures var p := OnCandidacy(OnTimeout(Now(s).peers[v]));
            var q := Now(s).peers[w];
            && Now(s').peers ==
                 Now(s).peers[v := p.(votes := 2, role := Leader,
                                      nextIdx := seq(3, _ => Last(p.log).index + 1))]
                             [w := StepDown(q, p.term).(votedFor := v)]
            && VoteCall(3 - v - w, BuildVote(p), None) in Now(s').net
            && (forall b :: Ordered(s, b) ==> Ordered(s', b))
            && (forall o {:trigger Offices(s, o)} :: Offices(s, o) && v !in o ==>
                  Offices(s', o[v := p.term]))
    ensures forall k :: k in Now(s).net && (k.VoteCall? ==> k.va.cand != v) ==> k in Now(s').net
  {
    ShapeNow(s);
    var p := OnCandidacy(OnTimeout(Now(s).peers[v]));
    var s1 := Stand(s, v);
    var s2, r := Ask(s1, w, BuildVote(p));
    s' := Count(s2, w, BuildVote(p), r);
    assert p.stable == Stable(p.term, p.votedFor, p.log);
  }

  // The follower handles the call, and the leader its reply.
  lemma Handle(s: Script, k: Call) returns (s': Script, r: AppendReply)
    requires Ok(s) && k in Now(s).net && k.AppendCall? && k.ar.None?
    ensures Slips(s'.es) == Slips(s.es)
    ensures Ok(s') && Now(s').clock == Now(s).clock
    ensures k.dst < |Now(s).peers| && Indexed(Now(s).peers[k.dst].log)
    ensures r == OnAppend(Now(s).peers[k.dst], k.aa).1
    ensures Now(s').peers == Now(s).peers[k.dst := OnAppend(Now(s).peers[k.dst], k.aa).0]
    ensures Now(s').sent == Now(s).sent
    ensures Now(s').net == Now(s).net - {k} + {k.(ar := Some(r))}
    ensures Ordered(s, k.id) ==> Ordered(s', k.id + 1)
    ensures forall o :: Offices(s, o) ==> Offices(s', o)
  {
    ShapeNow(s);
    assert CallShape(k, |Now(s).peers|);
    r := OnAppend(Now(s).peers[k.dst], k.aa).1;
    s' := Play(s, HandleAppend(k));
    forall o | Offices(s, o) ensures Offices(s', o) {
      forall i: nat, v: nat | TakesOffice(s'.tr, s'.es, i, v)
        ensures v in o && s'.tr[i].peers[v].term == o[v]
      {
        assert TakesOffice(s.tr, s.es, i, v);
      }
    }
  }

  lemma Answer(s: Script, k: Call) returns (s': Script)
    requires Ok(s) && k in Now(s).net && k.AppendCall? && k.ar.Some?
    ensures Ok(s') && Carries(s, s') && Now(s').clock == Now(s).clock
    ensures k.dst < |Now(s).peers| && k.aa.leader < |Now(s).peers|
    ensures PeerShape(Now(s).peers[k.aa.leader], |Now(s).peers|, k.aa.leader)
    ensures Now(s').peers == Now(s).peers[k.aa.leader :=
              OnAppendReply(Now(s).peers[k.aa.leader], k.dst, k.aa, k.ar.value)]
    ensures Now(s').sent == Now(s).sent && Now(s').net == Now(s).net - {k}
  {
    ShapeNow(s);
    assert CallShape(k, |Now(s).peers|);
    s' := Plain(s, FinishAppend(k));
  }

  lemma Propose(s: Script, v: nat, command: Command) returns (s': Script)
    requires Ok(s) && v < |Now(s).peers|
    ensures Ok(s') && Carries(s, s') && Now(s').clock == Now(s).clock
    ensures |Now(s).peers[v].log| > 0
    ensures Moved(Now(s), Now(s'), v, OnStart(Now(s).peers[v], command))
    ensures Now(s').net == Now(s).net
  {
    ShapeNow(s);
    s' := Plain(s, Submit(v, command));
  }

  lemma Apply(s: Script, v: nat) returns (s': Script)
    requires Ok(s) && v < |Now(s).peers|
    requires Now(s).peers[v].pending > 0 && Now(s).peers[v].commit < |Now(s).peers[v].log|
    ensures Ok(s') && Carries(s, s') && |Now(s).sent| == |Now(s).peers| && Now(s').clock == Now(s).clock
    ensures Now(s').peers == Now(s).peers[v := OnApply(Now(s).peers[v])]
    ensures Now(s').net == Now(s).net
    ensures Now(s').sent == Now(s).sent[v := Now(s).sent[v] +
              Deliveries(Now(s).peers[v].log, Now(s).peers[v].applied, Now(s).peers[v].commit)]
  {
    ShapeNow(s);
    s' := Plain(s, Deliver(v));
  }
}
