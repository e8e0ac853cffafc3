/** No dead end: a leader can be elected, and any command delivered everywhere, from any state. */
module Progress {
  import opened Wrappers
  import opened RaftCore
  import opened Cluster
  import opened DurableLog
  import opened Elections
  import opened LogMatching
  import opened Replication
  import opened Invariant
  import opened Completeness
  import opened Commitment
  import opened Soundness
  import opened Theorems
  import opened BackUp
  import opened Handlers
  import opened Delivery
  import opened Scripts

  // ----- continuations -----

  ghost predicate Going(s: Script) {
    Run(s.tr, s.es) && OrderlyRun(s.tr, s.es)
  }

  // `t` goes on from `s`, with events that H1, H2 and H3 allow in their plain form.
  ghost predicate Continues(s: Script, t: Script) {
    Going(t) && s.tr <= t.tr && s.es <= t.es && Classic(t.es[|s.es|..])
  }

  lemma Chain(s: Script, t: Script, u: Script)
    requires Continues(s, t) && Continues(t, u)
    ensures Continues(s, u)
  {
    assert u.es[|s.es|..] == t.es[|s.es|..] + u.es[|t.es|..];
  }

  lemma Grow(s: Script, e: Event) returns (t: Script)
    requires Going(s) && Enabled(Now(s), e) && Orderly(Now(s), e) && !IsSlip(e)
    ensures Continues(s, t) && Now(t) == Next(Now(s), e)
  {
    t := Play(s, e);
    assert t.es[|s.es|..] == [e];
    forall i: nat | i < |t.es| ensures OrderlyAt(t.tr, t.es, i) {
      assert StepAt(t.tr, t.es, i);
      if i < |s.es| {
        assert OrderlyAt(s.tr, s.es, i);
        assert t.tr[i] == s.tr[i] && t.es[i] == s.es[i];
      }
    }
  }

  lemma Facts(s: Script)
    requires Going(s)
    ensures Sound(Now(s)) && Shape(Now(s)) && Owed(Now(s)) && Continues(s, s)
  {
    RunSound(s.tr, s.es, |s.es|);
    AlwaysOwed(s.tr, s.es, |s.es|);
    assert forall v :: 0 <= v < |Now(s).peers| ==> PeerOk(Now(s).peers[v], |Now(s).peers|, v);
  }

  // ----- an election -----

  // What an election leaves alone.
  predicate Unmoved(p: Peer, q: Peer) {
    && q.log == p.log && q.commit == p.commit && q.applied == p.applied
    && q.matchIdx == p.matchIdx && q.me == p.me
  }

  predicate AllUnmoved(c: Cluster, c': Cluster) {
    && |c'.peers| == |c.peers|
    && forall w :: 0 <= w < |c.peers| ==> Unmoved(c.peers[w], c'.peers[w])
  }

  // v stands and has not counted a vote yet; its requests are in flight.
  ghost predicate Standing(c: Cluster, v: nat) {
    && v < |c.peers| && c.peers[v].role == Candidate && c.peers[v].votes == 1
    && |c.peers[v].log| > 0
    && forall j: nat :: j < |c.peers| && j != v ==> VoteCall(j, BuildVote(c.peers[v]), None) in c.net
  }

  lemma StandOnce(s: Script, v: nat) returns (t: Script)
    requires Going(s) && v < |Now(s).peers|
    ensures Continues(s, t) && Standing(Now(t), v) && AllUnmoved(Now(s), Now(t))
    ensures forall w :: 0 <= w < |Now(s).peers| && w != v ==> Now(t).peers[w] == Now(s).peers[w]
    ensures Now(t).peers[v].term == Now(s).peers[v].term + 1
  {
    Facts(s);
    var s1 := Grow(s, Timeout(v));
    Facts(s1);
    t := Grow(s1, Candidacy(v));
    Chain(s, s1, t);
    var va := BuildVote(Now(t).peers[v]);
    forall j: nat | j < |Now(t).peers| && j != v ensures VoteCall(j, va, None) in Now(t).net {
      assert VoteCall(j, va, None) in Ballots(Now(s1), v, va);
    }
  }

  // By standing often enough a server comes past any term.
  lemma {:induction false} StandPast(s: Script, v: nat, goal: nat) returns (t: Script)
    requires Going(s) && v < |Now(s).peers|
    ensures Continues(s, t) && Standing(Now(t), v) && AllUnmoved(Now(s), Now(t))
    ensures forall w :: 0 <= w < |Now(s).peers| && w != v ==> Now(t).peers[w] == Now(s).peers[w]
    ensures Now(t).peers[v].term > goal
    decreases if Now(s).peers[v].term <= goal then goal + 1 - Now(s).peers[v].term else 0
  {
    t := StandOnce(s, v);
    if Now(t).peers[v].term <= goal {
      var s1 := t;
      t := StandPast(s1, v, goal);
      Chain(s, s1, t);
    }
  }

  // The other servers that would vote for v in a new term.
  function Supporters(c: Cluster, v: nat): set<nat>
    requires v < |c.peers|
  {
    set w | w in Servers(|c.peers|) && w != v && |c.peers[v].log| > 0 && |c.peers[w].log| > 0
            && !Ahead(c.peers[w].log, Last(c.peers[v].log).term, Last(c.peers[v].log).index)
  }

  // w is in an older term than the candidate v, has its request in flight and would grant it.
  ghost predicate WouldVote(c: Cluster, v: nat, w: nat)
    requires v < |c.peers| && |c.peers[v].log| > 0
  {
    && w < |c.peers| && w != v && c.peers[w].term < c.peers[v].term && |c.peers[w].log| > 0
    && !Ahead(c.peers[w].log, Last(c.peers[v].log).term, Last(c.peers[v].log).index)
    && VoteCall(w, BuildVote(c.peers[v]), None) in c.net
  }

  // The votes it has and those it can get make v a leader.
  ghost predicate CanWin(c: Cluster, v: nat, voters: set<nat>) {
    && v < |c.peers| && PeerShape(c.peers[v], |c.peers|, v) && c.peers[v].role == Candidate
    && FreshMatches(c.peers[v])
    && c.peers[v].votes <= |c.peers| / 2 < c.peers[v].votes + |voters|
    && (forall w :: w in voters ==> WouldVote(c, v, w))
    && (forall w :: 0 <= w < |c.peers| ==> c.peers[w].term <= c.peers[v].term)
  }

  // v leads, and no server is past its term.
  ghost predicate Leads(c: Cluster, v: nat) {
    && v < |c.peers| && c.peers[v].role == Leader
    && forall w :: 0 <= w < |c.peers| ==> c.peers[w].term <= c.peers[v].term
  }

  ghost predicate Asks(c: Cluster, v: nat, w: nat) {
    v < |c.peers| && c.peers[v].me == v && |c.peers[v].log| > 0 && WouldVote(c, v, w)
  }

  // The servers after w has granted v its vote and v has counted it.
  function Voted(peers: seq<Peer>, v: nat, w: nat): seq<Peer>
    requires v < |peers| && w < |peers| && |peers[v].log| > 0
  {
    var (p, q) := (peers[v], peers[w]);
    peers[w := q.(term := p.term, votedFor := v, role := Follower)]
         [v := OnVoteReply(p, BuildVote(p), VoteReply(p.term, true))]
  }

  lemma AskFor(s: Script, v: nat, w: nat) returns (t: Script, k: Call)
    requires Going(s) && Asks(Now(s), v, w)
    ensures Continues(s, t) && |Now(s).peers[v].log| > 0
    ensures Now(t).peers == Now(s).peers[w := Now(s).peers[w].(
                              term := Now(s).peers[v].term, votedFor := v, role := Follower)]
    ensures k == VoteCall(w, BuildVote(Now(s).peers[v]), Some(VoteReply(Now(s).peers[v].term, true)))
    ensures k in Now(t).net
    ensures forall j :: j in Now(s).net && j.dst != w ==> j in Now(t).net
  {
    Facts(s);
    var va := BuildVote(Now(s).peers[v]);
    VoteIsGrantedIff(Now(s).peers[w], va);
    t := Grow(s, HandleVote(VoteCall(w, va, None)));
    k := VoteCall(w, va, Some(VoteReply(va.term, true)));
  }

  lemma AskAndCount(s: Script, v: nat, w: nat) returns (t: Script)
    requires Going(s) && Asks(Now(s), v, w) && FreshMatches(Now(s).peers[v])
    ensures Continues(s, t) && Now(t).peers == Voted(Now(s).peers, v, w)
    ensures forall j :: j in Now(s).net && j.dst != w ==> j in Now(t).net
  {
    var s1, k := AskFor(s, v, w);
    Facts(s1);
    t := Grow(s1, FinishVote(k));
    Chain(s, s1, t);
  }

  lemma VotedUnmoved(c: Cluster, c': Cluster, v: nat, voters: set<nat>, w: nat)
    requires CanWin(c, v, voters) && w in voters && w < |c.peers|
    requires c'.peers == Voted(c.peers, v, w)
    requires forall j :: j in c.net && j.dst != w ==> j in c'.net
    ensures AllUnmoved(c, c')
    ensures Leads(c', v) || CanWin(c', v, voters - {w})
  {
    assert WouldVote(c, v, w);
    if c'.peers[v].role != Leader {
      forall x | x in voters - {w} ensures WouldVote(c', v, x) {
        assert WouldVote(c, v, x);
      }
    }
  }

  lemma TakeVote(s: Script, v: nat, voters: set<nat>, w: nat) returns (t: Script)
    requires Going(s) && CanWin(Now(s), v, voters) && w in voters
    ensures Continues(s, t) && AllUnmoved(Now(s), Now(t))
    ensures Leads(Now(t), v) || CanWin(Now(t), v, voters - {w})
  {
    assert WouldVote(Now(s), v, w);
    t := AskAndCount(s, v, w);
    VotedUnmoved(Now(s), Now(t), v, voters, w);
  }

  lemma {:induction false} Win(s: Script, v: nat, voters: set<nat>) returns (t: Script)
    requires Going(s) && CanWin(Now(s), v, voters)
    ensures Continues(s, t) && AllUnmoved(Now(s), Now(t)) && Leads(Now(t), v)
    decreases |voters|
  {
    var w :| w in voters;
    t := TakeVote(s, v, voters, w);
    if !Leads(Now(t), v) {
      var s1 := t;
      t := Win(s1, v, voters - {w});
      Chain(s, s1, t);
    }
  }

  function MaxTerm(peers: seq<Peer>): nat {
    if peers == [] then 0 else Max(MaxTerm(peers[..|peers| - 1]), peers[|peers| - 1].term)
  }

  lemma {:induction false} MaxTermIsMax(peers: seq<Peer>, w: nat)
    requires w < |peers|
    ensures peers[w].term <= MaxTerm(peers)
  {
    if w < |peers| - 1 {
      MaxTermIsMax(peers[..|peers| - 1], w);
    }
  }

  lemma StandingCanWin(c: Cluster, c': Cluster, v: nat)
    requires |c.peers| >= 2 && v < |c.peers| && FreshMatches(c.peers[v])
    requires 1 + |Supporters(c, v)| > |c.peers| / 2
    requires Standing(c', v) && AllUnmoved(c, c') && PeerShape(c'.peers[v], |c'.peers|, v)
    requires forall w :: 0 <= w < |c.peers| && w != v ==>
               c'.peers[w] == c.peers[w] && c.peers[w].term < c'.peers[v].term
    ensures CanWin(c', v, Supporters(c, v))
  {
    forall w | w in Supporters(c, v) ensures WouldVote(c', v, w) {
    }
  }

  /** An election is always possible: from every state of an orderly run with two servers or more,
      each server that a majority, itself included, would vote for can become a leader whose term no
      server is past, if no left-over match index of its lies past its log. */
  lemma CanLead(s: Script, v: nat) returns (t: Script)
    requires Going(s) && |Now(s).peers| >= 2 && v < |Now(s).peers| && FreshMatches(Now(s).peers[v])
    requires 1 + |Supporters(Now(s), v)| > |Now(s).peers| / 2
    ensures Continues(s, t) && AllUnmoved(Now(s), Now(t)) && Leads(Now(t), v)
  {
    var goal := MaxTerm(Now(s).peers);
    forall w: nat | w < |Now(s).peers| ensures Now(s).peers[w].term <= goal {
      MaxTermIsMax(Now(s).peers, w);
    }
    var s1 := StandPast(s, v, goal);
    Facts(s1);
    StandingCanWin(Now(s), Now(s1), v);
    t := Win(s1, v, Supporters(Now(s), v));
    Chain(s, s1, t);
  }

  /** In every state with a server there is one that all others would vote for. */
  lemma SomeoneIsSupported(c: Cluster) returns (v: nat)
    requires Shape(c) && |c.peers| > 0
    ensures v < |c.peers| && Supporters(c, v) == Others(c, v)
  {
    v := MostUpToDate(c.peers, |c.peers|);
  }

  function Others(c: Cluster, v: nat): set<nat> {
    Servers(|c.peers|) - {v}
  }

  lemma {:induction false} MostUpToDate(peers: seq<Peer>, n: nat) returns (v: nat)
    requires 0 < n <= |peers| && forall w :: 0 <= w < |peers| ==> |peers[w].log| > 0
    ensures v < n
    ensures forall w :: 0 <= w < n ==> !Ahead(peers[w].log, Last(peers[v].log).term, Last(peers[v].log).index)
  {
    v := n - 1;
    if n > 1 {
      var u := MostUpToDate(peers, n - 1);
      if Ahead(peers[u].log, Last(peers[v].log).term, Last(peers[v].log).index) {
        v := u;
      }
    }
  }

  // ----- a round between the leader and one server -----

  // Between c and c' the leader v has dealt with some servers alone: its log and term stay, its commit
  // index does not fall, and nobody has delivered anything.
  ghost predicate Dealt(c: Cluster, c': Cluster, v: nat, ws: set<nat>) {
    && Leads(c, v) && Leads(c', v) && |c'.peers| == |c.peers| && v !in ws && c'.sent == c.sent
    && (forall x: nat :: x < |c.peers| && x != v && x !in ws ==> c'.peers[x] == c.peers[x])
    && SameBut(c.peers[v], c'.peers[v], ws)
  }

  predicate SameBut(p: Peer, q: Peer, ws: set<nat>) {
    && q.log == p.log && q.term == p.term && q.applied == p.applied && q.commit >= p.commit
    && |q.nextIdx| == |p.nextIdx| && |q.matchIdx| == |p.matchIdx|
    && (forall x: nat :: x < |p.nextIdx| && x !in ws ==> q.nextIdx[x] == p.nextIdx[x])
    && (forall x: nat :: x < |p.matchIdx| && x !in ws ==> q.matchIdx[x] == p.matchIdx[x])
  }

  // The leader v has recorded that w has all its log.
  predicate Recorded(c: Cluster, v: nat, w: nat) {
    && v < |c.peers| && w < |c.peers| && w < |c.peers[v].nextIdx| && w < |c.peers[v].matchIdx|
    && c.peers[w].log == c.peers[v].log
    && c.peers[v].nextIdx[w] == |c.peers[v].log|
    && c.peers[v].matchIdx[w] == |c.peers[v].log| - 1
  }

  // The entry at the end is of the leader's term, and the commit rule has been applied.
  ghost predicate Applied(c: Cluster, v: nat) {
    v < |c.peers| && (AllHold(c.peers[v]) ==> c.peers[v].commit >= |c.peers[v].log| - 1)
  }

  // All servers are known to have the last entry, and it is of the current term.
  predicate AllHold(p: Peer) {
    && |p.log| > 0 && Last(p.log).term == p.term
    && forall x :: 0 <= x < |p.matchIdx| && x != p.me ==> p.matchIdx[x] >= |p.log| - 1
  }

  lemma CommitsAll(p: Peer, commit: nat)
    requires Commits(p, commit) && AllHold(p) && p.me < |p.matchIdx| && |p.matchIdx| >= 2
    ensures commit >= |p.log| - 1
  {
    var N := |p.log| - 1;
    assert Holders(p, N) == Servers(|p.matchIdx|) - {p.me};
    assert N > p.commit ==> Committable(p, N);
  }

  // The calls of a leader that are built now reach all that anybody has acknowledged to it.
  lemma CurrentRetains(c: Cluster, v: nat, k: Call)
    requires Sound(c) && v < |c.peers| && c.peers[v].role == Leader && k.AppendCall?
    requires k.full == c.peers[v].log && k.aa.term == c.peers[v].term
    ensures Retains(c.h, k)
  {
    var a := At(k.dst, k.aa.term);
    assert InOffice(c.h, v, c.peers[v]) && ReignOk(c.h, c.peers, k.aa.term);
    assert PeerOk(c.peers[v], |c.peers|, v);
    assert a in c.h.acks ==> AckOk(c.h, c.peers, a);
  }

  lemma CanSend(s: Script, v: nat, w: nat) returns (t: Script, k: Call)
    requires Going(s) && Leads(Now(s), v) && w < |Now(s).peers| && v != w
    ensures Continues(s, t) && Now(t).peers == Now(s).peers && Now(t).sent == Now(s).sent
    ensures k in Now(t).net && Current(Now(s), v, w, k) && Pair(Now(s).peers[v], Now(s).peers[w])
    ensures Retains(Now(t).h, k)
  {
    Facts(s);
    LeadersPair(Now(s), v, w);
    assert PeerOk(Now(s).peers[v], |Now(s).peers|, v);
    FollowerHalf(Now(s).peers[v], Now(s).peers[w]);
    t := Grow(s, Broadcast(v));
    EveryoneIsSent(Now(s), v);
    assert Sends(Now(s), v, w, Now(t).net);
    k :| k in Now(t).net && Current(Now(s), v, w, k);
    Facts(t);
    CurrentRetains(Now(t), v, k);
  }

  // A broadcast of v, the handling of its call by w, and the handling of the reply.
  lemma OneRound(s: Script, v: nat, w: nat) returns (t: Script, u: Script, k: Call)
    requires Going(s) && Leads(Now(s), v) && w < |Now(s).peers| && v != w
    ensures Continues(s, u) && Continues(s, t) && Current(Now(s), v, w, k)
    ensures Pair(Now(s).peers[v], Now(s).peers[w]) && Sound(Now(t))
    ensures Now(t).peers == Now(s).peers[w := OnAppend(Now(s).peers[w], k.aa).0]
    ensures Now(t).sent == Now(s).sent
    ensures var k' := k.(ar := Some(OnAppend(Now(s).peers[w], k.aa).1));
            Enabled(Now(t), FinishAppend(k')) && Now(u) == Next(Now(t), FinishAppend(k'))
  {
    var s1;
    s1, k := CanSend(s, v, w);
    Facts(s1);
    t := Grow(s1, HandleAppend(k));
    Chain(s, s1, t);
    Facts(t);
    u := Grow(t, FinishAppend(k.(ar := Some(OnAppend(Now(s).peers[w], k.aa).1))));
    Chain(s, t, u);
  }

  predicate Answered(l: Peer, f: Peer, q: Peer, r: AppendReply) {
    && q.term == l.term == r.term
    && (r.success ==> q.log == l.log && (q.commit >= l.commit || q.commit >= |l.log| - 1))
    && (!r.success ==> q.log == f.log && f.me < |l.nextIdx| && 1 <= r.nextTry < l.nextIdx[f.me])
    && (f.log == l.log ==> r.success)
  }

  // The follower's half of a round: done, or the leader is told to go back.
  lemma RoundAtFollower(l: Peer, f: Peer, a: AppendArgs)
    requires Pair(l, f) && NextInRange(l) && Addressed(l, f.me) && a == BuildAppend(l, f.me)
    ensures Answered(l, f, OnAppend(f, a).0, OnAppend(f, a).1)
  {
    FollowerHalf(l, f);
    AppendEffect(f, a);
    if Accepts(f, a) {
      EqualWasAccepted(l, f);
    }
  }

  // The leader's half.
  lemma RoundAtLeader(c: Cluster, k: Call, v: nat)
    requires Sound(c) && Enabled(c, FinishAppend(k)) && k.aa.leader == v && k.dst != v
    requires c.peers[v].role == Leader && c.peers[v].term == k.aa.term == k.ar.value.term
    requires |c.peers| >= 2
    ensures var (c', w) := (Next(c, FinishAppend(k)), k.dst);
            && |c'.peers| == |c.peers| && w < |c.peers| && Applied(c', v)
            && c'.peers == c.peers[v := c'.peers[v]] && c'.sent == c.sent
            && c'.peers[v].role == Leader && SameBut(c.peers[v], c'.peers[v], {w})
            && w < |c.peers[v].nextIdx| == |c.peers[v].matchIdx|
            && var (p, q, r) := (c.peers[v], c'.peers[v], k.ar.value);
               && q.nextIdx[w] == (if !r.success then r.nextTry
                                   else if k.aa.entries == [] then p.nextIdx[w] else |k.full|)
               && q.matchIdx[w] == (if r.success && k.aa.entries != [] then |k.full| - 1
                                    else p.matchIdx[w])
  {
    var c' := Next(c, FinishAppend(k));
    ReplyIsRecorded(c, k);
    assert PeerOk(c.peers[v], |c.peers|, v);
    if AllHold(c'.peers[v]) {
      CommitsAll(c'.peers[v].(commit := c.peers[v].commit), c'.peers[v].commit);
    }
    assert c'.peers[v].commit >= c.peers[v].commit;
  }

  // What a round between v and w leaves: the job is done, or the next index has moved back.
  ghost predicate RoundDone(c: Cluster, c': Cluster, v: nat, w: nat)
    requires Dealt(c, c', v, {w})
  {
    w < |c'.peers| &&
    var (p, q, f) := (c.peers[v], c'.peers[v], c'.peers[w]);
    && f.log == p.log && (f.commit >= p.commit || f.commit >= |p.log| - 1)
    && w < |p.nextIdx| && w < |p.matchIdx|
    && (if p.nextIdx[w] < |p.log| then Recorded(c', v, w)
        else q.nextIdx[w] == p.nextIdx[w] && q.matchIdx[w] == p.matchIdx[w])
  }

  ghost predicate RoundBacks(c: Cluster, c': Cluster, v: nat, w: nat)
    requires Dealt(c, c', v, {w})
  {
    w < |c.peers| &&
    var (p, q) := (c.peers[v], c'.peers[v]);
    && w < |p.nextIdx| && q.nextIdx[w] < p.nextIdx[w] && c.peers[w].log != p.log
  }

  // The states before a round, after the handling of its call and after the round.
  ghost predicate RoundFrom(c: Cluster, m: Cluster, c': Cluster, k: Call, r: AppendReply, v: nat, w: nat) {
    && Leads(c, v) && w < |c.peers| && v != w && Current(c, v, w, k)
    && Sound(m) && m.sent == c.sent && w < |m.peers| && m.peers == c.peers[w := m.peers[w]]
    && c.peers[w].me == w && Answered(c.peers[v], c.peers[w], m.peers[w], r)
    && var k' := k.(ar := Some(r)); Enabled(m, FinishAppend(k')) && c' == Next(m, FinishAppend(k'))
  }

  lemma RoundDeals(c: Cluster, m: Cluster, c': Cluster, k: Call, r: AppendReply, v: nat, w: nat)
    requires RoundFrom(c, m, c', k, r, v, w)
    ensures Dealt(c, c', v, {w}) && Applied(c', v) && c'.peers[w] == m.peers[w]
    ensures w < |c.peers[v].nextIdx| == |c.peers[v].matchIdx|
    ensures var (p, q) := (c.peers[v], c'.peers[v]);
            && q.nextIdx[w] == (if !r.success then r.nextTry
                                else if k.aa.entries == [] then p.nextIdx[w] else |p.log|)
            && (r.success && k.aa.entries != [] ==> q.matchIdx[w] == |p.log| - 1)
            && (k.aa.entries == [] ==> q.matchIdx[w] == p.matchIdx[w])
  {
    RoundAtLeader(m, k.(ar := Some(r)), v);
  }

  lemma RoundEnds(c: Cluster, m: Cluster, c': Cluster, k: Call, r: AppendReply, v: nat, w: nat)
    requires RoundFrom(c, m, c', k, r, v, w)
    ensures Dealt(c, c', v, {w}) && Applied(c', v)
    ensures RoundDone(c, c', v, w) || RoundBacks(c, c', v, w)
  {
    RoundDeals(c, m, c', k, r, v, w);
    assert k.aa.entries == [] <==> c.peers[v].nextIdx[w] == |c.peers[v].log|;
  }

  lemma CurrentIsAnswered(c: Cluster, k: Call, v: nat, w: nat)
    requires Durable(c) && Leads(c, v) && w < |c.peers| && v != w && Current(c, v, w, k)
    requires Pair(c.peers[v], c.peers[w])
    ensures c.peers[w].me == w && Indexed(c.peers[w].log)
    ensures Answered(c.peers[v], c.peers[w], OnAppend(c.peers[w], k.aa).0, OnAppend(c.peers[w], k.aa).1)
  {
    assert PeerOk(c.peers[w], |c.peers|, w) && PeerOk(c.peers[v], |c.peers|, v);
    FollowerHalf(c.peers[v], c.peers[w]);
    RoundAtFollower(c.peers[v], c.peers[w], k.aa);
  }

  lemma Round(s: Script, v: nat, w: nat) returns (t: Script)
    requires Going(s) && Leads(Now(s), v) && w < |Now(s).peers| && v != w
    ensures Continues(s, t) && Dealt(Now(s), Now(t), v, {w}) && Applied(Now(t), v)
    ensures RoundDone(Now(s), Now(t), v, w) || RoundBacks(Now(s), Now(t), v, w)
  {
    var s1, k;
    s1, t, k := OneRound(s, v, w);
    Facts(s);
    CurrentIsAnswered(Now(s), k, v, w);
    RoundEnds(Now(s), Now(s1), Now(t), k, OnAppend(Now(s).peers[w], k.aa).1, v, w);
  }

  // ----- rounds with everybody -----

  lemma DealtChain(c: Cluster, c1: Cluster, c2: Cluster, v: nat, ws: set<nat>, xs: set<nat>)
    requires Dealt(c, c1, v, ws) && Dealt(c1, c2, v, xs)
    ensures Dealt(c, c2, v, ws + xs)
  {
  }

  // The next call of v to w carries entries.
  predicate Behind(c: Cluster, v: nat, w: nat) {
    && v < |c.peers| && w < |c.peers| && w != v && w < |c.peers[v].nextIdx|
    && c.peers[v].nextIdx[w] < |c.peers[v].log|
  }

  lemma {:induction false} CatchUp(s: Script, v: nat, w: nat) returns (t: Script)
    requires Going(s) && Leads(Now(s), v) && Behind(Now(s), v, w)
    ensures Continues(s, t) && Dealt(Now(s), Now(t), v, {w}) && Applied(Now(t), v)
    ensures Recorded(Now(t), v, w)
    decreases Now(s).peers[v].nextIdx[w]
  {
    t := Round(s, v, w);
    if !RoundDone(Now(s), Now(t), v, w) {
      var s1 := t;
      t := CatchUp(s1, v, w);
      Chain(s, s1, t);
      DealtChain(Now(s), Now(s1), Now(t), v, {w}, {w});
      assert {w} + {w} == {w};
    }
  }

  lemma StaysBehind(c: Cluster, c': Cluster, v: nat, w: nat, x: nat)
    requires Dealt(c, c', v, {w}) && Behind(c, v, x) && x != w
    ensures Behind(c', v, x)
  {
  }

  lemma StaysRecorded(c: Cluster, c': Cluster, v: nat, ws: set<nat>, x: nat)
    requires Dealt(c, c', v, ws) && Recorded(c, v, x) && x !in ws && x != v
    ensures Recorded(c', v, x) && c'.peers[x] == c.peers[x]
  {
  }

  lemma AllRecorded(c: Cluster, c1: Cluster, c2: Cluster, v: nat, ws: set<nat>, w: nat)
    requires Dealt(c, c1, v, {w}) && Dealt(c1, c2, v, ws - {w}) && w in ws && Recorded(c1, v, w)
    requires forall x :: x in ws - {w} ==> Recorded(c2, v, x)
    ensures Dealt(c, c2, v, ws) && forall x :: x in ws ==> Recorded(c2, v, x)
  {
    DealtChain(c, c1, c2, v, {w}, ws - {w});
    assert {w} + (ws - {w}) == ws;
    StaysRecorded(c1, c2, v, ws - {w}, w);
  }

  lemma {:induction false} Replicate(s: Script, v: nat, ws: set<nat>) returns (t: Script)
    requires Going(s) && Leads(Now(s), v) && ws != {} && forall w :: w in ws ==> Behind(Now(s), v, w)
    ensures Continues(s, t) && Dealt(Now(s), Now(t), v, ws) && Applied(Now(t), v)
    ensures forall w :: w in ws ==> Recorded(Now(t), v, w)
    decreases |ws|
  {
    var w :| w in ws;
    t := CatchUp(s, v, w);
    if ws == {w} {
      return;
    }
    var s1 := t;
    forall x | x in ws - {w} ensures Behind(Now(s1), v, x) {
      StaysBehind(Now(s), Now(s1), v, w, x);
    }
    t := Replicate(s1, v, ws - {w});
    Chain(s, s1, t);
    AllRecorded(Now(s), Now(s1), Now(t), v, ws, w);
  }

  // w has the leader's log and commit index.
  predicate Informed(c: Cluster, v: nat, w: nat) {
    && v < |c.peers| && w < |c.peers|
    && c.peers[w].log == c.peers[v].log && c.peers[w].commit >= |c.peers[v].log| - 1
  }

  lemma InformOne(s: Script, v: nat, w: nat) returns (t: Script)
    requires Going(s) && Leads(Now(s), v) && v != w && Recorded(Now(s), v, w)
    requires Now(s).peers[v].commit >= |Now(s).peers[v].log| - 1
    ensures Continues(s, t) && Dealt(Now(s), Now(t), v, {w}) && Informed(Now(t), v, w)
  {
    t := Round(s, v, w);
  }

  lemma AllInformed(c: Cluster, c1: Cluster, c2: Cluster, v: nat, ws: set<nat>, w: nat)
    requires Dealt(c, c1, v, {w}) && Dealt(c1, c2, v, ws - {w}) && w in ws && Informed(c1, v, w)
    requires forall x :: x in ws - {w} ==> Informed(c2, v, x)
    ensures Dealt(c, c2, v, ws) && forall x :: x in ws ==> Informed(c2, v, x)
  {
    DealtChain(c, c1, c2, v, {w}, ws - {w});
    assert {w} + (ws - {w}) == ws;
  }

  lemma {:induction false} Inform(s: Script, v: nat, ws: set<nat>) returns (t: Script)
    requires Going(s) && Leads(Now(s), v) && v !in ws && ws != {}
    requires forall w :: w in ws ==> Recorded(Now(s), v, w)
    requires Now(s).peers[v].commit >= |Now(s).peers[v].log| - 1
    ensures Continues(s, t) && Dealt(Now(s), Now(t), v, ws)
    ensures forall w :: w in ws ==> Informed(Now(t), v, w)
    decreases |ws|
  {
    var w :| w in ws;
    assert Recorded(Now(s), v, w);
    t := InformOne(s, v, w);
    if ws == {w} {
      return;
    }
    var s1 := t;
    forall x | x in ws - {w} ensures Recorded(Now(s1), v, x) {
      StaysRecorded(Now(s), Now(s1), v, {w}, x);
    }
    t := Inform(s1, v, ws - {w});
    Chain(s, s1, t);
    AllInformed(Now(s), Now(s1), Now(t), v, ws, w);
  }

  // ----- delivery -----

  // All servers have this log, committed to the end.
  ghost predicate Agreed(c: Cluster, log: seq<Entry>) {
    forall w :: 0 <= w < |c.peers| ==>
      c.peers[w].log == log && c.peers[w].commit == |log| - 1
  }

  lemma DeliverOne(s: Script, w: nat, log: seq<Entry>) returns (t: Script)
    requires Going(s) && w < |Now(s).peers| && Agreed(Now(s), log)
    ensures Continues(s, t) && |Now(t).peers| == |Now(s).peers| && Agreed(Now(t), log)
    ensures Now(t).peers[w].applied == |log| - 1
    ensures forall x :: 0 <= x < |Now(s).peers| && x != w ==> Now(t).peers[x] == Now(s).peers[x]
  {
    Facts(s);
    t := s;
    assert DeliveredOk(Now(s).peers[w], Now(s).sent[w]);
    if Now(s).peers[w].commit > Now(s).peers[w].applied {
      t := Grow(s, Deliver(w));
    }
  }

  lemma {:induction false} DeliverAll(s: Script, n: nat, log: seq<Entry>) returns (t: Script)
    requires Going(s) && n <= |Now(s).peers| && Agreed(Now(s), log)
    ensures Continues(s, t) && |Now(t).peers| == |Now(s).peers| && Agreed(Now(t), log)
    ensures forall w :: 0 <= w < n ==> Now(t).peers[w].applied == |log| - 1
  {
    Facts(s);
    t := s;
    if n > 0 {
      var s1 := DeliverAll(s, n - 1, log);
      t := DeliverOne(s1, n - 1, log);
      Chain(s, s1, t);
    }
  }

  // ----- the whole way -----

  // Every server has this log, regards all of it as committed, and has delivered just its commands.
  ghost predicate Settled(c: Cluster, log: seq<Entry>) {
    && |c.sent| == |c.peers| && |log| > 0
    && forall w :: 0 <= w < |c.peers| ==>
         && c.peers[w].log == log && c.peers[w].commit == |log| - 1
         && c.sent[w] == Messages(log, |log| - 1)
  }

  lemma SettledNow(s: Script, log: seq<Entry>)
    requires Going(s) && Agreed(Now(s), log) && |log| > 0
    requires forall w :: 0 <= w < |Now(s).peers| ==> Now(s).peers[w].applied == |log| - 1
    ensures Settled(Now(s), log)
  {
    Facts(s);
    forall w: nat | w < |Now(s).peers| ensures Now(s).sent[w] == Messages(log, |log| - 1) {
      assert DeliveredOk(Now(s).peers[w], Now(s).sent[w]);
      DeliveriesAt(log, 0, |log| - 1);
    }
  }

  // After a new command, every other server is behind.
  lemma SubmitOne(s: Script, v: nat, command: Command) returns (t: Script)
    requires Going(s) && Leads(Now(s), v)
    ensures Continues(s, t) && Leads(Now(t), v) && |Now(t).peers| == |Now(s).peers|
    ensures |Now(s).peers[v].log| > 0
    ensures Now(t).peers[v].log ==
              Now(s).peers[v].log + [Entry(Now(s).peers[v].term, command, |Now(s).peers[v].log|)]
    ensures Now(t).peers[v].term == Now(s).peers[v].term
    ensures forall w :: w in Others(Now(t), v) ==> Behind(Now(t), v, w)
  {
    Facts(s);
    t := Grow(s, Submit(v, command));
    assert PeerOk(Now(s).peers[v], |Now(s).peers|, v) && NextsOk(Now(s).peers[v]);
  }

  lemma CommitAll(s: Script, v: nat) returns (t: Script)
    requires Going(s) && Leads(Now(s), v) && |Now(s).peers| >= 2
    requires |Now(s).peers[v].log| > 0 && Last(Now(s).peers[v].log).term == Now(s).peers[v].term
    requires forall w :: w in Others(Now(s), v) ==> Behind(Now(s), v, w)
    ensures Continues(s, t) && |Now(t).peers| == |Now(s).peers|
    ensures Agreed(Now(t), Now(s).peers[v].log)
  {
    var others, log := Others(Now(s), v), Now(s).peers[v].log;
    assert (if v == 0 then 1 else 0) in others;
    var s1 := Replicate(s, v, others);
    Facts(s1);
    assert PeerOk(Now(s1).peers[v], |Now(s1).peers|, v);
    RecordedCommits(Now(s1), v);
    t := Inform(s1, v, others);
    Chain(s, s1, t);
    Facts(t);
    InformedAgree(Now(t), v);
  }

  lemma RecordedCommits(c: Cluster, v: nat)
    requires v < |c.peers| && PeerShape(c.peers[v], |c.peers|, v) && Applied(c, v)
    requires Last(c.peers[v].log).term == c.peers[v].term
    requires forall w :: w in Others(c, v) ==> Recorded(c, v, w)
    ensures c.peers[v].commit >= |c.peers[v].log| - 1
  {
    forall w: nat | w < |c.peers| && w != v ensures c.peers[v].matchIdx[w] >= |c.peers[v].log| - 1 {
      assert w in Others(c, v);
    }
  }

  lemma InformedAgree(c: Cluster, v: nat)
    requires CommitsOk(c) && v < |c.peers| && c.peers[v].commit >= |c.peers[v].log| - 1
    requires forall w :: w in Others(c, v) ==> Informed(c, v, w)
    ensures Agreed(c, c.peers[v].log)
  {
    forall w: nat | w < |c.peers|
      ensures c.peers[w].log == c.peers[v].log && c.peers[w].commit == |c.peers[v].log| - 1
    {
      assert w != v ==> w in Others(c, v) && Informed(c, v, w);
      assert DeliveredOk(c.peers[w], c.sent[w]);
    }
  }

  /** Every command can be delivered everywhere: from every state of an orderly run, a leader that no
      server is past can take any command, and the run can go on to a state in which every server
      has the leader's log with that command at its end, and has delivered exactly its commands. */
  lemma CanDeliver(s: Script, v: nat, command: Command) returns (t: Script)
    requires Going(s) && Leads(Now(s), v) && |Now(s).peers| >= 2
    ensures Continues(s, t) && |Now(t).peers| == |Now(s).peers|
    ensures var p := Now(s).peers[v];
            Settled(Now(t), p.log + [Entry(p.term, command, |p.log|)])
  {
    var s1 := SubmitOne(s, v, command);
    var s2 := CommitAll(s1, v);
    Chain(s, s1, s2);
    var log := Now(s1).peers[v].log;
    t := DeliverAll(s2, |Now(s2).peers|, log);
    Chain(s, s2, t);
    SettledNow(t, log);
  }

  /** No dead end: from every state of an orderly run of two servers or more, if a majority would vote
      for a server and no left-over match index of that server lies past its log, then for every
      command the run can go on, orderly and without restart, late read or overwriting, to a state
      in which every server has delivered all of that server's log and the command behind it. */
  lemma NoDeadEnd(tr: seq<Cluster>, es: seq<Event>, v: nat, command: Command)
    returns (tr': seq<Cluster>, es': seq<Event>, term: nat)
    requires Run(tr, es) && OrderlyRun(tr, es)
    requires var c := tr[|es|];
             && |c.peers| >= 2 && v < |c.peers| && FreshMatches(c.peers[v])
             && 1 + |Supporters(c, v)| > |c.peers| / 2
    ensures Run(tr', es') && OrderlyRun(tr', es')
    ensures tr <= tr' && es <= es' && Classic(es'[|es|..])
    ensures var log := tr[|es|].peers[v].log;
            Settled(tr'[|es'|], log + [Entry(term, command, |log|)])
  {
    var s := Script(tr, es);
    var s1 := CanLead(s, v);
    term := Now(s1).peers[v].term;
    var t := CanDeliver(s1, v, command);
    Chain(s, s1, t);
    tr', es' := t.tr, t.es;
  }
}
