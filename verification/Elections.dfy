/** Election safety: in a proper run at most one server ever leads a term, under any loss, delay or
    reordering of calls. */
module Elections {
  import opened Wrappers
  import opened RaftCore
  import opened Cluster

  // ----- majorities -----

  lemma {:induction false} SubsetSize<T>(a: set<T>, b: set<T>)
    requires a <= b
    ensures |a| <= |b|
  {
    if a != {} {
      var x :| x in a;
      SubsetSize(a - {x}, b - {x});
    }
  }

  // Two majorities of the same servers share a member.
  lemma MajoritiesMeet(a: set<nat>, b: set<nat>, n: nat) returns (v: nat)
    requires a <= Servers(n) && b <= Servers(n)
    requires |a| > n / 2 && |b| > n / 2
    ensures v in a && v in b
  {
    SubsetSize(a + b, Servers(n));
    assert |a + b| == |a| + |b| - |a * b|;
    v :| v in a * b;
  }

  // ----- the invariant -----

  // The servers that voted for k.server in k.term.
  function Voters(votes: map<At, nat>, n: nat, k: At): set<nat> {
    set v | v in Servers(n) && At(v, k.term) in votes && votes[At(v, k.term)] == k.server
  }

  lemma VotersGrow(votes: map<At, nat>, votes': map<At, nat>, n: nat, k: At)
    requires forall j :: j in votes ==> j in votes' && votes'[j] == votes[j]
    ensures Voters(votes, n, k) <= Voters(votes', n, k)
    ensures |Voters(votes, n, k)| <= |Voters(votes', n, k)|
  {
    SubsetSize(Voters(votes, n, k), Voters(votes', n, k));
  }

  // A server remembers its vote of the current term, and only of that term.
  ghost predicate VoterOk(votes: map<At, nat>, v: nat, p: Peer) {
    if p.votedFor == -1 then At(v, p.term) !in votes
    else At(v, p.term) in votes && votes[At(v, p.term)] == p.votedFor
  }

  // A recorded vote is not of the future, and was cast for a candidate.
  ghost predicate VoteOk(h: Ledger, peers: seq<Peer>, k: At)
    requires k in h.votes
  {
    && k.server < |peers| && k.term <= peers[k.server].term
    && At(h.votes[k], k.term) in h.bids
  }

  // The invariants below are instantiated only where a proof names the element: their triggers
  // are the predicates of the element.

  ghost predicate VotesOk(c: Cluster) {
    && (forall v: nat {:trigger VoterOk(c.h.votes, v, c.peers[v])} ::
          v < |c.peers| ==> VoterOk(c.h.votes, v, c.peers[v]))
    && (forall k {:trigger VoteOk(c.h, c.peers, k)} ::
          k in c.h.votes ==> VoteOk(c.h, c.peers, k))
  }

  // A candidate voted for itself, and its counter is the number of distinct counted voters.
  ghost predicate BidOk(h: Ledger, peers: seq<Peer>, k: At)
    requires k in h.bids
  {
    && k.server < |peers| && 1 <= k.term <= peers[k.server].term
    && k in h.votes && h.votes[k] == k.server
    && k in h.tally && h.tally[k] <= Voters(h.votes, |peers|, k)
    && (k.term == peers[k.server].term ==> peers[k.server].votes == |h.tally[k]|)
  }

  ghost predicate BidsOk(c: Cluster) {
    forall k {:trigger BidOk(c.h, c.peers, k)} :: k in c.h.bids ==> BidOk(c.h, c.peers, k)
  }

  // An uncounted vote: the voter is not in the tally, and a granting reply is a recorded vote.
  ghost predicate VoteCallOk(h: Ledger, k: Call)
    requires k.VoteCall?
  {
    var b := At(k.va.cand, k.va.term);
    && b in h.bids
    && k.dst != k.va.cand
    && k.dst !in Tally(h, b)
    && (k.vr.Some? && k.vr.value.granted ==>
          At(k.dst, k.va.term) in h.votes && h.votes[At(k.dst, k.va.term)] == k.va.cand)
  }

  // Both calls belong to the same candidacy and go to the same server.
  predicate SameVoteCall(j: Call, k: Call) {
    j.VoteCall? && k.VoteCall? && j.dst == k.dst && j.va.cand == k.va.cand && j.va.term == k.va.term
  }

  ghost predicate VoteCallsOk(c: Cluster) {
    && (forall k {:trigger VoteCallOk(c.h, k)} :: k in c.net && k.VoteCall? ==> VoteCallOk(c.h, k))
    && (forall j, k {:trigger SameVoteCall(j, k)} ::
          j in c.net && k in c.net && SameVoteCall(j, k) ==> j == k)
  }

  ghost predicate Elected(h: Ledger, n: nat, t: nat)
    requires t in h.reigns
  {
    && h.reigns[t].leader < n
    && |Voters(h.votes, n, At(h.reigns[t].leader, t))| > n / 2
  }

  ghost predicate InOffice(h: Ledger, v: nat, p: Peer) {
    p.term in h.reigns && h.reigns[p.term].leader == v
  }

  ghost predicate LeadersOk(c: Cluster) {
    && (forall v: nat {:trigger InOffice(c.h, v, c.peers[v])} ::
          v < |c.peers| && c.peers[v].role == Leader ==> InOffice(c.h, v, c.peers[v]))
    && (forall t {:trigger Elected(c.h, |c.peers|, t)} ::
          t in c.h.reigns ==> Elected(c.h, |c.peers|, t))
  }

  ghost predicate ElectionsOk(c: Cluster) {
    VotesOk(c) && BidsOk(c) && VoteCallsOk(c) && LeadersOk(c)
  }

  // ----- steps that do not vote, stand, or count -----

  // The peer keeps its term and vote, or moves to a later term without one; it does not take office.
  predicate Calm(p: Peer, p': Peer) {
    || (p'.term == p.term && p'.votedFor == p.votedFor && p'.votes == p.votes
        && (p'.role == Leader ==> p.role == Leader))
    || (p'.term > p.term && p'.votedFor == -1 && p'.role == Follower)
  }

  // The ledger's votes are untouched, and the leaders stay.
  predicate CalmLedger(h: Ledger, h': Ledger) {
    && h'.votes == h.votes && h'.bids == h.bids && h'.tally == h.tally
    && h'.reigns.Keys == h.reigns.Keys
    && (forall t :: t in h.reigns ==> h'.reigns[t].leader == h.reigns[t].leader)
  }

  lemma CalmVotes(c: Cluster, c': Cluster, v: nat, p': Peer)
    requires VotesOk(c) && v < |c.peers|
    requires c'.peers == c.peers[v := p'] && Calm(c.peers[v], p')
    requires CalmLedger(c.h, c'.h)
    ensures VotesOk(c')
  {
    forall w: nat | w < |c'.peers| ensures VoterOk(c'.h.votes, w, c'.peers[w]) {
      assert VoterOk(c.h.votes, w, c.peers[w]);
      assert At(w, c'.peers[w].term) in c.h.votes
        ==> VoteOk(c.h, c.peers, At(w, c'.peers[w].term));
    }
    forall k | k in c'.h.votes ensures VoteOk(c'.h, c'.peers, k) {
      assert VoteOk(c.h, c.peers, k);
    }
  }

  lemma CalmBids(c: Cluster, c': Cluster, v: nat, p': Peer)
    requires BidsOk(c) && v < |c.peers|
    requires c'.peers == c.peers[v := p'] && Calm(c.peers[v], p')
    requires CalmLedger(c.h, c'.h)
    ensures BidsOk(c')
  {
    forall k | k in c'.h.bids ensures BidOk(c'.h, c'.peers, k) {
      assert BidOk(c.h, c.peers, k);
    }
  }

  lemma CalmLeaders(c: Cluster, c': Cluster, v: nat, p': Peer)
    requires LeadersOk(c) && v < |c.peers|
    requires c'.peers == c.peers[v := p'] && Calm(c.peers[v], p')
    requires CalmLedger(c.h, c'.h)
    ensures LeadersOk(c')
  {
    forall w: nat | w < |c'.peers| && c'.peers[w].role == Leader
      ensures InOffice(c'.h, w, c'.peers[w])
    {
      assert InOffice(c.h, w, c.peers[w]);
    }
    forall t | t in c'.h.reigns ensures Elected(c'.h, |c.peers|, t) {
      assert Elected(c.h, |c.peers|, t);
    }
  }

  lemma CalmCalls(c: Cluster, c': Cluster)
    requires VoteCallsOk(c) && CalmLedger(c.h, c'.h)
    requires forall k :: k in c'.net && k.VoteCall? ==> k in c.net
    ensures VoteCallsOk(c')
  {
    forall k | k in c'.net && k.VoteCall? ensures VoteCallOk(c'.h, k) {
      assert VoteCallOk(c.h, k);
    }
  }

  lemma CalmStep(c: Cluster, c': Cluster, v: nat, p': Peer)
    requires ElectionsOk(c) && v < |c.peers|
    requires c'.peers == c.peers[v := p'] && Calm(c.peers[v], p')
    requires CalmLedger(c.h, c'.h)
    requires forall k :: k in c'.net && k.VoteCall? ==> k in c.net
    ensures ElectionsOk(c')
  {
    CalmVotes(c, c', v, p');
    CalmBids(c, c', v, p');
    CalmLeaders(c, c', v, p');
    CalmCalls(c, c');
  }

  // ----- standing -----

  lemma CandidacyStep(c: Cluster, c': Cluster, v: nat)
    requires ElectionsOk(c) && v < |c.peers| && PeerShape(c.peers[v], |c.peers|, v)
    requires c.peers[v].role == Candidate
    requires c'.peers == c.peers[v := OnCandidacy(c.peers[v])]
    requires c'.h == RecordBid(c.h, v, OnCandidacy(c.peers[v]))
    requires c'.net == c.net + Ballots(c, v, BuildVote(OnCandidacy(c.peers[v])))
    ensures ElectionsOk(c')
  {
    FreshBid(c, v);
    VotesAfterCandidacy(c, c', v);
    BidsAfterCandidacy(c, c', v);
    CallsAfterCandidacy(c, c', v);
    LeadersAfterVote(c, c', v, OnCandidacy(c.peers[v]));
  }

  lemma FreshBid(c: Cluster, v: nat)
    requires VotesOk(c) && BidsOk(c) && v < |c.peers|
    ensures At(v, c.peers[v].term + 1) !in c.h.votes
    ensures At(v, c.peers[v].term + 1) !in c.h.bids
  {
    var b := At(v, c.peers[v].term + 1);
    assert b in c.h.votes ==> VoteOk(c.h, c.peers, b);
    assert b in c.h.bids ==> BidOk(c.h, c.peers, b);
  }

  lemma VotesAfterCandidacy(c: Cluster, c': Cluster, v: nat)
    requires VotesOk(c) && v < |c.peers| && c.peers[v].me == v
    requires c'.peers == c.peers[v := OnCandidacy(c.peers[v])]
    requires c'.h == RecordBid(c.h, v, OnCandidacy(c.peers[v]))
    ensures VotesOk(c')
  {
    forall w: nat | w < |c'.peers| ensures VoterOk(c'.h.votes, w, c'.peers[w]) {
      assert VoterOk(c.h.votes, w, c.peers[w]);
    }
    forall k | k in c'.h.votes ensures VoteOk(c'.h, c'.peers, k) {
      assert k in c.h.votes ==> VoteOk(c.h, c.peers, k);
    }
  }

  lemma BidsAfterCandidacy(c: Cluster, c': Cluster, v: nat)
    requires BidsOk(c) && v < |c.peers| && c.peers[v].me == v
    requires c'.peers == c.peers[v := OnCandidacy(c.peers[v])]
    requires c'.h == RecordBid(c.h, v, OnCandidacy(c.peers[v]))
    requires At(v, c.peers[v].term + 1) !in c.h.votes
    ensures BidsOk(c')
  {
    var b := At(v, c.peers[v].term + 1);
    forall k | k in c'.h.bids ensures BidOk(c'.h, c'.peers, k) {
      if k != b {
        assert BidOk(c.h, c.peers, k);
        VotersGrow(c.h.votes, c'.h.votes, |c.peers|, k);
      } else {
        assert v in Voters(c'.h.votes, |c.peers|, b);
      }
    }
  }

  lemma CallsAfterCandidacy(c: Cluster, c': Cluster, v: nat)
    requires VoteCallsOk(c) && v < |c.peers| && c.peers[v].me == v && |c.peers[v].log| > 0
    requires c'.net == c.net + Ballots(c, v, BuildVote(OnCandidacy(c.peers[v])))
    requires c'.h == RecordBid(c.h, v, OnCandidacy(c.peers[v]))
    requires At(v, c.peers[v].term + 1) !in c.h.bids
    requires At(v, c.peers[v].term + 1) !in c.h.votes
    ensures VoteCallsOk(c')
  {
    var b := At(v, c.peers[v].term + 1);
    forall k | k in c'.net && k.VoteCall?
      ensures VoteCallOk(c'.h, k) && (k in c.net ==> At(k.va.cand, k.va.term) != b)
    {
      if k in c.net {
        assert VoteCallOk(c.h, k);
      }
    }
  }

  // Votes were added, and nobody took office.
  lemma LeadersAfterVote(c: Cluster, c': Cluster, v: nat, p': Peer)
    requires LeadersOk(c) && v < |c.peers|
    requires c'.peers == c.peers[v := p']
    requires p'.role != Leader || (c.peers[v].role == Leader && p'.term == c.peers[v].term)
    requires c'.h.reigns == c.h.reigns
    requires forall j :: j in c.h.votes ==> j in c'.h.votes && c'.h.votes[j] == c.h.votes[j]
    ensures LeadersOk(c')
  {
    forall w: nat | w < |c'.peers| && c'.peers[w].role == Leader
      ensures InOffice(c'.h, w, c'.peers[w])
    {
      assert InOffice(c.h, w, c.peers[w]);
    }
    forall t | t in c'.h.reigns ensures Elected(c'.h, |c.peers|, t) {
      assert Elected(c.h, |c.peers|, t);
      VotersGrow(c.h.votes, c'.h.votes, |c.peers|, At(c.h.reigns[t].leader, t));
    }
  }

  // ----- reading a request later -----

  lemma ReadStep(c: Cluster, c': Cluster, v: nat, va: VoteArgs)
    requires ElectionsOk(c) && v < |c.peers| && |c.peers[v].log| > 0 && c.peers[v].me == v
    requires va.cand == v && va.term == c.peers[v].term && Ballots(c, v, va) <= c.net
    requires c'.peers == c.peers && c'.h == c.h
    requires c'.net == c.net - Ballots(c, v, va) + Ballots(c, v, BuildVote(c.peers[v]))
    ensures ElectionsOk(c')
  {
    var va' := BuildVote(c.peers[v]);
    forall k | k in Ballots(c, v, va') ensures VoteCallOk(c.h, k) {
      var first := VoteCall(k.dst, va, None);
      assert first in Ballots(c, v, va);
      assert VoteCallOk(c.h, first);
    }
    forall k | k in c'.net && k.VoteCall? ensures VoteCallOk(c'.h, k) {
      assert k in c.net ==> VoteCallOk(c.h, k);
    }
    forall j, k | j in c'.net && k in c'.net && SameVoteCall(j, k) ensures j == k {
      ReadsDiffer(c, v, va, va', j, k);
    }
  }

  // The new requests replace the only ones of that candidacy.
  lemma ReadsDiffer(c: Cluster, v: nat, va: VoteArgs, va': VoteArgs, j: Call, k: Call)
    requires VoteCallsOk(c) && va.cand == v && Ballots(c, v, va) <= c.net
    requires va'.cand == v && va'.term == va.term && SameVoteCall(j, k)
    requires j in c.net - Ballots(c, v, va) + Ballots(c, v, va')
    requires k in c.net - Ballots(c, v, va) + Ballots(c, v, va')
    ensures j == k
  {
    if j in Ballots(c, v, va') || k in Ballots(c, v, va') {
      var first := VoteCall(j.dst, va, None);
      assert first in Ballots(c, v, va);
      assert SameVoteCall(j, first) && SameVoteCall(k, first);
    }
  }

  // ----- restarting -----

  // A candidate and a leader have voted for themselves.
  lemma LeaderVoted(c: Cluster, t: nat)
    requires ElectionsOk(c) && t in c.h.reigns
    ensures At(c.h.reigns[t].leader, t) in c.h.votes
  {
    var k := At(c.h.reigns[t].leader, t);
    assert Elected(c.h, |c.peers|, t);
    var m :| m in Voters(c.h.votes, |c.peers|, k);
    assert VoteOk(c.h, c.peers, At(m, t)) && BidOk(c.h, c.peers, k);
  }

  lemma RestartStep(c: Cluster, c': Cluster, v: nat, p': Peer)
    requires ElectionsOk(c) && Careful(c, Restart(v)) && v < |c.peers|
    requires c'.peers == c.peers[v := p'] && c'.h == c.h && c'.net == c.net
    requires p'.term == c.peers[v].stable.term && p'.votedFor == -1 && p'.role == Follower
    ensures ElectionsOk(c')
  {
    forall w: nat | w < |c'.peers| ensures VoterOk(c'.h.votes, w, c'.peers[w]) {
      assert VoterOk(c.h.votes, w, c.peers[w]);
    }
    forall k | k in c'.h.votes ensures VoteOk(c'.h, c'.peers, k) {
      assert VoteOk(c.h, c.peers, k);
    }
    forall k | k in c'.h.bids ensures BidOk(c'.h, c'.peers, k) {
      assert BidOk(c.h, c.peers, k);
    }
    LeadersAfterVote(c, c', v, p');
    forall k | k in c'.net && k.VoteCall? ensures VoteCallOk(c'.h, k) {
      assert VoteCallOk(c.h, k);
    }
  }

  // ----- voting -----

  lemma VoteStep(c: Cluster, c': Cluster, k: Call, p': Peer, r: VoteReply)
    requires ElectionsOk(c) && k in c.net && k.VoteCall? && k.vr.None?
    requires k.dst < |c.peers| && |c.peers[k.dst].log| > 0
    requires (p', r) == OnRequestVote(c.peers[k.dst], k.va)
    requires c'.peers == c.peers[k.dst := p'] && c'.h == RecordVote(c.h, k.dst, k.va, r)
    requires c'.net == c.net - {k} + {k.(vr := Some(r))}
    ensures ElectionsOk(c')
  {
    if !r.granted {
      CalmVotes(c, c', k.dst, p');
      CalmBids(c, c', k.dst, p');
      CalmLeaders(c, c', k.dst, p');
    } else {
      assert VoteCallOk(c.h, k);
      VotesAfterGrant(c, c', k.dst, k.va);
      BidsAfterGrant(c, c', k.dst, p');
      LeadersAfterVote(c, c', k.dst, p');
    }
    CallsAfterHandling(c, c', k, r);
  }

  lemma VotesAfterGrant(c: Cluster, c': Cluster, v: nat, va: VoteArgs)
    requires VotesOk(c) && At(va.cand, va.term) in c.h.bids
    requires v < |c.peers| && |c.peers[v].log| > 0
    requires OnRequestVote(c.peers[v], va).1.granted
    requires c'.peers == c.peers[v := OnRequestVote(c.peers[v], va).0]
    requires c'.h == c.h.(votes := c.h.votes[At(v, va.term) := va.cand])
    ensures VotesOk(c')
    ensures forall j :: j in c.h.votes ==> j in c'.h.votes && c'.h.votes[j] == c.h.votes[j]
  {
    var k := At(v, va.term);
    assert VoterOk(c.h.votes, v, c.peers[v]);
    assert k in c.h.votes ==> VoteOk(c.h, c.peers, k);
    forall w: nat | w < |c'.peers| ensures VoterOk(c'.h.votes, w, c'.peers[w]) {
      assert VoterOk(c.h.votes, w, c.peers[w]);
    }
    forall j | j in c'.h.votes ensures VoteOk(c'.h, c'.peers, j) {
      assert j in c.h.votes ==> VoteOk(c.h, c.peers, j);
    }
  }

  lemma BidsAfterGrant(c: Cluster, c': Cluster, v: nat, p': Peer)
    requires BidsOk(c) && v < |c.peers| && c'.peers == c.peers[v := p']
    requires p'.votes == c.peers[v].votes && p'.term >= c.peers[v].term
    requires c'.h == c.h.(votes := c'.h.votes)
    requires forall j :: j in c.h.votes ==> j in c'.h.votes && c'.h.votes[j] == c.h.votes[j]
    ensures BidsOk(c')
  {
    forall k | k in c'.h.bids ensures BidOk(c'.h, c'.peers, k) {
      assert BidOk(c.h, c.peers, k);
      VotersGrow(c.h.votes, c'.h.votes, |c.peers|, k);
    }
  }

  lemma CallsAfterHandling(c: Cluster, c': Cluster, k: Call, r: VoteReply)
    requires VoteCallsOk(c) && k in c.net && k.VoteCall?
    requires c'.h == RecordVote(c.h, k.dst, k.va, r)
    requires forall j :: j in c.h.votes ==> j in c'.h.votes && c'.h.votes[j] == c.h.votes[j]
    requires c'.net == c.net - {k} + {k.(vr := Some(r))}
    ensures VoteCallsOk(c')
  {
    var k' := k.(vr := Some(r));
    assert VoteCallOk(c.h, k);
    forall j | j in c'.net && j.VoteCall? ensures VoteCallOk(c'.h, j) {
      if j != k' {
        assert VoteCallOk(c.h, j);
      }
    }
    forall i, j | i in c'.net && j in c'.net && SameVoteCall(i, j) ensures i == j {
      assert i == k' ==> SameVoteCall(j, k);
      assert j == k' ==> SameVoteCall(i, k);
    }
  }

  // ----- counting -----

  lemma CountStep(c: Cluster, c': Cluster, k: Call, p': Peer)
    requires ElectionsOk(c) && k in c.net && k.VoteCall? && k.vr.Some?
    requires k.dst < |c.peers| && k.va.cand < |c.peers|
    requires PeerShape(c.peers[k.va.cand], |c.peers|, k.va.cand)
    requires p' == OnVoteReply(c.peers[k.va.cand], k.va, k.vr.value)
    requires c'.peers == c.peers[k.va.cand := p'] && c'.net == c.net - {k}
    requires c'.h == RecordCount(c.h, c.peers[k.va.cand], k.dst, k.va, k.vr.value)
    ensures ElectionsOk(c')
  {
    var v := k.va.cand;
    var p := c.peers[v];
    if !Counts(p, k.va, k.vr.value) {
      CalmStep(c, c', v, p');
    } else {
      var b := At(v, p.term);
      assert VoteCallOk(c.h, k);
      assert BidOk(c.h, c.peers, b);
      assert k.dst in Voters(c.h.votes, |c.peers|, b);
      VotesAfterCount(c, c', v, p');
      BidsAfterCount(c, c', k, p');
      CallsAfterCount(c, c', k, b);
      if Wins(p, k.va, k.vr.value) {
        SubsetSize(c'.h.tally[b], Voters(c.h.votes, |c.peers|, b));
        LeadersAfterWin(c, c', v, p');
      } else {
        LeadersAfterVote(c, c', v, p');
      }
    }
  }

  lemma VotesAfterCount(c: Cluster, c': Cluster, v: nat, p': Peer)
    requires VotesOk(c) && v < |c.peers| && c'.peers == c.peers[v := p']
    requires p'.term == c.peers[v].term && p'.votedFor == c.peers[v].votedFor
    requires c'.h.votes == c.h.votes && c'.h.bids == c.h.bids
    ensures VotesOk(c')
  {
    forall w: nat | w < |c'.peers| ensures VoterOk(c'.h.votes, w, c'.peers[w]) {
      assert VoterOk(c.h.votes, w, c.peers[w]);
    }
    forall j | j in c'.h.votes ensures VoteOk(c'.h, c'.peers, j) {
      assert VoteOk(c.h, c.peers, j);
    }
  }

  lemma BidsAfterCount(c: Cluster, c': Cluster, k: Call, p': Peer)
    requires BidsOk(c) && k.VoteCall? && k.va.cand < |c.peers| && k.va.term == c.peers[k.va.cand].term
    requires At(k.va.cand, k.va.term) in c.h.bids
    requires k.dst !in Tally(c.h, At(k.va.cand, k.va.term))
    requires k.dst in Voters(c.h.votes, |c.peers|, At(k.va.cand, k.va.term))
    requires c'.peers == c.peers[k.va.cand := p']
    requires p'.term == c.peers[k.va.cand].term && p'.votes == c.peers[k.va.cand].votes + 1
    requires c'.h.votes == c.h.votes && c'.h.bids == c.h.bids
    requires var b := At(k.va.cand, k.va.term);
             c'.h.tally == c.h.tally[b := Tally(c.h, b) + {k.dst}]
    ensures BidsOk(c')
  {
    forall j | j in c'.h.bids ensures BidOk(c'.h, c'.peers, j) {
      assert BidOk(c.h, c.peers, j);
    }
  }

  lemma CallsAfterCount(c: Cluster, c': Cluster, k: Call, b: At)
    requires VoteCallsOk(c) && k in c.net && k.VoteCall? && b == At(k.va.cand, k.va.term)
    requires c'.net == c.net - {k}
    requires c'.h.votes == c.h.votes && c'.h.bids == c.h.bids
    requires c'.h.tally == c.h.tally[b := Tally(c.h, b) + {k.dst}]
    ensures VoteCallsOk(c')
  {
    forall j | j in c'.net && j.VoteCall? ensures VoteCallOk(c'.h, j) {
      assert VoteCallOk(c.h, j);
      assert SameVoteCall(j, k) ==> j == k;
    }
  }

  // The winner is the only possible leader of its term: two majorities share a voter.
  lemma LeadersAfterWin(c: Cluster, c': Cluster, v: nat, p': Peer)
    requires LeadersOk(c) && v < |c.peers|
    requires c'.peers == c.peers[v := p'] && c'.h.votes == c.h.votes
    requires |Voters(c.h.votes, |c.peers|, At(v, p'.term))| > |c.peers| / 2
    requires c'.h.reigns == (if p'.term in c.h.reigns then c.h.reigns
                             else c.h.reigns[p'.term := Reign(v, |p'.log|, p'.log)])
    ensures LeadersOk(c')
  {
    var t := p'.term;
    if t in c.h.reigns {
      assert Elected(c.h, |c.peers|, t);
      var m := MajoritiesMeet(Voters(c.h.votes, |c.peers|, At(v, t)),
                              Voters(c.h.votes, |c.peers|, At(c.h.reigns[t].leader, t)), |c.peers|);
    }
    forall w: nat | w < |c'.peers| && c'.peers[w].role == Leader
      ensures InOffice(c'.h, w, c'.peers[w])
    {
      assert w != v ==> InOffice(c.h, w, c.peers[w]);
    }
    forall u | u in c'.h.reigns ensures Elected(c'.h, |c.peers|, u) {
      assert u in c.h.reigns ==> Elected(c.h, |c.peers|, u);
    }
  }
}
