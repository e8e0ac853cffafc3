/** Leader completeness: an entry that can still gather a majority of acknowledgements in its
    term is in the log that every later leader wins with. */
module Completeness {
  import opened Wrappers
  import opened RaftCore
  import opened Cluster
  import opened Elections
  import opened LogMatching
  import opened Replication

  // ----- definitions -----

  predicate HasAck(h: Ledger, v: nat, t: nat, N: nat) {
    At(v, t) in h.acks && h.acks[At(v, t)] >= N
  }

  // Entry N was created by the leader of term t.
  predicate Own(h: Ledger, t: nat, N: nat) {
    t in h.reigns && h.reigns[t].start <= N < |h.reigns[t].log|
  }

  function Backers(c: Cluster, t: nat, N: nat): set<nat> {
    set v | v in Servers(|c.peers|) && HasAck(c.h, v, t, N)
  }

  // A server has voted in a term past t.
  predicate VotedPast(votes: map<At, nat>, v: nat, t: nat) {
    exists k :: k in votes && k.server == v && k.term > t
  }

  // The servers that have acknowledged the entry in its term, or have not yet voted in a later one.
  function PossibleBackers(c: Cluster, t: nat, N: nat): set<nat> {
    set v | v in Servers(|c.peers|) && (!VotedPast(c.h.votes, v, t) || HasAck(c.h, v, t, N))
  }

  predicate Committed(c: Cluster, t: nat, N: nat) {
    Own(c.h, t, N) && |Backers(c, t, N)| > |c.peers| / 2
  }

  predicate Choosable(c: Cluster, t: nat, N: nat) {
    Own(c.h, t, N) && |PossibleBackers(c, t, N)| > |c.peers| / 2
  }

  // The log holds entry N of the leader of term t, and everything before it.
  predicate Holds(h: Ledger, t: nat, N: nat, log: seq<Entry>)
    requires Own(h, t, N)
  {
    N < |log| && log[..N + 1] == h.reigns[t].log[..N + 1]
  }

  // ----- the invariant -----

  ghost predicate CompleteAt(c: Cluster, t: nat, u: nat, N: nat)
    requires u in c.h.reigns && c.h.reigns[u].start <= |c.h.reigns[u].log|
  {
    Choosable(c, t, N) ==> Holds(c.h, t, N, c.h.reigns[u].log[..c.h.reigns[u].start])
  }

  ghost predicate KeepsAt(c: Cluster, v: nat, t: nat, N: nat)
    requires v < |c.peers|
  {
    Choosable(c, t, N) && HasAck(c.h, v, t, N) ==> Holds(c.h, t, N, c.peers[v].log)
  }

  // A voter for a candidate handed over what it had acknowledged in older terms, as long as the term
  // has no leader.
  ghost predicate BallotAt(c: Cluster, k: At, t: nat, N: nat)
    requires k in c.h.votes
  {
    var b := At(c.h.votes[k], k.term);
    b in c.h.bids && k.term !in c.h.reigns && Choosable(c, t, N) && HasAck(c.h, k.server, t, N) ==>
      Holds(c.h, t, N, c.h.bids[b])
  }

  // A request for a vote describes the log its candidate stood with, or its term has a leader.
  ghost predicate BidArgsOk(h: Ledger, k: Call)
    requires k.VoteCall?
  {
    var b := At(k.va.cand, k.va.term);
    && b in h.bids && |h.bids[b]| > 0
    && (k.va.term !in h.reigns ==>
          k.va.lastIdx == |h.bids[b]| - 1 && k.va.lastTerm == Last(h.bids[b]).term)
  }

  ghost predicate Starts(h: Ledger) {
    forall t :: t in h.reigns ==> h.reigns[t].start <= |h.reigns[t].log|
  }

  ghost predicate Complete(c: Cluster) {
    Starts(c.h) &&
    forall t: nat, u: nat, N: nat {:trigger CompleteAt(c, t, u, N)} ::
      u in c.h.reigns && t < u ==> CompleteAt(c, t, u, N)
  }

  ghost predicate Keeps(c: Cluster) {
    forall v: nat, t: nat, N: nat {:trigger KeepsAt(c, v, t, N)} ::
      v < |c.peers| ==> KeepsAt(c, v, t, N)
  }

  ghost predicate BallotsOk(c: Cluster) {
    && (forall k, t: nat, N: nat {:trigger BallotAt(c, k, t, N)} ::
          k in c.h.votes && t < k.term ==> BallotAt(c, k, t, N))
    && (forall k {:trigger BidArgsOk(c.h, k)} ::
          k in c.net && k.VoteCall? ==> BidArgsOk(c.h, k))
  }

  // ----- one step forward -----

  ghost predicate VotesGrow(h: Ledger, h': Ledger) {
    forall k :: k in h.votes ==> k in h'.votes && h'.votes[k] == h.votes[k]
  }

  // Votes stay, and new acknowledgements of a term come from servers that have not voted past it.
  ghost predicate Advances(c: Cluster, c': Cluster) {
    && |c'.peers| == |c.peers|
    && VotesGrow(c.h, c'.h)
    && ReignsExtend(c.h, c'.h)
    && AcksGrow(c.h, c'.h)
    && (forall k :: k in c'.h.acks ==>
          (k in c.h.acks && c.h.acks[k] == c'.h.acks[k]) || !VotedPast(c.h.votes, k.server, k.term))
  }

  // A server has not voted past its current term.
  lemma NotVotedPast(c: Cluster, v: nat, t: nat)
    requires VotesOk(c) && v < |c.peers| && c.peers[v].term <= t
    ensures !VotedPast(c.h.votes, v, t)
  {
    forall k | k in c.h.votes && k.server == v ensures k.term <= t {
      assert VoteOk(c.h, c.peers, k);
    }
  }

  lemma ChoosableBack(c: Cluster, c': Cluster, t: nat, N: nat)
    requires Advances(c, c') && Own(c.h, t, N) && Choosable(c', t, N)
    ensures Choosable(c, t, N)
  {
    forall v | v in PossibleBackers(c', t, N) ensures v in PossibleBackers(c, t, N) {
      assert VotedPast(c.h.votes, v, t) ==> VotedPast(c'.h.votes, v, t);
      assert HasAck(c'.h, v, t, N) ==> At(v, t) in c'.h.acks;
    }
    SubsetSize(PossibleBackers(c', t, N), PossibleBackers(c, t, N));
  }

  lemma CommittedForward(c: Cluster, c': Cluster, t: nat, N: nat)
    requires Advances(c, c') && Committed(c, t, N)
    ensures Committed(c', t, N)
    ensures c'.h.reigns[t].log[..N + 1] == c.h.reigns[t].log[..N + 1]
  {
    assert c.h.reigns[t].log <= c'.h.reigns[t].log;
    assert Backers(c, t, N) <= Backers(c', t, N);
    SubsetSize(Backers(c, t, N), Backers(c', t, N));
  }

  lemma CommittedIsChoosable(c: Cluster, t: nat, N: nat)
    requires Committed(c, t, N)
    ensures Choosable(c, t, N)
  {
    SubsetSize(Backers(c, t, N), PossibleBackers(c, t, N));
  }

  // ----- steps that found no reign and extend none -----

  lemma CompleteKept(c: Cluster, c': Cluster)
    requires Complete(c) && Advances(c, c') && c'.h.reigns == c.h.reigns
    ensures Complete(c')
  {
    forall t: nat, u: nat, N: nat | u in c'.h.reigns && t < u ensures CompleteAt(c', t, u, N) {
      assert CompleteAt(c, t, u, N);
      if Choosable(c', t, N) {
        ChoosableBack(c, c', t, N);
      }
    }
  }

  lemma BallotKept(c: Cluster, c': Cluster, k: At, t: nat, N: nat)
    requires BallotsOk(c) && VotesOk(c) && Advances(c, c')
    requires k in c.h.votes && k in c'.h.votes && c'.h.votes[k] == c.h.votes[k] && t < k.term
    requires forall b :: b in c.h.bids ==> b in c'.h.bids && c'.h.bids[b] == c.h.bids[b]
    requires Own(c'.h, t, N) ==> Own(c.h, t, N)
    ensures BallotAt(c', k, t, N)
  {
    assert VoteOk(c.h, c.peers, k) && BallotAt(c, k, t, N);
    if Choosable(c', t, N) && HasAck(c'.h, k.server, t, N) {
      assert VotedPast(c.h.votes, k.server, t);
      ChoosableBack(c, c', t, N);
      assert HasAck(c.h, k.server, t, N);
      assert c.h.reigns[t].log <= c'.h.reigns[t].log;
    }
  }

  lemma BallotsKept(c: Cluster, c': Cluster)
    requires BallotsOk(c) && VotesOk(c) && Advances(c, c')
    requires c'.h.votes == c.h.votes && c'.h.bids == c.h.bids && c'.h.reigns == c.h.reigns
    requires forall k :: k in c'.net && k.VoteCall? ==> k in c.net
    ensures BallotsOk(c')
  {
    forall k, t: nat, N: nat | k in c'.h.votes && t < k.term ensures BallotAt(c', k, t, N) {
      BallotKept(c, c', k, t, N);
    }
    forall k | k in c'.net && k.VoteCall? ensures BidArgsOk(c'.h, k) {
      assert BidArgsOk(c.h, k);
    }
  }

  lemma KeepsKept(c: Cluster, c': Cluster)
    requires Keeps(c) && Advances(c, c')
    requires c'.h.reigns == c.h.reigns && c'.h.acks == c.h.acks
    requires forall v :: 0 <= v < |c.peers| ==> c'.peers[v].log == c.peers[v].log
    ensures Keeps(c')
  {
    forall v: nat, t: nat, N: nat | v < |c'.peers| ensures KeepsAt(c', v, t, N) {
      assert KeepsAt(c, v, t, N);
      if Choosable(c', t, N) {
        ChoosableBack(c, c', t, N);
      }
    }
  }

  // ----- accepting a call to append -----

  // Hypothesis on the network, weaker than delivery in order: an accepted call is not shorter
  // than what the follower has already acknowledged to that leader.
  predicate Retains(h: Ledger, k: Call)
    requires k.AppendCall?
  {
    Acked(h, At(k.dst, k.aa.term)) < |k.full|
  }

  lemma KeepsAfterAccept(c: Cluster, c': Cluster, k: Call, p': Peer)
    requires Keeps(c) && Complete(c) && AcksOk(c) && LogsOk(c) && Advances(c, c')
    requires k in c.net && k.AppendCall? && k.dst < |c.peers| && Retains(c.h, k)
    requires p'.log == k.full && c.peers[k.dst].term <= k.aa.term
    requires c'.peers == c.peers[k.dst := p'] && c'.h.reigns == c.h.reigns
    requires var b := At(k.dst, k.aa.term);
             c'.h.acks == c.h.acks[b := Max(Acked(c.h, b), |k.full| - 1)]
    ensures Keeps(c')
  {
    var w := k.aa.term;
    assert ReplOk(c.h, k) && ReignOk(c.h, c.peers, w);
    forall v: nat, t: nat, N: nat | v < |c'.peers| ensures KeepsAt(c', v, t, N) {
      assert At(v, t) in c.h.acks ==> AckOk(c.h, c.peers, At(v, t));
      if Choosable(c', t, N) && HasAck(c'.h, v, t, N) {
        ChoosableBack(c, c', t, N);
        assert KeepsAt(c, v, t, N);
        if v == k.dst {
          if t < w {
            assert CompleteAt(c, t, w, N);
            PrefixOfFull(c.h, k, t, N);
          } else if t == w {
            assert N < |k.full|;
          }
        }
      }
    }
  }

  // What is in the log a leader won with is in every call it builds.
  lemma PrefixOfFull(h: Ledger, k: Call, t: nat, N: nat)
    requires k.AppendCall? && ReplOk(h, k) && Own(h, t, N)
    requires h.reigns[k.aa.term].start <= |h.reigns[k.aa.term].log|
    requires Holds(h, t, N, h.reigns[k.aa.term].log[..h.reigns[k.aa.term].start])
    ensures Holds(h, t, N, k.full)
  {
  }

  // ----- voting and standing -----

  // A candidate whose log is up to date holds every choosable entry its voter holds.
  lemma UpToDateHolds(c: Cluster, p: Peer, bid: seq<Entry>, va: VoteArgs, t: nat, N: nat)
    requires Complete(c) && Choosable(c, t, N) && Holds(c.h, t, N, p.log)
    requires ReignOk(c.h, c.peers, t)
    requires forall u :: u in c.h.reigns ==> ReignOk(c.h, c.peers, u)
    requires LogOk(p.log) && Sane(c.h, p.log) && LogOk(bid) && Sane(c.h, bid)
    requires va.lastIdx == |bid| - 1 && va.lastTerm == Last(bid).term && UpToDate(va, p.log)
    ensures Holds(c.h, t, N, bid)
  {
    var m, l := |p.log| - 1, |bid| - 1;
    assert p.log[N] == p.log[..N + 1][N] == c.h.reigns[t].log[N];
    assert t == p.log[N].term <= p.log[m].term <= bid[l].term;
    assert N >= 1;
    assert l >= 1 by { assert p.log[N].term >= 1; }
    assert Traced(c.h, bid, l) && Traced(c.h, p.log, m);
    var T := bid[l].term;
    var r := c.h.reigns[T];
    assert r.log[..l + 1] == bid;
    if T == p.log[m].term {
      assert r.log[..m + 1] == p.log;
      assert bid[..N + 1] == r.log[..N + 1] == p.log[..N + 1];
    } else {
      assert ReignOk(c.h, c.peers, T);
      assert CompleteAt(c, t, T, N);
      assert r.log[l].term == T;
      assert bid[..N + 1] == r.log[..N + 1] == r.log[..r.start][..N + 1];
    }
  }

  lemma BallotsAfterGrant(c: Cluster, c': Cluster, k: Call, p': Peer, r: VoteReply)
    requires BallotsOk(c) && VotesOk(c) && Complete(c) && Keeps(c) && LogsOk(c)
    requires Advances(c, c') && k in c.net && k.VoteCall? && k.dst < |c.peers|
    requires LogOk(c.peers[k.dst].log)
    requires (p', r) == OnRequestVote(c.peers[k.dst], k.va)
    requires c'.peers == c.peers[k.dst := p'] && c'.h == RecordVote(c.h, k.dst, k.va, r)
    requires forall j :: j in c.h.votes ==> j in c'.h.votes && c'.h.votes[j] == c.h.votes[j]
    requires c'.net == c.net - {k} + {k.(vr := Some(r))}
    ensures BallotsOk(c')
  {
    var b := At(k.va.cand, k.va.term);
    var p := c.peers[k.dst];
    assert BidArgsOk(c.h, k);
    assert BidLogOk(c.h, c.peers, b);
    assert Sane(c.h, c.peers[k.dst].log);
    forall u | u in c.h.reigns ensures ReignOk(c.h, c.peers, u) {
    }
    forall j, t: nat, N: nat | j in c'.h.votes && t < j.term ensures BallotAt(c', j, t, N) {
      if j in c.h.votes {
        BallotKept(c, c', j, t, N);
      } else if j.term !in c.h.reigns && Choosable(c', t, N) && HasAck(c'.h, k.dst, t, N) {
        ChoosableBack(c, c', t, N);
        assert KeepsAt(c, k.dst, t, N);
        UpToDateHolds(c, p, c.h.bids[b], k.va, t, N);
      }
    }
    forall j | j in c'.net && j.VoteCall? ensures BidArgsOk(c'.h, j) {
      assert j in c.net ==> BidArgsOk(c.h, j);
    }
  }

  lemma BallotsAfterCandidacy(c: Cluster, c': Cluster, v: nat)
    requires BallotsOk(c) && VotesOk(c) && Keeps(c) && Advances(c, c')
    requires v < |c.peers| && PeerShape(c.peers[v], |c.peers|, v)
    requires At(v, c.peers[v].term + 1) !in c.h.votes
    requires At(v, c.peers[v].term + 1) !in c.h.bids
    requires c'.peers == c.peers[v := OnCandidacy(c.peers[v])]
    requires c'.h == RecordBid(c.h, v, OnCandidacy(c.peers[v]))
    requires c'.net == c.net + Ballots(c, v, BuildVote(OnCandidacy(c.peers[v])))
    ensures BallotsOk(c')
  {
    var b := At(v, c.peers[v].term + 1);
    forall j, t: nat, N: nat | j in c'.h.votes && t < j.term ensures BallotAt(c', j, t, N) {
      if j in c.h.votes {
        BallotKept(c, c', j, t, N);
      } else if Choosable(c', t, N) {
        ChoosableBack(c, c', t, N);
        assert KeepsAt(c, v, t, N);
      }
    }
    forall j | j in c'.net && j.VoteCall? ensures BidArgsOk(c'.h, j) {
      assert j in c.net ==> BidArgsOk(c.h, j);
    }
  }

  lemma BallotsAfterRead(c: Cluster, c': Cluster, v: nat, va: VoteArgs)
    requires BallotsOk(c) && VotesOk(c) && LogsOk(c) && Advances(c, c')
    requires v < |c.peers| && c.peers[v].me == v && Indexed(c.peers[v].log)
    requires va.cand == v && va.term == c.peers[v].term && Ballots(c, v, va) <= c.net
    requires c'.h == c.h
    requires c'.net == c.net - Ballots(c, v, va) + Ballots(c, v, BuildVote(c.peers[v]))
    ensures BallotsOk(c')
  {
    forall k, t: nat, N: nat | k in c'.h.votes && t < k.term ensures BallotAt(c', k, t, N) {
      BallotKept(c, c', k, t, N);
    }
    forall k | k in c'.net && k.VoteCall? ensures BidArgsOk(c'.h, k) {
      if k in c.net {
        assert BidArgsOk(c.h, k);
      } else {
        var first := VoteCall(k.dst, va, None);
        assert first in Ballots(c, v, va);
        assert BidArgsOk(c.h, first) && BidLogOk(c.h, c.peers, At(v, va.term));
      }
    }
  }

  // ----- winning -----

  lemma CompleteAfterWin(c: Cluster, c': Cluster, v: nat, log: seq<Entry>, u: nat)
    requires Complete(c) && BallotsOk(c) && VotesOk(c) && Advances(c, c')
    requires u !in c.h.reigns && At(v, u) in c.h.bids && c.h.bids[At(v, u)] == log
    requires |Voters(c.h.votes, |c.peers|, At(v, u))| > |c.peers| / 2
    requires c'.h.reigns == c.h.reigns[u := Reign(v, |log|, log)]
    ensures Complete(c')
  {
    forall t: nat, w: nat, N: nat | w in c'.h.reigns && t < w ensures CompleteAt(c', t, w, N) {
      if Choosable(c', t, N) {
        assert t != u;
        ChoosableBack(c, c', t, N);
        if w != u {
          assert CompleteAt(c, t, w, N);
        } else {
          WinnerHolds(c, v, u, t, N);
          assert log[..|log|] == log;
        }
      }
    }
  }

  // Some voter for the winner had acknowledged the entry.
  lemma WinnerHolds(c: Cluster, v: nat, u: nat, t: nat, N: nat)
    requires BallotsOk(c) && VotesOk(c) && Choosable(c, t, N) && t < u && u !in c.h.reigns
    requires At(v, u) in c.h.bids
    requires |Voters(c.h.votes, |c.peers|, At(v, u))| > |c.peers| / 2
    ensures Holds(c.h, t, N, c.h.bids[At(v, u)])
  {
    var m := MajoritiesMeet(Voters(c.h.votes, |c.peers|, At(v, u)), PossibleBackers(c, t, N),
                            |c.peers|);
    assert At(m, u) in c.h.votes && VotedPast(c.h.votes, m, t);
    assert BallotAt(c, At(m, u), t, N);
  }

  lemma OthersAfterWin(c: Cluster, c': Cluster, v: nat, p': Peer)
    requires BallotsOk(c) && VotesOk(c) && Keeps(c) && Advances(c, c')
    requires v < |c.peers| && c'.peers == c.peers[v := p'] && p'.log == c.peers[v].log
    requires c'.h.votes == c.h.votes && c'.h.bids == c.h.bids
    requires p'.term !in c.h.reigns
    requires c'.h.reigns == c.h.reigns[p'.term := Reign(v, |p'.log|, p'.log)]
    requires |p'.log| > 0
    requires c'.h.acks == c.h.acks[At(v, p'.term) := |p'.log| - 1]
    requires forall k :: k in c'.net && k.VoteCall? ==> k in c.net
    ensures BallotsOk(c') && Keeps(c')
  {
    forall k, t: nat, N: nat | k in c'.h.votes && t < k.term ensures BallotAt(c', k, t, N) {
      BallotKept(c, c', k, t, N);
    }
    forall k | k in c'.net && k.VoteCall? ensures BidArgsOk(c'.h, k) {
      assert BidArgsOk(c.h, k);
    }
    forall w: nat, t: nat, N: nat | w < |c'.peers| ensures KeepsAt(c', w, t, N) {
      assert KeepsAt(c, w, t, N);
      if Choosable(c', t, N) {
        assert t != p'.term;
        ChoosableBack(c, c', t, N);
      }
    }
  }

  // ----- submitting a command -----

  lemma CompleteAfterStart(c: Cluster, c': Cluster, v: nat, t0: nat, log': seq<Entry>)
    requires Complete(c) && VotesOk(c) && LeadersOk(c) && AcksOk(c) && Advances(c, c')
    requires v < |c.peers| && c.peers[v].term == t0 && t0 in c.h.reigns
    requires c.h.reigns[t0].leader == v
    requires |log'| == |c.h.reigns[t0].log| + 1 && c.h.reigns[t0].log <= log'
    requires c'.h.reigns == c.h.reigns[t0 := c.h.reigns[t0].(log := log')]
    requires c'.h.acks == c.h.acks[At(v, t0) := |log'| - 1]
    ensures Complete(c')
  {
    forall t: nat, u: nat, N: nat | u in c'.h.reigns && t < u ensures CompleteAt(c', t, u, N) {
      assert CompleteAt(c, t, u, N);
      if Choosable(c', t, N) {
        if t == t0 && N == |log'| - 1 {
          NewEntryNotChoosable(c, c', v, t, u);
        } else {
          ChoosableBack(c, c', t, N);
          assert c'.h.reigns[u].log[..c'.h.reigns[u].start] == c.h.reigns[u].log[..c.h.reigns[u].start];
        }
      }
    }
  }

  // Once a later term has a leader, a majority can no longer acknowledge new entries of this one.
  lemma NewEntryNotChoosable(c: Cluster, c': Cluster, v: nat, t: nat, u: nat)
    requires VotesOk(c) && LeadersOk(c) && AcksOk(c) && Advances(c, c')
    requires u in c.h.reigns && t < u && t in c.h.reigns
    requires v < |c.peers| && c.peers[v].term == t
    requires c'.h.acks == c.h.acks[At(v, t) := |c.h.reigns[t].log|]
    ensures !Choosable(c', t, |c.h.reigns[t].log|)
  {
    var N := |c.h.reigns[t].log|;
    var voters := Voters(c.h.votes, |c.peers|, At(c.h.reigns[u].leader, u));
    assert Elected(c.h, |c.peers|, u);
    forall m | m in voters ensures m !in PossibleBackers(c', t, N) {
      assert VoteOk(c.h, c.peers, At(m, u));
      assert At(m, u) in c'.h.votes && VotedPast(c'.h.votes, m, t);
      assert At(m, t) in c.h.acks ==> AckOk(c.h, c.peers, At(m, t));
    }
    if Choosable(c', t, N) {
      var m := MajoritiesMeet(voters, PossibleBackers(c', t, N), |c.peers|);
    }
  }

  lemma OthersAfterStart(c: Cluster, c': Cluster, v: nat, p': Peer)
    requires BallotsOk(c) && VotesOk(c) && Keeps(c) && AcksOk(c) && Advances(c, c')
    requires v < |c.peers| && p'.term == c.peers[v].term && p'.term in c.h.reigns
    requires c.h.reigns[p'.term].leader == v && c.peers[v].log == c.h.reigns[p'.term].log
    requires |p'.log| == |c.peers[v].log| + 1 && c.peers[v].log <= p'.log
    requires c'.peers == c.peers[v := p'] && c'.net == c.net
    requires c'.h.votes == c.h.votes && c'.h.bids == c.h.bids
    requires c'.h.reigns == c.h.reigns[p'.term := c.h.reigns[p'.term].(log := p'.log)]
    requires c'.h.acks == c.h.acks[At(v, p'.term) := |p'.log| - 1]
    ensures BallotsOk(c') && Keeps(c')
  {
    var t0, N0 := p'.term, |p'.log| - 1;
    forall k, t: nat, N: nat | k in c'.h.votes && t < k.term ensures BallotAt(c', k, t, N) {
      if t == t0 && N == N0 {
        assert VoteOk(c.h, c.peers, k);
        assert At(k.server, t) in c.h.acks ==> AckOk(c.h, c.peers, At(k.server, t));
      } else {
        BallotKept(c, c', k, t, N);
      }
    }
    forall k | k in c'.net && k.VoteCall? ensures BidArgsOk(c'.h, k) {
      assert BidArgsOk(c.h, k);
    }
    forall w: nat, t: nat, N: nat | w < |c'.peers| ensures KeepsAt(c', w, t, N) {
      assert KeepsAt(c, w, t, N);
      if Choosable(c', t, N) && HasAck(c'.h, w, t, N) {
        if t == t0 && N == N0 {
          assert At(w, t) in c.h.acks ==> AckOk(c.h, c.peers, At(w, t));
        } else {
          ChoosableBack(c, c', t, N);
          assert t == t0 && w == v ==> c.peers[v].log[..N + 1] == p'.log[..N + 1];
        }
      }
    }
  }
}
