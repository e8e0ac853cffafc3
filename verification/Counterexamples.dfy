/** Runs in which one hypothesis fails and state machine safety or election safety fails with it, and
    one in which all hold: three servers, each step an event of the cluster. */
module Counterexamples {
  import opened Wrappers
  import opened RaftCore
  import opened Cluster
  import opened DurableLog
  import opened Invariant
  import opened Theorems
  import opened Hypotheses
  import opened Scripts
  import opened Elections

  // ----- a violation of state machine safety -----

  ghost predicate Disagree(c: Cluster) {
    exists v, w, i, j ::
      && 0 <= v < |c.sent| && 0 <= w < |c.sent| && 0 <= i < |c.sent[v]| && 0 <= j < |c.sent[w]|
      && c.sent[v][i].index == c.sent[w][j].index && c.sent[v][i].command != c.sent[w][j].command
  }

  // What matters of a peer in these runs.
  predicate Is(p: Peer, term: nat, role: Role, log: seq<Entry>, commit: nat) {
    p.term == term && p.role == role && p.log == log && p.commit == commit && p.applied == 0
  }

  const FIRST_OF_0 := Entry(1, Op(1), 1)
  const FIRST_OF_2 := Entry(2, Op(2), 1)

  // Server 0 leads term 1 with the vote of server 2, and has a command that nobody else knows; a
  // heartbeat it built before the command is in flight.
  lemma LateHeartbeatSent() returns (s: Script, late: Call)
    ensures Ok(s) && |Now(s).peers| == 3 && Offices(s, map[0 := 1]) && Now(s).sent == [[], [], []]
    ensures Ordered(s, 0) && Now(s).clock == 1 && Slips(s.es) == []
    ensures Is(Now(s).peers[0], 1, Leader, [SENTINEL, FIRST_OF_0], 0) && Now(s).peers[0].me == 0
    ensures Now(s).peers[0].nextIdx == [1, 1, 1]
    ensures Is(Now(s).peers[1], 0, Follower, [SENTINEL], 0)
    ensures Is(Now(s).peers[2], 1, Follower, [SENTINEL], 0) && Now(s).peers[2].me == 2
    ensures Now(s).peers[2].matchIdx == [0, 0, 0]
    ensures late in Now(s).net && late.AppendCall? && late.ar.None? && late.dst == 1
    ensures late.aa == AppendArgs(1, 0, 0, 0, [], 0)
  {
    s := Begin(3);
    s := Elect(s, 0, 2);
    s, late := Send(s, 0, 1);
    s := Propose(s, 0, Op(1));
    assert Now(s).peers[0].log == [SENTINEL, FIRST_OF_0];
  }

  // The command is replicated to server 1 and committed; the heartbeat is still in flight.
  lemma LateHeartbeatCommit() returns (s: Script, late: Call)
    ensures Ok(s) && |Now(s).peers| == 3 && |Now(s).sent| == 3
    ensures Is(Now(s).peers[0], 1, Leader, [SENTINEL, FIRST_OF_0], 1) && Now(s).peers[0].pending > 0
    ensures Is(Now(s).peers[1], 1, Follower, [SENTINEL, FIRST_OF_0], 0) && Now(s).peers[1].votedFor == -1
    ensures Is(Now(s).peers[2], 1, Follower, [SENTINEL], 0) && Now(s).peers[2].me == 2
    ensures Now(s).peers[2].matchIdx == [0, 0, 0]
    ensures late in Now(s).net && late.AppendCall? && late.ar.None? && late.dst == 1
    ensures late.aa == AppendArgs(1, 0, 0, 0, [], 0)
    ensures Now(s).sent == [[], [], []]
    ensures Offices(s, map[0 := 1]) && Ordered(s, 2) && Slips(s.es) == []
  {
    s, late := LateHeartbeatSent();
    var k;
    s, k := Send(s, 0, 1);
    assert k.aa == AppendArgs(1, 0, 0, 0, [FIRST_OF_0], 0);
    var r;
    s, r := Handle(s, k);
    assert Now(s).peers[1].log == [SENTINEL, FIRST_OF_0] && r.success;
    s := CommitOne(s, k.(ar := Some(r)));
  }

  // The leader 0 processes the acknowledgement of server 1 for its last entry.
  lemma CommitOne(s: Script, k: Call) returns (s': Script)
    requires Ok(s) && |Now(s).peers| == 3 && k in Now(s).net && k.AppendCall?
    requires k.aa.leader != k.dst && k.ar == Some(AppendReply(k.aa.term, true, 1))
    requires |k.aa.entries| == 1 && k.aa.entries[0].term == k.aa.term && k.aa.entries[0].index == 1
    requires k.aa.leader < 3
    requires Is(Now(s).peers[k.aa.leader], k.aa.term, Leader, [SENTINEL] + k.aa.entries, 0)
    ensures Ok(s') && Carries(s, s') && Now(s').net == Now(s).net - {k} && Now(s').sent == Now(s).sent
    ensures |Now(s').peers| == 3
    ensures Is(Now(s').peers[k.aa.leader], k.aa.term, Leader, [SENTINEL] + k.aa.entries, 1)
    ensures Now(s').peers[k.aa.leader].pending > 0
    ensures Now(s').peers == Now(s).peers[k.aa.leader := Now(s').peers[k.aa.leader]]
  {
    s' := Answer(s, k);
    var p := Now(s).peers[k.aa.leader];
    var q := Progress(p, k.dst, k.aa, k.ar.value);
    ShapeNow(s);
    assert PeerShape(p, 3, k.aa.leader);
    assert k.dst in Holders(q, 1);
    assert |Holders(q, 1)| >= |{k.dst}| by {
      assert {k.dst} <= Holders(q, 1);
      SubsetSize({k.dst}, Holders(q, 1));
    }
    assert CommitScan(q, 1) == 1;
  }

  // The heartbeat takes the entry away from server 1, which then votes for server 2.
  lemma LateHeartbeatElect(s0: Script, late: Call) returns (s: Script)
    requires Ok(s0) && |Now(s0).peers| == 3 && Offices(s0, map[0 := 1])
    requires Is(Now(s0).peers[1], 1, Follower, [SENTINEL, FIRST_OF_0], 0)
    requires Is(Now(s0).peers[2], 1, Follower, [SENTINEL], 0) && Now(s0).peers[2].me == 2
    requires Now(s0).peers[2].matchIdx == [0, 0, 0]
    requires late in Now(s0).net && late.AppendCall? && late.ar.None? && late.dst == 1
    requires late.aa == AppendArgs(1, 0, 0, 0, [], 0)
    ensures Ok(s) && |Now(s).peers| == 3 && Offices(s, map[0 := 1][2 := 2])
    ensures Slips(s.es) == Slips(s0.es) && Now(s).sent == Now(s0).sent
    ensures Is(Now(s).peers[1], 2, Follower, [SENTINEL], 0)
    ensures Is(Now(s).peers[2], 2, Leader, [SENTINEL], 0) && Now(s).peers[2].me == 2
    ensures Now(s).peers[2].matchIdx == [0, 0, 0] && Now(s).peers[2].nextIdx == [1, 1, 1]
  {
    var r;
    s, r := Handle(s0, late);
    assert Now(s).peers[1].log == [SENTINEL];
    s := Elect(s, 2, 1);
  }

  lemma LateHeartbeatEnd(s0: Script, late: Call) returns (s: Script)
    requires Ok(s0) && |Now(s0).peers| == 3 && Now(s0).sent == [[ApplyMsg(1, Op(1))], [], []]
    requires Is(Now(s0).peers[1], 1, Follower, [SENTINEL, FIRST_OF_0], 0)
    requires Is(Now(s0).peers[2], 1, Follower, [SENTINEL], 0) && Now(s0).peers[2].me == 2
    requires Now(s0).peers[2].matchIdx == [0, 0, 0]
    requires late in Now(s0).net && late.AppendCall? && late.ar.None? && late.dst == 1
    requires late.aa == AppendArgs(1, 0, 0, 0, [], 0)
    requires Offices(s0, map[0 := 1])
    ensures Ok(s) && Offices(s, map[0 := 1][2 := 2]) && Slips(s.es) == Slips(s0.es)
    ensures Now(s).sent == [[ApplyMsg(1, Op(1))], [], [ApplyMsg(1, Op(2))]]
  {
    s := LateHeartbeatElect(s0, late);
    var r;
    s := Propose(s, 2, Op(2));
    assert Now(s).peers[2].log == [SENTINEL, FIRST_OF_2];
    var k;
    s, k := Send(s, 2, 1);
    assert k.aa == AppendArgs(2, 2, 0, 0, [FIRST_OF_2], 0);
    s, r := Handle(s, k);
    s := CommitOne(s, k.(ar := Some(r)));
    s := Apply(s, 2);
    assert Deliveries([SENTINEL, FIRST_OF_2], 0, 1) == [ApplyMsg(1, Op(2))];
  }

  /** Without H4 state machine safety fails, even if no server restarts and no server leads two
      terms: a heartbeat that arrives late, after a longer call of the same leader, makes the
      follower drop an entry it has acknowledged and that is already delivered. */
  lemma SafetyNeedsOrder() returns (s: Script)
    ensures Ok(s) && Classic(s.es) && OneTermEach(s.tr, s.es)
    ensures Disagree(Now(s))
  {
    var late;
    s, late := LateHeartbeatCommit();
    s := Apply(s, 0);
    assert Deliveries([SENTINEL, FIRST_OF_0], 0, 1) == [ApplyMsg(1, Op(1))];
    s := LateHeartbeatEnd(s, late);
    var v, w := 0, 2;
    assert Now(s).sent[v][0].index == Now(s).sent[w][0].index;
    OfficesAreOneTermEach(s, map[0 := 1][2 := 2]);
    SlipsAreAll(s.es);
  }

  /** The hypotheses leave runs in which a command is committed and delivered. */
  lemma OrderlyRunsDeliver() returns (s: Script)
    ensures Ok(s) && Classic(s.es) && InOrder(s.es) && OneTermEach(s.tr, s.es)
    ensures OrderlyRun(s.tr, s.es) && Now(s).sent == [[ApplyMsg(1, Op(1))], [], []]
    ensures |Now(s).peers| == 3
    ensures Is(Now(s).peers[1], 1, Follower, [SENTINEL, FIRST_OF_0], 0) && Now(s).peers[1].votedFor == -1
  {
    var late;
    s, late := LateHeartbeatCommit();
    s := Apply(s, 0);
    assert Deliveries([SENTINEL, FIRST_OF_0], 0, 1) == [ApplyMsg(1, Op(1))];
    assert Ordered(s, 2);
    OfficesAreOneTermEach(s, map[0 := 1]);
    SlipsAreAll(s.es);
    ClassicIsProper(s.tr, s.es);
    ClassicRunsAreOrderly(s.tr, s.es);
  }

  /** So do they with careful restarts in place of H1: a follower that has persisted a term in which
      it has not voted may restart. */
  lemma OrderlyRunsRestart() returns (s: Script)
    ensures Ok(s) && OrderlyRun(s.tr, s.es) && Slips(s.es) == [Restart(1)]
    ensures Now(s).sent == [[ApplyMsg(1, Op(1))], [], []]
  {
    var before := OrderlyRunsDeliver();
    ShapeNow(before);
    RunSound(before.tr, before.es, |before.es|);
    RestartIsCareful(Now(before), 1);
    SlipsAreAll(before.es);
    s := Play(before, Restart(1));
    forall i: nat | i < |s.es| ensures OrderlyAt(s.tr, s.es, i) {
      assert i < |before.es| ==> OrderlyAt(before.tr, before.es, i);
      assert StepAt(s.tr, s.es, i);
    }
  }

  // A server that has not voted in its term, and has entries of that term, may restart.
  lemma RestartIsCareful(c: Cluster, v: nat)
    requires Basic(c) && v < |c.peers| && c.peers[v].votedFor == -1
    requires |c.peers[v].log| > 0 && Last(c.peers[v].log).term == c.peers[v].term
    ensures Careful(c, Restart(v))
  {
    assert PeerOk(c.peers[v], |c.peers|, v) && VoterOk(c.h.votes, v, c.peers[v]);
    forall k | k in c.h.votes && k.server == v ensures k.term < c.peers[v].stable.term {
      assert VoteOk(c.h, c.peers, k) && k == At(v, k.term);
    }
  }

  lemma OfficesAreOneTermEach(s: Script, office: map<nat, nat>)
    requires Ok(s) && Offices(s, office)
    ensures OneTermEach(s.tr, s.es)
  {
  }

  // ----- a left-over match index -----

  const EARLY_1 := Entry(1, Op(1), 1)
  const EARLY_2 := Entry(1, Op(2), 2)
  const MIDDLE_1 := Entry(2, Op(3), 1)
  const LATE_OF_0 := Entry(5, Op(4), 2)
  const LATE_OF_2 := Entry(6, Op(5), 2)

  // The three servers, and H4 so far.
  ghost predicate Scene(s: Script, p0: (nat, Role, seq<Entry>), p1: (nat, Role, seq<Entry>),
                        p2: (nat, Role, seq<Entry>)) {
    && Ok(s) && Ordered(s, Now(s).clock) && Slips(s.es) == [] && |Now(s).peers| == 3
    && Is(Now(s).peers[0], p0.0, p0.1, p0.2, 0)
    && Is(Now(s).peers[1], p1.0, p1.1, p1.2, 0)
    && Is(Now(s).peers[2], p2.0, p2.1, p2.2, 0)
    && (forall v :: 0 <= v < 3 ==> PeerShape(Now(s).peers[v], 3, v))
    && Now(s).peers[2].matchIdx == [0, 0, 0]
    && Now(s).sent == [[], [], []]
  }

  // Server 0 leads term 1 and has two commands that nobody else knows.
  lemma StaleMatch1() returns (s: Script)
    ensures Scene(s, (1, Leader, [SENTINEL, EARLY_1, EARLY_2]), (0, Follower, [SENTINEL]),
                  (1, Follower, [SENTINEL]))
  {
    s := Begin(3);
    s := Elect(s, 0, 2);
    s := Propose(s, 0, Op(1));
    s := Propose(s, 0, Op(2));
    assert Now(s).peers[0].log == [SENTINEL, EARLY_1, EARLY_2];
    ShapeNow(s);
  }

  // Server 2 leads term 2 and has a command that nobody else knows.
  lemma StaleMatch2(s0: Script) returns (s: Script)
    requires Scene(s0, (1, Leader, [SENTINEL, EARLY_1, EARLY_2]), (0, Follower, [SENTINEL]),
                   (1, Follower, [SENTINEL]))
    ensures Scene(s, (2, Follower, [SENTINEL, EARLY_1, EARLY_2]), (2, Follower, [SENTINEL]),
                  (2, Leader, [SENTINEL, MIDDLE_1]))
  {
    s := Elect(s0, 2, 1);
    s := Propose(s, 2, Op(3));
    assert Now(s).peers[2].log == [SENTINEL, MIDDLE_1];
    var no;
    s, no := Ask(s, 0, VoteArgs(2, 2, 0, 0));
    ShapeNow(s);
  }

  // Server 0 leads term 3 and replicates its two old entries to server 1, without committing them.
  lemma StaleMatch3(s0: Script) returns (s: Script)
    requires Scene(s0, (2, Follower, [SENTINEL, EARLY_1, EARLY_2]), (2, Follower, [SENTINEL]),
                   (2, Leader, [SENTINEL, MIDDLE_1]))
    ensures Scene(s, (3, Leader, [SENTINEL, EARLY_1, EARLY_2]), (3, Follower, [SENTINEL, EARLY_1, EARLY_2]),
                  (3, Follower, [SENTINEL, MIDDLE_1]))
    ensures Now(s).peers[0].matchIdx[1] == 2
  {
    s := StaleMatchVote(s0);
    s := StaleMatchBack(s);
    var k, r;
    s, k := Send(s, 0, 1);
    assert k.aa == AppendArgs(3, 0, 0, 0, [EARLY_1, EARLY_2], 0);
    s, r := Handle(s, k);
    assert Now(s).peers[1].log == [SENTINEL, EARLY_1, EARLY_2];
    s := Answer(s, k.(ar := Some(r)));
    ShapeNow(s);
  }

  // Server 1 refuses the first call, and server 0 backs up.
  lemma StaleMatchBack(s0: Script) returns (s: Script)
    requires Scene(s0, (3, Leader, [SENTINEL, EARLY_1, EARLY_2]), (3, Follower, [SENTINEL]),
                   (3, Follower, [SENTINEL, MIDDLE_1]))
    requires Now(s0).peers[0].nextIdx == [3, 3, 3]
    ensures Scene(s, (3, Leader, [SENTINEL, EARLY_1, EARLY_2]), (3, Follower, [SENTINEL]),
                  (3, Follower, [SENTINEL, MIDDLE_1]))
    ensures Now(s).peers[0].nextIdx == [3, 1, 3]
  {
    var k, r;
    s, k := Send(s0, 0, 1);
    s, r := Handle(s, k);
    s := Answer(s, k.(ar := Some(r)));
    ShapeNow(s);
  }

  lemma StaleMatchVote(s0: Script) returns (s: Script)
    requires Scene(s0, (2, Follower, [SENTINEL, EARLY_1, EARLY_2]), (2, Follower, [SENTINEL]),
                   (2, Leader, [SENTINEL, MIDDLE_1]))
    ensures Scene(s, (3, Leader, [SENTINEL, EARLY_1, EARLY_2]), (3, Follower, [SENTINEL]),
                  (3, Follower, [SENTINEL, MIDDLE_1]))
    ensures Now(s).peers[0].nextIdx == [3, 3, 3]
  {
    s := Elect(s0, 0, 1);
    var no;
    s, no := Ask(s, 2, VoteArgs(3, 0, 2, 1));
    ShapeNow(s);
    assert Now(s).peers[0].nextIdx == [3, 3, 3];
  }

  // Server 2 leads term 4; server 0 refuses its first call.
  lemma StaleMatchRefused(s0: Script) returns (s: Script)
    requires Scene(s0, (3, Leader, [SENTINEL, EARLY_1, EARLY_2]), (3, Follower, [SENTINEL, EARLY_1, EARLY_2]),
                   (3, Follower, [SENTINEL, MIDDLE_1]))
    requires Now(s0).peers[0].matchIdx[1] == 2
    ensures Scene(s, (4, Follower, [SENTINEL, EARLY_1, EARLY_2]), (4, Follower, [SENTINEL, EARLY_1, EARLY_2]),
                  (4, Leader, [SENTINEL, MIDDLE_1]))
    ensures Now(s).peers[0].matchIdx[1] == 2 && Now(s).peers[2].nextIdx == [1, 2, 2]
  {
    s := Elect(s0, 2, 1);
    var k, r;
    s, k := Send(s, 2, 0);
    assert k.aa == AppendArgs(4, 2, 1, 2, [], 0);
    s, r := Handle(s, k);
    s := Answer(s, k.(ar := Some(r)));
    ShapeNow(s);
  }

  // Server 2 overwrites the log of server 0.
  lemma StaleMatch4(s0: Script) returns (s: Script)
    requires Scene(s0, (3, Leader, [SENTINEL, EARLY_1, EARLY_2]), (3, Follower, [SENTINEL, EARLY_1, EARLY_2]),
                   (3, Follower, [SENTINEL, MIDDLE_1]))
    requires Now(s0).peers[0].matchIdx[1] == 2
    ensures Scene(s, (4, Follower, [SENTINEL, MIDDLE_1]), (4, Follower, [SENTINEL, EARLY_1, EARLY_2]),
                  (4, Leader, [SENTINEL, MIDDLE_1]))
    ensures Now(s).peers[0].matchIdx[1] == 2
  {
    s := StaleMatchRefused(s0);
    var k, r;
    s, k := Send(s, 2, 0);
    assert k.aa == AppendArgs(4, 2, 0, 0, [MIDDLE_1], 0);
    s, r := Handle(s, k);
    assert Now(s).peers[0].log == [SENTINEL, MIDDLE_1];
    ShapeNow(s);
  }

  // Server 0 leads term 5.  It counts server 1 for its new command, which it has sent to nobody.
  lemma StaleMatch5(s0: Script) returns (s: Script)
    requires Scene(s0, (4, Follower, [SENTINEL, MIDDLE_1]), (4, Follower, [SENTINEL, EARLY_1, EARLY_2]),
                   (4, Leader, [SENTINEL, MIDDLE_1]))
    requires Now(s0).peers[0].matchIdx[1] == 2
    ensures Ok(s) && Ordered(s, Now(s).clock) && Slips(s.es) == [] && |Now(s).peers| == 3
    ensures Is(Now(s).peers[1], 4, Follower, [SENTINEL, EARLY_1, EARLY_2], 0)
    ensures Is(Now(s).peers[2], 5, Follower, [SENTINEL, MIDDLE_1], 0)
    ensures forall v :: 0 <= v < 3 ==> PeerShape(Now(s).peers[v], 3, v)
    ensures Now(s).peers[2].matchIdx == [0, 0, 0]
    ensures Now(s).sent == [[ApplyMsg(1, Op(3)), ApplyMsg(2, Op(4))], [], []]
  {
    s := Elect(s0, 0, 2);
    var k, r;
    s, k := Send(s, 0, 2);
    assert k.aa == AppendArgs(5, 0, 1, 2, [], 0);
    s := Propose(s, 0, Op(4));
    assert Now(s).peers[0].log == [SENTINEL, MIDDLE_1, LATE_OF_0];
    s, r := Handle(s, k);
    assert Now(s).peers[2].log == [SENTINEL, MIDDLE_1];
    s := CommitTwo(s, k.(ar := Some(r)), 1);
    s := Apply(s, 0);
    TwoDeliveries(MIDDLE_1, LATE_OF_0);
    assert Now(s).sent[0] == [ApplyMsg(1, Op(3)), ApplyMsg(2, Op(4))];
    ShapeNow(s);
  }

  lemma TwoDeliveries(x: Entry, y: Entry)
    ensures Deliveries([SENTINEL, x, y], 0, 2) == [ApplyMsg(1, x.command), ApplyMsg(2, y.command)]
  {
    DeliveriesAt([SENTINEL, x, y], 0, 2);
  }

  // The leader processes a success reply while it has server j's match index at 2.
  lemma CommitTwo(s: Script, k: Call, j: nat) returns (s': Script)
    requires Ok(s) && |Now(s).peers| == 3 && k in Now(s).net && k.AppendCall?
    requires k.aa.leader < 3 && k.dst < 3 && k.ar.Some? && k.ar.value.term == k.aa.term
    requires k.ar.value.success && |k.aa.entries| > 0 ==> Last(k.aa.entries).index == 2
    requires k.ar.value.success && j < 3 && j != k.aa.leader
    requires PeerShape(Now(s).peers[k.aa.leader], 3, k.aa.leader)
    requires if |k.aa.entries| > 0 then j == k.dst else Now(s).peers[k.aa.leader].matchIdx[j] == 2
    requires |Now(s).peers[k.aa.leader].log| == 3
    requires Is(Now(s).peers[k.aa.leader], k.aa.term, Leader, Now(s).peers[k.aa.leader].log, 0)
    requires Now(s).peers[k.aa.leader].log[2].term == k.aa.term
    ensures Ok(s') && Carries(s, s') && Now(s').clock == Now(s).clock && Now(s').sent == Now(s).sent
    ensures |Now(s').peers| == 3
    ensures Is(Now(s').peers[k.aa.leader], k.aa.term, Leader, Now(s).peers[k.aa.leader].log, 2)
    ensures Now(s').peers[k.aa.leader].pending > 0
    ensures Now(s').peers == Now(s).peers[k.aa.leader := Now(s').peers[k.aa.leader]]
  {
    s' := Answer(s, k);
    var q := Progress(Now(s).peers[k.aa.leader], k.dst, k.aa, k.ar.value);
    assert {j} <= Holders(q, 2);
    SubsetSize({j}, Holders(q, 2));
    assert CommitScan(q, 2) == 2;
  }

  // Server 2 leads term 6 and commits another command at the same index.
  lemma StaleMatch6(s0: Script) returns (s: Script)
    requires Ok(s0) && Ordered(s0, Now(s0).clock) && Slips(s0.es) == [] && |Now(s0).peers| == 3
    requires Is(Now(s0).peers[1], 4, Follower, [SENTINEL, EARLY_1, EARLY_2], 0)
    requires Is(Now(s0).peers[2], 5, Follower, [SENTINEL, MIDDLE_1], 0)
    requires forall v :: 0 <= v < 3 ==> PeerShape(Now(s0).peers[v], 3, v)
    requires Now(s0).peers[2].matchIdx == [0, 0, 0]
    requires Now(s0).sent == [[ApplyMsg(1, Op(3)), ApplyMsg(2, Op(4))], [], []]
    ensures Ok(s) && Ordered(s, Now(s).clock) && Slips(s.es) == []
    ensures Now(s).sent == [[ApplyMsg(1, Op(3)), ApplyMsg(2, Op(4))], [],
                            [ApplyMsg(1, Op(3)), ApplyMsg(2, Op(5))]]
  {
    s := Elect(s0, 2, 1);
    s := Propose(s, 2, Op(5));
    assert Now(s).peers[2].log == [SENTINEL, MIDDLE_1, LATE_OF_2];
    var k, r;
    s, k := Send(s, 2, 1);
    assert k.aa == AppendArgs(6, 2, 1, 2, [LATE_OF_2], 0);
    s, r := Handle(s, k);
    var q := Progress(Now(s).peers[2], 1, k.aa, r);
    assert Holders(q, 2) == {};
    assert CommitScan(q, 1) == 0 && CommitScan(q, 2) == 0;
    s := Answer(s, k.(ar := Some(r)));
    ShapeNow(s);
    s := StaleMatch7(s);
  }

  lemma StaleMatch7(s0: Script) returns (s: Script)
    requires Ok(s0) && Ordered(s0, Now(s0).clock) && Slips(s0.es) == [] && |Now(s0).peers| == 3
    requires Is(Now(s0).peers[1], 6, Follower, [SENTINEL, EARLY_1, EARLY_2], 0)
    requires Is(Now(s0).peers[2], 6, Leader, [SENTINEL, MIDDLE_1, LATE_OF_2], 0)
    requires forall v :: 0 <= v < 3 ==> PeerShape(Now(s0).peers[v], 3, v)
    requires |Now(s0).peers[2].nextIdx| == 3
    requires Now(s0).peers[2].nextIdx[0] <= 3 && Now(s0).peers[2].nextIdx[1] == 1
    requires Now(s0).sent == [[ApplyMsg(1, Op(3)), ApplyMsg(2, Op(4))], [], []]
    ensures Ok(s) && Ordered(s, Now(s).clock) && Slips(s.es) == []
    ensures Now(s).sent == [[ApplyMsg(1, Op(3)), ApplyMsg(2, Op(4))], [],
                            [ApplyMsg(1, Op(3)), ApplyMsg(2, Op(5))]]
  {
    var k, r;
    s, k := Send(s0, 2, 1);
    assert k.aa == AppendArgs(6, 2, 0, 0, [MIDDLE_1, LATE_OF_2], 0);
    s, r := Handle(s, k);
    s := CommitTwo(s, k.(ar := Some(r)), 1);
    s := Apply(s, 2);
    TwoDeliveries(MIDDLE_1, LATE_OF_2);
    assert Now(s).sent[2] == [ApplyMsg(1, Op(3)), ApplyMsg(2, Op(5))];
  }

  /** Without H5 state machine safety fails, even if no server restarts and calls arrive in order:
      a match index left over from an earlier leadership lets a leader commit and deliver an entry
      that no other server holds. */
  lemma SafetyNeedsFreshMatches() returns (s: Script)
    ensures Ok(s) && Classic(s.es) && InOrder(s.es)
    ensures Disagree(Now(s))
  {
    s := StaleMatch1();
    s := StaleMatch2(s);
    s := StaleMatch3(s);
    s := StaleMatch4(s);
    s := StaleMatch5(s);
    s := StaleMatch6(s);
    var v, w := 0, 2;
    assert Now(s).sent[v][1].index == Now(s).sent[w][1].index;
    SlipsAreAll(s.es);
  }

  // ----- a forgotten vote -----

  lemma Crash(s: Script, v: nat) returns (s': Script)
    requires Ok(s) && v < |Now(s).peers|
    ensures Ok(s') && Now(s').net == Now(s).net && Slips(s'.es) == Slips(s.es) + [Restart(v)]
    ensures Now(s').peers ==
              Now(s).peers[v := Boot(|Now(s).peers|, v, Some(Now(s).peers[v].stable))]
  {
    ShapeNow(s);
    s' := Play(s, Restart(v));
  }

  /** Without H1 election safety fails: a server that restarts once has forgotten the vote it had
      granted, and two servers lead the same term. */
  lemma ElectionNeedsMemory() returns (s: Script)
    ensures Ok(s) && |Now(s).peers| == 3 && Slips(s.es) == [Restart(2)]
    ensures Now(s).peers[0].role == Leader && Now(s).peers[1].role == Leader
    ensures Now(s).peers[0].term == Now(s).peers[1].term
  {
    s := Begin(3);
    s := Elect(s, 0, 2);
    ShapeNow(s);
    s := Crash(s, 2);
    s := Elect(s, 1, 2);
  }

  // ----- a request read late -----

  lemma ReadLate(s: Script, v: nat, va: VoteArgs) returns (s': Script)
    requires Ok(s) && v < |Now(s).peers| && va.cand == v
    requires forall j: nat :: j < |Now(s).peers| && j != v ==> VoteCall(j, va, None) in Now(s).net
    ensures Ok(s') && Slips(s'.es) == Slips(s.es) + [LateRead(v, va)]
    ensures Now(s').peers == Now(s).peers && |Now(s).peers[v].log| > 0
    ensures forall j: nat :: j < |Now(s).peers| && j != v ==>
              VoteCall(j, BuildVote(Now(s).peers[v]), None) in Now(s').net
  {
    ShapeNow(s);
    s' := Play(s, LateRead(v, va));
    var va' := BuildVote(Now(s).peers[v]);
    forall j: nat | j < |Now(s).peers| && j != v ensures VoteCall(j, va', None) in Now(s').net {
      assert VoteCall(j, va', None) in Ballots(Now(s), v, va');
    }
  }

  // Server 1 has stood in term 1 and voted for server 0, which leads term 2; its own requests are unread.
  lemma RequestsUnread(va: VoteArgs) returns (s: Script)
    requires va == VoteArgs(1, 1, 0, 0)
    ensures Ok(s) && Slips(s.es) == [] && |Now(s).peers| == 3
    ensures Now(s).peers[0].role == Leader && Now(s).peers[0].term == 2
    ensures Is(Now(s).peers[1], 2, Follower, [SENTINEL], 0) && Now(s).peers[1].votes == 1
    ensures PeerShape(Now(s).peers[1], 3, 1)
    ensures Is(Now(s).peers[2], 0, Follower, [SENTINEL], 0)
    ensures VoteCall(0, va, None) in Now(s).net && VoteCall(2, va, None) in Now(s).net
  {
    s := Begin(3);
    s := Stand(s, 1);
    assert va == BuildVote(Now(s).peers[1]);
    s := Stand(s, 0);
    s := Elect(s, 0, 1);
    ShapeNow(s);
  }

  /** Without H2 election safety fails: server 1 stands in term 1, votes for server 0 in term 2, and
      only then reads its request, which so asks for votes in term 2; when it is a candidate again,
      one late reply makes it the second leader of term 2. */
  lemma ElectionNeedsTimelyReads() returns (s: Script)
    ensures Ok(s) && |Now(s).peers| == 3 && Slips(s.es) == [LateRead(1, VoteArgs(1, 1, 0, 0))]
    ensures Now(s).peers[0].role == Leader && Now(s).peers[1].role == Leader
    ensures Now(s).peers[0].term == Now(s).peers[1].term
  {
    s := RequestsUnread(VoteArgs(1, 1, 0, 0));
    s := ReadLate(s, 1, VoteArgs(1, 1, 0, 0));
    assert BuildVote(Now(s).peers[1]) == VoteArgs(2, 1, 0, 0);
    var r;
    s, r := Ask(s, 2, VoteArgs(2, 1, 0, 0));
    ShapeNow(s);
    s := Plain(s, Timeout(1));
    s := Count(s, 2, VoteArgs(2, 1, 0, 0), r);
  }

  // ----- a call overwritten before it is copied -----

  const OLD_1 := Entry(1, Op(1), 1)
  const OLD_2 := Entry(1, Op(2), 2)
  const NEW_1 := Entry(2, Op(3), 1)

  // Of five servers, v stands, and two others grant it their votes.
  lemma AskTwo(s0: Script, v: nat, x: nat, y: nat) returns (s: Script, va: VoteArgs)
    requires Ok(s0) && |Now(s0).peers| == 5 && v < 5 && x < 5 && y < 5
    requires v != x && x != y && y != v
    requires Now(s0).peers[v].me == v
    requires Now(s0).peers[x].term <= Now(s0).peers[v].term
    requires Now(s0).peers[y].term <= Now(s0).peers[v].term
    requires Now(s0).peers[v].log == Now(s0).peers[x].log == Now(s0).peers[y].log == [SENTINEL]
    ensures Ok(s) && Slips(s.es) == Slips(s0.es)
    ensures var p := OnCandidacy(OnTimeout(Now(s0).peers[v]));
            && va == BuildVote(p)
            && Now(s).peers ==
                 Now(s0).peers[v := p]
                              [x := StepDown(Now(s0).peers[x], p.term).(votedFor := v)]
                              [y := StepDown(Now(s0).peers[y], p.term).(votedFor := v)]
    ensures VoteCall(x, va, Some(VoteReply(va.term, true))) in Now(s).net
    ensures VoteCall(y, va, Some(VoteReply(va.term, true))) in Now(s).net
    ensures forall k :: k in Now(s0).net && k.AppendCall? ==> k in Now(s).net
  {
    s := Stand(s0, v);
    va := BuildVote(Now(s).peers[v]);
    var r;
    s, r := Ask(s, x, va);
    s, r := Ask(s, y, va);
  }

  // With the two votes v wins.
  lemma ElectByTwo(s0: Script, v: nat, x: nat, y: nat) returns (s: Script)
    requires Ok(s0) && |Now(s0).peers| == 5 && v < 5 && x < 5 && y < 5
    requires v != x && x != y && y != v
    requires forall w :: 0 <= w < 5 ==> PeerShape(Now(s0).peers[w], 5, w)
    requires Now(s0).peers[x].term <= Now(s0).peers[v].term
    requires Now(s0).peers[y].term <= Now(s0).peers[v].term
    requires Now(s0).peers[v].log == Now(s0).peers[x].log == Now(s0).peers[y].log == [SENTINEL]
    ensures Ok(s) && Slips(s.es) == Slips(s0.es) && |Now(s).peers| == 5
    ensures forall w :: 0 <= w < 5 ==> Now(s).peers[w].log == Now(s0).peers[w].log
    ensures forall w :: 0 <= w < 5 ==> PeerShape(Now(s).peers[w], 5, w)
    ensures var p := Now(s).peers[v];
            p.role == Leader && p.term == Now(s0).peers[v].term + 1 && p.nextIdx == [1, 1, 1, 1, 1]
    ensures forall w :: 0 <= w < 5 && w != v && w != x && w != y ==>
              Now(s).peers[w] == Now(s0).peers[w]
    ensures Now(s).peers[v].commit == Now(s0).peers[v].commit
    ensures Now(s).peers[v].applied == Now(s0).peers[v].applied
    ensures Now(s).peers[x].term == Now(s).peers[y].term == Now(s).peers[v].term
    ensures forall k :: k in Now(s0).net && k.AppendCall? ==> k in Now(s).net
  {
    var va;
    s, va := AskTwo(s0, v, x, y);
    s := Count(s, x, va, VoteReply(va.term, true));
    s := Count(s, y, va, VoteReply(va.term, true));
  }

  // Server 0 leads term 1 of five servers.
  lemma FirstOfFive() returns (s: Script)
    ensures Ok(s) && Slips(s.es) == [] && |Now(s).peers| == 5
    ensures forall w :: 0 <= w < 5 ==> PeerShape(Now(s).peers[w], 5, w)
    ensures Is(Now(s).peers[0], 1, Leader, [SENTINEL], 0) && Now(s).peers[0].nextIdx == [1, 1, 1, 1, 1]
    ensures forall w :: 1 <= w < 5 ==>
              && Now(s).peers[w].log == [SENTINEL]
              && Now(s).peers[w].term == (if w < 3 then 0 else 1)
    ensures Now(s).peers[1].commit == 0
  {
    s := Begin(5);
    ShapeNow(s);
    s := ElectByTwo(s, 0, 3, 4);
  }

  // It has built a call of two entries to server 4.
  lemma SlowCallBuilt() returns (s: Script, k: Call)
    ensures Ok(s) && Slips(s.es) == [] && |Now(s).peers| == 5
    ensures forall w :: 0 <= w < 5 ==> PeerShape(Now(s).peers[w], 5, w)
    ensures Now(s).peers[0].log == [SENTINEL, OLD_1, OLD_2] && Now(s).peers[0].term == 1
    ensures forall w :: 1 <= w < 5 ==>
              && Now(s).peers[w].log == [SENTINEL]
              && Now(s).peers[w].term == (if w < 3 then 0 else 1)
    ensures Now(s).peers[1].commit == 0
    ensures k in Now(s).net && k.AppendCall? && k.ar.None? && k.dst == 4
    ensures k.aa == AppendArgs(1, 0, 0, 0, [OLD_1, OLD_2], 0)
    ensures k.full == [SENTINEL, OLD_1, OLD_2]
  {
    s := FirstOfFive();
    s := Propose(s, 0, Op(1));
    s := Propose(s, 0, Op(2));
    assert Now(s).peers[0].log == [SENTINEL, OLD_1, OLD_2];
    s, k := Send(s, 0, 4);
    ShapeNow(s);
  }

  // Server 1 leads term 2.
  lemma SecondOfFive() returns (s: Script, k: Call)
    ensures Ok(s) && Slips(s.es) == [] && |Now(s).peers| == 5
    ensures forall w :: 0 <= w < 5 ==> PeerShape(Now(s).peers[w], 5, w)
    ensures Now(s).peers[0].log == [SENTINEL, OLD_1, OLD_2] && Now(s).peers[0].term == 1
    ensures var p := Now(s).peers[1];
            && p.role == Leader && p.term == 2 && p.log == [SENTINEL] && p.commit == 0
            && p.nextIdx == [1, 1, 1, 1, 1]
    ensures Now(s).peers[4].log == [SENTINEL] && Now(s).peers[4].term == 1
    ensures k in Now(s).net && k.AppendCall? && k.ar.None? && k.dst == 4
    ensures k.aa == AppendArgs(1, 0, 0, 0, [OLD_1, OLD_2], 0)
    ensures k.full == [SENTINEL, OLD_1, OLD_2]
  {
    s, k := SlowCallBuilt();
    s := Stand(s, 1);
    ShapeNow(s);
    s := ElectByTwo(s, 1, 2, 3);
  }

  // It replaces the log of server 0.
  lemma SlowCallOvertaken() returns (s: Script, k: Call)
    ensures Ok(s) && Slips(s.es) == [] && |Now(s).peers| == 5
    ensures Now(s).peers[0].log == [SENTINEL, NEW_1] && Now(s).peers[4].log == [SENTINEL]
    ensures Now(s).peers[4].term == 1
    ensures k in Now(s).net && k.AppendCall? && k.ar.None? && k.dst == 4
    ensures k.aa == AppendArgs(1, 0, 0, 0, [OLD_1, OLD_2], 0)
    ensures k.full == [SENTINEL, OLD_1, OLD_2]
  {
    s, k := SecondOfFive();
    s := Propose(s, 1, Op(3));
    assert Now(s).peers[1].log == [SENTINEL, NEW_1];
    var k', r;
    s, k' := Send(s, 1, 0);
    assert k'.aa == AppendArgs(2, 1, 0, 0, [NEW_1], 0);
    s, r := Handle(s, k');
    assert Now(s).peers[0].log == [SENTINEL, NEW_1];
  }

  /** Without H3 log matching fails, and so does the order of terms in a log: the call is copied when
      its sender's array already holds the entry of a later leader, and a server that is still in
      the older term accepts the mixture. */
  lemma MatchingNeedsFixedCalls() returns (s: Script, k: Call)
    ensures Ok(s) && |Now(s).peers| == 5 && Slips(s.es) == [Overwrite(k)]
    ensures !Sorted(Now(s).peers[4].log)
    ensures k.AppendCall? && k.full in LogsOf(Now(s)) && Now(s).peers[4].log in LogsOf(Now(s))
    ensures var (a, b) := (k.full, Now(s).peers[4].log);
            |a| == |b| == 3 && a[2] == b[2] && a[1] != b[1]
  {
    s, k := SlowCallOvertaken();
    ShapeNow(s);
    var k' := Overwritten(Now(s), k);
    s := Play(s, Overwrite(k));
    assert k'.aa == AppendArgs(1, 0, 0, 0, [NEW_1, OLD_2], 0);
    var r;
    s, r := Handle(s, k');
    var log := Now(s).peers[4].log;
    assert log == [SENTINEL, NEW_1, OLD_2];
    assert log[1].term > log[2].term;
    assert k'.(ar := Some(r)) in Now(s).net;
  }
}
