/** The properties of Figure 3 of the Raft paper, for every run of the cluster. */
module Theorems {
  import opened RaftCore
  import opened Cluster
  import opened DurableLog
  import opened Elections
  import opened LogMatching
  import opened Replication
  import opened Invariant
  import opened Completeness
  import opened Commitment
  import opened Soundness

  // Any number of servers, logs of any length, and any loss, delay or reordering of calls.
  // `ProperRun` has the conditions that take the place of H1, H2 and H3: restarts forget no vote,
  // requests are read in the term of their candidacy, and no call is overwritten.  `OrderlyRun`
  // adds those that take the place of H4 and H5.

  ghost predicate OrderlyAt(tr: seq<Cluster>, es: seq<Event>, i: nat)
    requires Run(tr, es) && i < |es|
  {
    StepAt(tr, es, i) && Orderly(tr[i], es[i])
  }

  ghost predicate OrderlyRun(tr: seq<Cluster>, es: seq<Event>)
    requires Run(tr, es)
  {
    forall i: nat {:trigger OrderlyAt(tr, es, i)} :: i < |es| ==> OrderlyAt(tr, es, i)
  }

  // ----- invariants along a run -----

  lemma SoundStep(c: Cluster, e: Event)
    requires Sound(c) && Enabled(c, e) && Orderly(c, e)
    ensures Sound(Next(c, e))
  {
    match e
    case Candidacy(v) => SoundCandidacy(c, v);
    case HandleVote(k) => SoundHandleVote(c, k);
    case FinishVote(k) => SoundFinishVote(c, k);
    case Broadcast(v) => SoundBroadcast(c, v);
    case HandleAppend(k) => SoundHandleAppend(c, k);
    case FinishAppend(k) => SoundFinishAppend(c, k);
    case Submit(v, command) => SoundSubmit(c, v, command);
    case Deliver(v) => SoundDeliver(c, v);
    case Lose(k) => SoundLose(c, k);
    case Restart(v) => SoundRestart(c, v);
    case LateRead(v, va) => SoundLateRead(c, v, va);
    case Overwrite(k) => OverwriteIsNone(c, k);
    case _ => SoundLocal(c, e);
  }

  lemma {:induction false} RunBasic(tr: seq<Cluster>, es: seq<Event>, i: nat)
    requires Run(tr, es) && ProperRun(tr, es) && i < |tr|
    ensures Basic(tr[i])
  {
    if i == 0 {
      InitBasic(tr[0]);
    } else {
      RunBasic(tr, es, i - 1);
      assert StepAt(tr, es, i - 1);
      BasicStep(tr[i - 1], es[i - 1]);
    }
  }

  lemma {:induction false} RunSound(tr: seq<Cluster>, es: seq<Event>, i: nat)
    requires Run(tr, es) && OrderlyRun(tr, es) && i < |tr|
    ensures Sound(tr[i])
  {
    if i == 0 {
      InitSound(tr[0]);
    } else {
      RunSound(tr, es, i - 1);
      assert OrderlyAt(tr, es, i - 1);
      SoundStep(tr[i - 1], es[i - 1]);
    }
  }

  lemma OrderlyIsProper(tr: seq<Cluster>, es: seq<Event>)
    requires Run(tr, es) && OrderlyRun(tr, es)
    ensures ProperRun(tr, es)
  {
    forall i: nat | i < |es| ensures Proper(tr[i], es[i]) {
      assert OrderlyAt(tr, es, i);
    }
  }

  // ----- the ledger only grows -----

  lemma AppendAdvances(c: Cluster, e: Event)
    requires Basic(c) && Enabled(c, e) && (e.HandleAppend? || e.FinishAppend?)
    ensures Advances(c, Next(c, e))
  {
    var k := e.call;
    if e.HandleAppend? {
      AppendEffect(c.peers[k.dst], k.aa);
      if Accepts(c.peers[k.dst], k.aa) {
        NotVotedPast(c, k.dst, k.aa.term);
      }
    } else {
      AppendReplyEffect(c.peers[k.aa.leader], k.dst, k.aa, k.ar.value);
    }
  }

  lemma CountAdvances(c: Cluster, k: Call)
    requires Basic(c) && Enabled(c, FinishVote(k))
    ensures Advances(c, Next(c, FinishVote(k)))
  {
    var a := At(k.va.cand, c.peers[k.va.cand].term);
    assert a in c.h.acks ==> AckOk(c.h, c.peers, a);
    NotVotedPast(c, a.server, a.term);
  }

  lemma SubmitAdvances(c: Cluster, e: Event)
    requires Basic(c) && Enabled(c, e) && e.Submit?
    ensures Advances(c, Next(c, e))
  {
    var p := c.peers[e.v];
    if p.role == Leader {
      assert InOffice(c.h, e.v, c.peers[e.v]);
      assert ReignOk(c.h, c.peers, p.term) && OwnAckOk(c.h, p.term);
      NotVotedPast(c, e.v, p.term);
    }
  }

  lemma StepAdvances(c: Cluster, e: Event)
    requires Basic(c) && Enabled(c, e) && Proper(c, e)
    ensures Advances(c, Next(c, e))
  {
    if e.HandleAppend? || e.FinishAppend? {
      AppendAdvances(c, e);
    } else if e.HandleVote? {
      var (p', r) := OnRequestVote(c.peers[e.call.dst], e.call.va);
      VoteAdvances(c, Next(c, e), e.call, p', r);
    } else if e.FinishVote? {
      CountAdvances(c, e.call);
    } else if e.Submit? {
      SubmitAdvances(c, e);
    } else if e.Candidacy? {
      FreshBid(c, e.v);
    }
  }

  lemma RunAdvances(tr: seq<Cluster>, es: seq<Event>, i: nat)
    requires Run(tr, es) && ProperRun(tr, es) && i < |es|
    ensures Advances(tr[i], tr[i + 1])
  {
    RunBasic(tr, es, i);
    assert StepAt(tr, es, i);
    StepAdvances(tr[i], es[i]);
  }

  lemma {:induction false} LedgerGrows(tr: seq<Cluster>, es: seq<Event>, i: nat, j: nat)
    requires Run(tr, es) && ProperRun(tr, es) && i <= j < |tr|
    ensures |tr[j].peers| == |tr[i].peers|
    ensures ReignsExtend(tr[i].h, tr[j].h) && AcksGrow(tr[i].h, tr[j].h)
  {
    if i < j {
      LedgerGrows(tr, es, i, j - 1);
      RunAdvances(tr, es, j - 1);
    }
  }

  lemma SlicesExtend(h: Ledger, h': Ledger, t: nat, n: nat)
    requires ReignsExtend(h, h') && t in h.reigns && n <= |h.reigns[t].log|
    ensures h'.reigns[t].log[..n] == h.reigns[t].log[..n]
  {
    assert h.reigns[t].log <= h'.reigns[t].log;
  }

  // ----- election safety -----

  /** Election safety (H1-H3): whenever two servers are leaders of the same term, at the same time
      or at different times of the run, they are the same server.  Servers may restart, if they
      forget no vote. */
  lemma ElectionSafety(tr: seq<Cluster>, es: seq<Event>, i: nat, j: nat, v: nat, w: nat)
    requires Run(tr, es) && ProperRun(tr, es) && i < |tr| && j < |tr|
    requires v < |tr[i].peers| && tr[i].peers[v].role == Leader
    requires w < |tr[j].peers| && tr[j].peers[w].role == Leader
    requires tr[i].peers[v].term == tr[j].peers[w].term
    ensures v == w
  {
    RunBasic(tr, es, i);
    RunBasic(tr, es, j);
    assert InOffice(tr[i].h, v, tr[i].peers[v]) && InOffice(tr[j].h, w, tr[j].peers[w]);
    if i <= j {
      LedgerGrows(tr, es, i, j);
    } else {
      LedgerGrows(tr, es, j, i);
    }
  }

  // ----- log matching -----

  // The logs of the servers, and the logs that calls in flight were cut from.
  function LogsOf(c: Cluster): set<seq<Entry>> {
    (set v | v in Servers(|c.peers|) :: c.peers[v].log) +
    (set k | k in c.net && k.AppendCall? :: k.full)
  }

  lemma LogsOfAreSane(c: Cluster, log: seq<Entry>)
    requires Basic(c) && log in LogsOf(c)
    ensures LogOk(log) && Sane(c.h, log)
  {
    if v :| v in Servers(|c.peers|) && log == c.peers[v].log {
      assert Sane(c.h, c.peers[v].log) && PeerOk(c.peers[v], |c.peers|, v);
    } else {
      var k :| k in c.net && k.AppendCall? && log == k.full;
      assert ReplOk(c.h, k) && ReignOk(c.h, c.peers, k.aa.term);
      PrefixSane(c.h, log, c.h.reigns[k.aa.term].log);
    }
  }

  /** Log matching (H1-H3): if two logs, of servers or in flight, of the same or of different
      moments of the run, hold entries of the same term at an index, they agree up to it. */
  lemma LogMatchingHolds(tr: seq<Cluster>, es: seq<Event>, i: nat, j: nat,
                         a: seq<Entry>, b: seq<Entry>, k: nat)
    requires Run(tr, es) && ProperRun(tr, es) && i <= j < |tr|
    requires a in LogsOf(tr[i]) && b in LogsOf(tr[j])
    requires k < |a| && k < |b| && a[k].term == b[k].term
    ensures a[..k + 1] == b[..k + 1]
  {
    RunBasic(tr, es, i);
    RunBasic(tr, es, j);
    LedgerGrows(tr, es, i, j);
    LogsOfAreSane(tr[i], a);
    LogsOfAreSane(tr[j], b);
    SaneGrow(tr[i].h, tr[j].h, a);
    AgreeAt(tr[j].h, a, b, k);
  }

  /** The contents of a call in flight are a slice of its log, up to the end (H3). */
  lemma CallsAreSuffixes(tr: seq<Cluster>, es: seq<Event>, i: nat, k: Call)
    requires Run(tr, es) && UntouchedRun(tr, es) && i < |tr| && k in tr[i].net && k.AppendCall?
    ensures k.aa.prevIdx < |k.full| && k.aa.prevTerm == k.full[k.aa.prevIdx].term
    ensures k.aa.entries == k.full[k.aa.prevIdx + 1..]
    ensures k.aa.prevIdx + |k.aa.entries| == |k.full| - 1
  {
    AlwaysDurable(tr, es, i);
    assert CallOk(k, |tr[i].peers|);
  }

  // ----- leader append-only, whole-suffix replication -----

  /** Leader append-only (H1-H3): between two moments at which a server leads the same term its
      log only grows, also if it was demoted and won again in between. */
  lemma LeaderAppendOnly(tr: seq<Cluster>, es: seq<Event>, i: nat, j: nat, v: nat)
    requires Run(tr, es) && ProperRun(tr, es) && i <= j < |tr|
    requires v < |tr[i].peers| == |tr[j].peers|
    requires tr[i].peers[v].role == Leader && tr[j].peers[v].role == Leader
    requires tr[i].peers[v].term == tr[j].peers[v].term
    ensures tr[i].peers[v].log <= tr[j].peers[v].log
  {
    RunBasic(tr, es, i);
    RunBasic(tr, es, j);
    LedgerGrows(tr, es, i, j);
    var t := tr[i].peers[v].term;
    assert InOffice(tr[i].h, v, tr[i].peers[v]) && InOffice(tr[j].h, v, tr[j].peers[v]);
    assert ReignOk(tr[i].h, tr[i].peers, t) && ReignOk(tr[j].h, tr[j].peers, t);
  }

  /** A call in flight was built by some broadcast of the run: by the leader of its term, from the
      leader's whole log of that moment, from the next index of its destination on, with the leader's
      commit index and the broadcast's number. */
  lemma {:induction false} Birth(tr: seq<Cluster>, es: seq<Event>, i: nat, k: Call) returns (b: nat)
    requires Run(tr, es) && ProperRun(tr, es) && i < |tr| && k in tr[i].net && k.AppendCall?
    ensures b < i && es[b] == Broadcast(k.aa.leader) && k.aa.leader < |tr[b].peers|
    ensures tr[b].peers[k.aa.leader].role == Leader
    ensures tr[b].peers[k.aa.leader].term == k.aa.term
    ensures tr[b].peers[k.aa.leader].log == k.full && tr[b].clock == k.id
    ensures tr[b].peers[k.aa.leader].commit == k.aa.commit
    ensures k.dst < |tr[b].peers[k.aa.leader].nextIdx|
    ensures tr[b].peers[k.aa.leader].nextIdx[k.dst] == k.aa.prevIdx + 1
  {
    RunBasic(tr, es, i - 1);
    if k in tr[i - 1].net {
      b := Birth(tr, es, i - 1, k);
    } else {
      assert StepAt(tr, es, i - 1) && Proper(tr[i - 1], es[i - 1]);
      BirthStep(tr[i - 1], es[i - 1], k);
      if es[i - 1].HandleAppend? {
        b := Birth(tr, es, i - 1, es[i - 1].call);
      } else {
        b := i - 1;
      }
    }
  }

  // A call that is new in the network answers an older one, or comes from a broadcast.
  lemma BirthStep(c: Cluster, e: Event, k: Call)
    requires Basic(c) && Enabled(c, e) && Untouched(c, e) && k.AppendCall?
    requires k in Next(c, e).net && k !in c.net
    ensures e.HandleAppend? || e.Broadcast?
    ensures e.HandleAppend? ==>
              e.call in c.net && e.call.id == k.id && e.call.aa == k.aa && e.call.full == k.full
    ensures e.Broadcast? ==>
              && e.v == k.aa.leader && c.peers[e.v].role == Leader
              && c.peers[e.v].term == k.aa.term && c.peers[e.v].log == k.full && c.clock == k.id
              && c.peers[e.v].commit == k.aa.commit && k.dst < |c.peers[e.v].nextIdx|
              && c.peers[e.v].nextIdx[k.dst] == k.aa.prevIdx + 1
  {
    if e.Overwrite? {
      OverwriteIsNone(c, e.call);
    }
  }

  /** Acceptance copies (H1-H3): a follower that accepts a call has, right after, exactly the log
      that the leader of the call's term had when it built the call. */
  lemma AcceptanceCopies(tr: seq<Cluster>, es: seq<Event>, i: nat, k: Call) returns (b: nat)
    requires Run(tr, es) && ProperRun(tr, es) && i < |es|
    requires es[i] == HandleAppend(k) && k.AppendCall?
    requires k.dst < |tr[i].peers| && Accepts(tr[i].peers[k.dst], k.aa)
    ensures b < i && k.aa.leader < |tr[b].peers| && k.dst < |tr[i + 1].peers|
    ensures tr[b].peers[k.aa.leader].role == Leader
    ensures tr[b].peers[k.aa.leader].term == k.aa.term
    ensures tr[i + 1].peers[k.dst].log == tr[b].peers[k.aa.leader].log
  {
    var c := tr[i];
    RunBasic(tr, es, i);
    assert StepAt(tr, es, i);
    b := Birth(tr, es, i, k);
    assert PeerOk(c.peers[k.dst], |c.peers|, k.dst);
    assert ReplOk(c.h, k) && ReignOk(c.h, c.peers, k.aa.term) && Sane(c.h, c.peers[k.dst].log);
    SpliceIsFull(c.h, c.peers, c.peers[k.dst], k);
    AcceptState(c.peers[k.dst], k);
  }

  // ----- next indices -----

  /** Next-index bounds (H1-H3): whenever a server leads, the next index of every other server lies
      between 1 and one past its last entry.  So a broadcast reads inside the log and skips no
      server; and a rejection that a leader can still act on never names index 0. */
  lemma NextIndexBounds(tr: seq<Cluster>, es: seq<Event>, i: nat, v: nat)
    requires Run(tr, es) && ProperRun(tr, es) && i < |tr| && v < |tr[i].peers|
    requires tr[i].peers[v].role == Leader
    ensures |tr[i].peers[v].nextIdx| == |tr[i].peers|
    ensures forall j :: 0 <= j < |tr[i].peers| && j != v ==>
              1 <= tr[i].peers[v].nextIdx[j] <= |tr[i].peers[v].log|
    ensures NextInRange(tr[i].peers[v])
    ensures forall j: nat :: j < |tr[i].peers| && j != v ==> Addressed(tr[i].peers[v], j)
    ensures forall k | k in tr[i].net && k.AppendCall? && k.ar.Some? && !k.ar.value.success ::
              k.ar.value.term == k.aa.term ==> 1 <= k.ar.value.nextTry <= k.aa.prevIdx
  {
    RunBasic(tr, es, i);
    assert PeerOk(tr[i].peers[v], |tr[i].peers|, v);
    assert NextsOk(tr[i].peers[v]);
    NextsReach(tr[i].peers[v], |tr[i].peers|, v);
    forall k | k in tr[i].net && k.AppendCall? && k.ar.Some? && !k.ar.value.success
      ensures k.ar.value.term == k.aa.term ==> 1 <= k.ar.value.nextTry <= k.aa.prevIdx
    {
      assert ReplyOk(tr[i].h, k);
    }
  }

  // ----- leader completeness -----

  // Event i moves the commit index of the leader v by the commit rule.
  predicate CommitsAt(tr: seq<Cluster>, es: seq<Event>, i: nat, v: nat)
    requires |tr| == |es| + 1
  {
    && i < |es| && v < |tr[i].peers| && v < |tr[i + 1].peers|
    && es[i].FinishAppend? && es[i].call.AppendCall? && es[i].call.aa.leader == v
    && tr[i + 1].peers[v].commit > tr[i].peers[v].commit
  }

  // Event i makes v a leader.
  predicate TakesOffice(tr: seq<Cluster>, es: seq<Event>, i: nat, v: nat)
    requires |tr| == |es| + 1
  {
    && i < |es| && v < |tr[i].peers| && v < |tr[i + 1].peers|
    && es[i].FinishVote? && es[i].call.VoteCall? && es[i].call.va.cand == v
    && tr[i].peers[v].role != Leader && tr[i + 1].peers[v].role == Leader
  }

  lemma CommitWitness(tr: seq<Cluster>, es: seq<Event>, i: nat, v: nat) returns (t: nat, N: nat)
    requires Run(tr, es) && OrderlyRun(tr, es) && i < |tr| && v < |tr[i].peers|
    requires tr[i].peers[v].commit > 0
    ensures Backs(tr[i], tr[i].peers[v].log, tr[i].peers[v].commit, tr[i].peers[v].term, t, N)
  {
    var c := tr[i];
    RunSound(tr, es, i);
    assert CommitOk(c, v, c.peers[v]);
    t, N :| Backs(c, c.peers[v].log, c.peers[v].commit, c.peers[v].term, t, N)
            && (t == c.peers[v].term ==> HasAck(c.h, v, t, c.peers[v].commit));
  }

  // What anybody regards as committed in some term up to b is in the log of every leader of a
  // term past b.
  lemma BackedIsInLaterReigns(c: Cluster, log: seq<Entry>, k: nat, b: nat, t: nat, N: nat, u: nat)
    requires Complete(c) && Backs(c, log, k, b, t, N) && u in c.h.reigns && b < u
    ensures k < c.h.reigns[u].start <= |c.h.reigns[u].log|
    ensures c.h.reigns[u].log[..k + 1] == log[..k + 1]
  {
    CommittedIsChoosable(c, t, N);
    assert CompleteAt(c, t, u, N);
    var r := c.h.reigns[u];
    assert r.log[..k + 1] == r.log[..r.start][..N + 1][..k + 1];
    assert c.h.reigns[t].log[..N + 1][..k + 1] == c.h.reigns[t].log[..k + 1];
  }

  /** Leader completeness (H1-H5): an entry that the commit rule commits in some term is in the log
      of every server at the moment it takes office in a later term, with everything before it. */
  lemma LeaderCompleteness(tr: seq<Cluster>, es: seq<Event>, i: nat, j: nat, v: nat, w: nat)
    requires Run(tr, es) && OrderlyRun(tr, es)
    requires CommitsAt(tr, es, i, v) && TakesOffice(tr, es, j, w)
    requires tr[j + 1].peers[w].term > tr[i + 1].peers[v].term
    ensures var N := tr[i + 1].peers[v].commit;
            && N < |tr[i + 1].peers[v].log| && N < |tr[j + 1].peers[w].log|
            && tr[j + 1].peers[w].log[..N + 1] == tr[i + 1].peers[v].log[..N + 1]
  {
    RunSound(tr, es, j + 1);
    assert InOffice(tr[j + 1].h, w, tr[j + 1].peers[w]);
    assert ReignOk(tr[j + 1].h, tr[j + 1].peers, tr[j + 1].peers[w].term);
    CommittedInReign(tr, es, i + 1, v, j + 1, tr[j + 1].peers[w].term);
  }

  // What a server regards as committed at one moment is in the log of every reign of a later
  // term, whenever that reign is looked at.
  lemma CommittedInReign(tr: seq<Cluster>, es: seq<Event>, i: nat, v: nat, j: nat, u: nat)
    requires Run(tr, es) && OrderlyRun(tr, es) && i < |tr| && j < |tr|
    requires v < |tr[i].peers| && tr[i].peers[v].commit > 0
    requires u in tr[j].h.reigns && tr[i].peers[v].term < u
    ensures var (p, r) := (tr[i].peers[v], tr[j].h.reigns[u]);
            && p.commit < |p.log| && p.commit < |r.log|
            && r.log[..p.commit + 1] == p.log[..p.commit + 1]
  {
    OrderlyIsProper(tr, es);
    var p := tr[i].peers[v];
    var last := Max(i, j);
    var t, N := CommitWitness(tr, es, i, v);
    RunSound(tr, es, last);
    RunBasic(tr, es, j);
    LedgerGrows(tr, es, j, last);
    BackedLater(tr, es, i, last, p.log, p.commit, p.term, t, N);
    BackedIsInLaterReigns(tr[last], p.log, p.commit, p.term, t, N, u);
    assert ReignOk(tr[j].h, tr[j].peers, u);
    SlicesExtend(tr[j].h, tr[last].h, u, p.commit + 1);
  }

  // Being committed persists.
  lemma BackedLater(tr: seq<Cluster>, es: seq<Event>, i: nat, j: nat,
                    log: seq<Entry>, k: nat, b: nat, t: nat, N: nat)
    requires Run(tr, es) && ProperRun(tr, es) && i <= j < |tr| && Backs(tr[i], log, k, b, t, N)
    ensures Backs(tr[j], log, k, b, t, N)
  {
    LedgerGrows(tr, es, i, j);
    SlicesExtend(tr[i].h, tr[j].h, t, k + 1);
    assert Backers(tr[i], t, N) <= Backers(tr[j], t, N);
    SubsetSize(Backers(tr[i], t, N), Backers(tr[j], t, N));
  }

  // ----- commit indices and the apply stream -----

  /** Until its server restarts, a commit index never decreases; it stays inside the log (H1-H5), so
      that the lookup of a delivery is always in range. */
  lemma CommitIndexGrows(tr: seq<Cluster>, es: seq<Event>, i: nat, v: nat)
    requires Run(tr, es) && OrderlyRun(tr, es) && i < |es| && v < |tr[i].peers|
    requires es[i] != Restart(v)
    ensures |tr[i + 1].peers| == |tr[i].peers|
    ensures tr[i].peers[v].commit <= tr[i + 1].peers[v].commit < |tr[i + 1].peers[v].log|
  {
    var c, e := tr[i], es[i];
    RunSound(tr, es, i);
    RunSound(tr, es, i + 1);
    assert OrderlyAt(tr, es, i);
    assert DeliveredOk(tr[i + 1].peers[v], tr[i + 1].sent[v]);
    assert DeliveredOk(c.peers[v], c.sent[v]);
    PeersStay(c, e);
    CommitGrowsStep(c, e, v);
  }

  lemma PeersStay(c: Cluster, e: Event)
    requires Durable(c) && Enabled(c, e)
    ensures |Next(c, e).peers| == |c.peers|
  {
  }

  lemma CommitGrowsStep(c: Cluster, e: Event, v: nat)
    requires Sound(c) && Enabled(c, e) && Orderly(c, e) && v < |c.peers|
    requires |Next(c, e).peers| == |c.peers| && e != Restart(v)
    ensures c.peers[v].commit <= Next(c, e).peers[v].commit
  {
    if e.HandleAppend? {
      CommitGrowsOnAppend(c, e.call);
    } else if e.FinishAppend? {
      AppendReplyEffect(c.peers[e.call.aa.leader], e.call.dst, e.call.aa, e.call.ar.value);
    } else {
      CommitStays(c, e, v);
    }
  }

  lemma CommitStays(c: Cluster, e: Event, v: nat)
    requires Enabled(c, e) && v < |c.peers| && |Next(c, e).peers| == |c.peers|
    requires !e.HandleAppend? && !e.FinishAppend? && e != Restart(v)
    ensures Next(c, e).peers[v].commit == c.peers[v].commit
  {
  }

  // The leader's commit index in a call never exceeds what the call leaves in the log.
  lemma CommitGrowsOnAppend(c: Cluster, k: Call)
    requires Sound(c) && Enabled(c, HandleAppend(k)) && Orderly(c, HandleAppend(k))
    ensures c.peers[k.dst].commit <= OnAppend(c.peers[k.dst], k.aa).0.commit
  {
    var p := c.peers[k.dst];
    if Accepts(p, k.aa) {
      assert PeerOk(p, |c.peers|, k.dst);
      assert ReplOk(c.h, k) && ReignOk(c.h, c.peers, k.aa.term) && Sane(c.h, c.peers[k.dst].log);
      SpliceIsFull(c.h, c.peers, p, k);
      AcceptState(p, k);
      assert CallCommitOk(c, k);
    }
  }

  /** Apply stream (H1-H5): at every moment each server has delivered, since it started, exactly the
      indices 1, 2, 3, ... up to some point, in order, without a gap or a repeat, each with the command in
      its log; and every pending delivery can run. */
  lemma ApplyStream(tr: seq<Cluster>, es: seq<Event>, i: nat, v: nat)
    requires Run(tr, es) && OrderlyRun(tr, es) && i < |tr| && v < |tr[i].peers|
    ensures |tr[i].sent| == |tr[i].peers|
    ensures |tr[i].sent[v]| <= tr[i].peers[v].commit < |tr[i].peers[v].log|
    ensures forall m :: 0 <= m < |tr[i].sent[v]| ==>
              tr[i].sent[v][m] == ApplyMsg(m + 1, tr[i].peers[v].log[m + 1].command)
    ensures tr[i].peers[v].pending > 0 ==> Enabled(tr[i], Deliver(v))
  {
    RunSound(tr, es, i);
    var p := tr[i].peers[v];
    assert DeliveredOk(tr[i].peers[v], tr[i].sent[v]);
    DeliveriesAt(p.log, 0, p.applied);
  }

  /** Until its server restarts, what is delivered stays delivered. */
  lemma {:induction false} DeliveriesGrow(tr: seq<Cluster>, es: seq<Event>, i: nat, j: nat, v: nat)
    requires Run(tr, es) && ProperRun(tr, es) && i <= j < |tr| && v < |tr[i].peers|
    requires Restart(v) !in es[i..j]
    ensures |tr[i].sent| == |tr[i].peers| && |tr[j].sent| == |tr[j].peers| == |tr[i].peers|
    ensures tr[i].sent[v] <= tr[j].sent[v]
  {
    RunBasic(tr, es, i);
    if i < j {
      assert es[i..j] == es[i..j - 1] + [es[j - 1]];
      DeliveriesGrow(tr, es, i, j - 1, v);
      assert StepAt(tr, es, j - 1);
      RunBasic(tr, es, j);
    }
  }

  // ----- state machine safety -----

  // Two committed prefixes agree as far as both go.
  lemma BackedAgree(c: Cluster, a: seq<Entry>, k: nat, b: nat, t: nat, N: nat,
                    a': seq<Entry>, k': nat, b': nat, t': nat, N': nat, m: nat)
    requires Complete(c) && Backs(c, a, k, b, t, N) && Backs(c, a', k', b', t', N')
    requires m <= k && m <= k' && t <= t'
    ensures a[m] == a'[m]
  {
    assert a[m] == a[..k + 1][m] == c.h.reigns[t].log[m];
    assert a'[m] == a'[..k' + 1][m] == c.h.reigns[t'].log[m];
    if t < t' {
      CommittedIsChoosable(c, t, N);
      assert CompleteAt(c, t, t', N);
      var r := c.h.reigns[t'];
      assert r.log[..r.start][..N + 1][m] == r.log[m];
      assert c.h.reigns[t].log[..N + 1][m] == c.h.reigns[t].log[m];
    }
  }

  // What two servers regard as committed, at any two moments, agrees.
  lemma CommittedAgree(tr: seq<Cluster>, es: seq<Event>, i: nat, j: nat, v: nat, w: nat, m: nat)
    requires Run(tr, es) && OrderlyRun(tr, es) && i < |tr| && j < |tr|
    requires v < |tr[i].peers| && w < |tr[j].peers|
    requires 1 <= m <= tr[i].peers[v].commit && m <= tr[j].peers[w].commit
    ensures m < |tr[i].peers[v].log| && m < |tr[j].peers[w].log|
    ensures tr[i].peers[v].log[m] == tr[j].peers[w].log[m]
  {
    OrderlyIsProper(tr, es);
    var last := Max(i, j);
    RunSound(tr, es, last);
    var p, q := tr[i].peers[v], tr[j].peers[w];
    var t, N := CommitWitness(tr, es, i, v);
    var t', N' := CommitWitness(tr, es, j, w);
    BackedLater(tr, es, i, last, p.log, p.commit, p.term, t, N);
    BackedLater(tr, es, j, last, q.log, q.commit, q.term, t', N');
    if t <= t' {
      BackedAgree(tr[last], p.log, p.commit, p.term, t, N, q.log, q.commit, q.term, t', N', m);
    } else {
      BackedAgree(tr[last], q.log, q.commit, q.term, t', N', p.log, p.commit, p.term, t, N, m);
    }
  }

  /** State machine safety (H1-H5): if two servers ever send the service a message for the same
      index, at any two moments of the run, before or after restarts, the commands are equal. */
  lemma StateMachineSafety(tr: seq<Cluster>, es: seq<Event>, i: nat, j: nat, v: nat, w: nat,
                           a: ApplyMsg, b: ApplyMsg)
    requires Run(tr, es) && OrderlyRun(tr, es) && i < |tr| && j < |tr|
    requires v < |tr[i].sent| && a in tr[i].sent[v]
    requires w < |tr[j].sent| && b in tr[j].sent[w]
    requires a.index == b.index
    ensures a.command == b.command
  {
    OrderlyIsProper(tr, es);
    RunBasic(tr, es, i);
    RunBasic(tr, es, j);
    ApplyStream(tr, es, i, v);
    ApplyStream(tr, es, j, w);
    var x :| 0 <= x < |tr[i].sent[v]| && tr[i].sent[v][x] == a;
    var y :| 0 <= y < |tr[j].sent[w]| && tr[j].sent[w][y] == b;
    CommittedAgree(tr, es, i, j, v, w, x + 1);
  }
}
