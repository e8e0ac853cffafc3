/** The bound on conflict back-up: how many rounds a stable leader needs to bring one follower's
    log in line with its own. */
module BackUp {
  import opened Wrappers
  import opened RaftCore
  import opened Cluster
  import opened DurableLog
  import opened Elections
  import opened LogMatching
  import opened Replication
  import opened Invariant
  import opened Theorems

  // Logs agree up to any entry at which their terms agree.
  ghost predicate Matching(a: seq<Entry>, b: seq<Entry>) {
    forall k: nat {:trigger a[k], b[k]} ::
      k < |a| && k < |b| && a[k].term == b[k].term ==> a[..k + 1] == b[..k + 1]
  }

  // A leader and a follower that has not moved past the leader's term.
  ghost predicate Pair(l: Peer, f: Peer) {
    && l.role == Leader && f.term <= l.term
    && LogOk(l.log) && LogOk(f.log) && Matching(l.log, f.log)
    && TermsUpTo(l.log, l.term)
    && |l.nextIdx| == |l.matchIdx| && f.me < |l.nextIdx| && f.me != l.me
    && (forall j :: 0 <= j < |l.nextIdx| && j != l.me ==> 1 <= l.nextIdx[j] <= |l.log|)
  }

  // A leader v and another server w that has not moved past its term.
  ghost predicate Facing(c: Cluster, v: nat, w: nat) {
    && v < |c.peers| && w < |c.peers| && v != w
    && c.peers[v].role == Leader && c.peers[w].term <= c.peers[v].term
  }

  // Nothing that an exchange between v and w reads is different in c'; in particular no command has
  // been submitted.  Other servers and other calls may have done anything.
  ghost predicate Undisturbed(c: Cluster, c': Cluster, v: nat, w: nat) {
    && Facing(c, v, w) && Facing(c', v, w)
    && c'.peers[v].term == c.peers[v].term && c'.peers[v].log == c.peers[v].log
    && w < |c.peers[v].nextIdx| && w < |c'.peers[v].nextIdx|
    && c'.peers[v].nextIdx[w] == c.peers[v].nextIdx[w]
    && c'.peers[w].log == c.peers[w].log
  }

  // A round, from the states in which its three events happen: a broadcast of v in b, the handling
  // of its call k by w in h, and the handling of the reply k' by v in f.
  ghost predicate RoundOf(b: Cluster, h: Cluster, k: Call, f: Cluster, k': Call, v: nat, w: nat) {
    && Undisturbed(b, h, v, w) && NextInRange(b.peers[v])
    && k in Heartbeats(b, v) && k.dst == w && Enabled(h, HandleAppend(k))
    && Undisturbed(Next(h, HandleAppend(k)), f, v, w)
    && k' == k.(ar := Some(OnAppend(h.peers[w], k.aa).1)) && Enabled(f, FinishAppend(k'))
  }

  // When the three events of a round happen.
  datatype Times = Times(built: nat, handled: nat, finished: nat)

  predicate Fits(m: Times, tr: seq<Cluster>) {
    m.built < m.handled < m.finished && m.finished + 1 < |tr|
  }

  ghost predicate RoundAt(tr: seq<Cluster>, es: seq<Event>, v: nat, w: nat, m: Times)
    requires Run(tr, es)
  {
    && Fits(m, tr)
    && es[m.built] == Broadcast(v) && es[m.handled].HandleAppend? && es[m.finished].FinishAppend?
    && RoundOf(tr[m.built], tr[m.handled], es[m.handled].call, tr[m.finished], es[m.finished].call, v, w)
  }

  // Rounds of a run one after the other, undisturbed in between.
  ghost predicate Exchange(tr: seq<Cluster>, es: seq<Event>, v: nat, w: nat, rounds: seq<Times>)
    requires Run(tr, es)
  {
    && (forall i {:trigger RoundAt(tr, es, v, w, rounds[i])} ::
          0 <= i < |rounds| ==> RoundAt(tr, es, v, w, rounds[i]))
    && (forall i: nat {:trigger Follows(tr, es, v, w, rounds, i)} ::
          i + 1 < |rounds| ==> Follows(tr, es, v, w, rounds, i))
  }

  ghost predicate Follows(tr: seq<Cluster>, es: seq<Event>, v: nat, w: nat, rounds: seq<Times>, i: nat)
    requires Run(tr, es) && i + 1 < |rounds|
  {
    && rounds[i].finished < rounds[i + 1].built < |es|
    && Undisturbed(tr[rounds[i].finished + 1], tr[rounds[i + 1].built], v, w)
  }

  // The follower's log and the next index after a round, from the logs and the next index alone:
  // the round finishes the job, or backs up over the run of terms in conflict.
  function Shift(leader: seq<Entry>, follower: seq<Entry>, next: nat): (r: (seq<Entry>, nat))
    requires 1 <= next <= |leader|
  {
    if next > |follower| then (follower, |follower|)
    else if follower[next - 1].term == leader[next - 1].term then (leader, |leader|)
    else (follower, RunStart(follower, next - 1))
  }

  // Every leader forms such a pair with every other server that has not moved past its term.
  lemma LeadersPair(c: Cluster, v: nat, w: nat)
    requires Basic(c) && v < |c.peers| && w < |c.peers| && v != w
    requires c.peers[v].role == Leader && c.peers[w].term <= c.peers[v].term
    ensures Pair(c.peers[v], c.peers[w])
  {
    assert PeerOk(c.peers[v], |c.peers|, v) && PeerOk(c.peers[w], |c.peers|, w);
    assert Sane(c.h, c.peers[v].log) && Sane(c.h, c.peers[w].log);
    assert NextsOk(c.peers[v]);
    var a, b := c.peers[v].log, c.peers[w].log;
    forall k: nat | k < |a| && k < |b| && a[k].term == b[k].term
      ensures a[..k + 1] == b[..k + 1]
    {
      AgreeAt(c.h, a, b, k);
    }
  }

  lemma FollowerHalf(l: Peer, f: Peer)
    requires Pair(l, f)
    ensures NextInRange(l) && Addressed(l, f.me)
    ensures var a := BuildAppend(l, f.me);
            var (f', r) := OnAppend(f, a);
            var (log', next') := Shift(l.log, f.log, l.nextIdx[f.me]);
            && f'.me == f.me && f'.term == l.term && f'.log == log' && r.term == l.term
            && LogOk(log') && Matching(l.log, log')
            && (r.success ==> next' == |l.log|)
            && (!r.success ==> r.nextTry == next' < l.nextIdx[f.me] && next' >= 1)
  {
    var a := BuildAppend(l, f.me);
    AppendEffect(f, a);
    RejectionBacksUp(f, AppendCall(0, f.me, a, l.log, None));
    if Accepts(f, a) {
      assert f.log[..a.prevIdx + 1] == l.log[..a.prevIdx + 1];
      assert Splice(f.log, a) == l.log;
    }
  }

  lemma LeaderHalf(l: Peer, j: nat, a: AppendArgs, r: AppendReply)
    requires l.role == Leader && LogOk(l.log) && j < |l.nextIdx| == |l.matchIdx|
    requires a.term == l.term == r.term && a.prevIdx < |l.log|
    requires a.entries == l.log[a.prevIdx + 1..] && l.nextIdx[j] == a.prevIdx + 1
    ensures var l' := OnAppendReply(l, j, a, r);
            && l'.role == l.role && l'.term == l.term && l'.log == l.log
            && |l'.nextIdx| == |l.nextIdx|
            && l'.nextIdx[j] == if r.success then |l.log| else r.nextTry
  {
  }

  // The call that arrives at the follower, as the follower then is.
  lemma CallArrives(b: Cluster, h: Cluster, k: Call, v: nat, w: nat)
    requires Basic(b) && Basic(h) && Undisturbed(b, h, v, w) && NextInRange(b.peers[v])
    requires k in Heartbeats(b, v) && k.dst == w
    ensures var l := b.peers[v];
            && Pair(l, b.peers[w]) && Pair(l, h.peers[w]) && h.peers[w].me == w
            && Addressed(l, w) && k.aa == BuildAppend(l, w) && k.aa.leader == v
  {
    LeadersPair(b, v, w);
    LeadersPair(h, v, w);
    assert PeerOk(b.peers[v], |b.peers|, v) && PeerOk(h.peers[w], |h.peers|, w);
  }

  lemma HandlingShifts(c: Cluster, k: Call, v: nat, w: nat, l: Peer)
    requires Enabled(c, HandleAppend(k)) && k.dst == w && v < |c.peers| && v != w
    requires Pair(l, c.peers[w]) && c.peers[w].me == w && Addressed(l, w) && NextInRange(l)
    requires k.aa == BuildAppend(l, w)
    ensures var (c', r) := (Next(c, HandleAppend(k)), OnAppend(c.peers[w], k.aa).1);
            var (log', next') := Shift(l.log, c.peers[w].log, l.nextIdx[w]);
            && |c'.peers| == |c.peers| && c'.peers[v] == c.peers[v] && c'.peers[w].log == log'
            && r.term == l.term && next' == if r.success then |l.log| else r.nextTry
  {
    FollowerHalf(l, c.peers[w]);
  }

  lemma FinishingShifts(c: Cluster, k: Call, v: nat, w: nat)
    requires Enabled(c, FinishAppend(k)) && k.aa.leader == v && k.dst == w && Facing(c, v, w)
    requires LogOk(c.peers[v].log) && w < |c.peers[v].nextIdx| == |c.peers[v].matchIdx|
    requires k.aa.term == c.peers[v].term == k.ar.value.term && k.aa.prevIdx < |c.peers[v].log|
    requires k.aa.entries == c.peers[v].log[k.aa.prevIdx + 1..]
    requires c.peers[v].nextIdx[w] == k.aa.prevIdx + 1
    ensures var (c', r) := (Next(c, FinishAppend(k)), k.ar.value);
            && Facing(c', v, w) && c'.peers[w] == c.peers[w]
            && c'.peers[v].log == c.peers[v].log && w < |c'.peers[v].nextIdx|
            && c'.peers[v].nextIdx[w] == if r.success then |c.peers[v].log| else r.nextTry
  {
    LeaderHalf(c.peers[v], w, k.aa, k.ar.value);
  }

  // The follower's log and the leader's next index have moved as `Shift` says, and nothing else
  // that matters has.
  ghost predicate Shifted(c: Cluster, c': Cluster, v: nat, w: nat) {
    && Facing(c, v, w) && Facing(c', v, w) && c'.peers[v].log == c.peers[v].log
    && LogOk(c.peers[v].log) && LogOk(c.peers[w].log)
    && w < |c.peers[v].nextIdx| && w < |c'.peers[v].nextIdx|
    && 1 <= c.peers[v].nextIdx[w] <= |c.peers[v].log|
    && (c'.peers[w].log, c'.peers[v].nextIdx[w])
       == Shift(c.peers[v].log, c.peers[w].log, c.peers[v].nextIdx[w])
  }

  lemma StatesShift(b: Cluster, h: Cluster, f: Cluster, k: Call, v: nat, w: nat)
    requires Undisturbed(b, h, v, w) && Enabled(h, HandleAppend(k)) && k.dst == w && k.aa.leader == v
    requires Pair(b.peers[v], b.peers[w]) && Pair(b.peers[v], h.peers[w]) && h.peers[w].me == w
    requires NextInRange(b.peers[v]) && Addressed(b.peers[v], w)
    requires k.aa == BuildAppend(b.peers[v], w)
    requires Undisturbed(Next(h, HandleAppend(k)), f, v, w)
    requires LogOk(f.peers[v].log) && |f.peers[v].nextIdx| == |f.peers[v].matchIdx|
    requires var k' := k.(ar := Some(OnAppend(h.peers[w], k.aa).1)); Enabled(f, FinishAppend(k'))
    ensures Shifted(b, Next(f, FinishAppend(k.(ar := Some(OnAppend(h.peers[w], k.aa).1)))), v, w)
  {
    HandlingShifts(h, k, v, w, b.peers[v]);
    FinishingShifts(f, k.(ar := Some(OnAppend(h.peers[w], k.aa).1)), v, w);
  }

  lemma RoundShifts(b: Cluster, h: Cluster, k: Call, f: Cluster, k': Call, v: nat, w: nat)
    requires Basic(b) && Basic(h) && Basic(f) && RoundOf(b, h, k, f, k', v, w)
    ensures Shifted(b, Next(f, FinishAppend(k')), v, w)
  {
    CallArrives(b, h, k, v, w);
    assert PeerOk(f.peers[v], |f.peers|, v);
    StatesShift(b, h, f, k, v, w);
  }

  // The distinct terms among entries 1 to k-1; none of them is the sentinel's 0.
  function TermsBelow(log: seq<Entry>, k: nat): set<nat>
    requires k <= |log|
  {
    set i | 1 <= i < k :: log[i].term
  }

  // A conflict at position `prev` skips at least one term.
  lemma ConflictSkipsTerm(log: seq<Entry>, prev: nat)
    requires LogOk(log) && 1 <= prev < |log|
    ensures 1 <= RunStart(log, prev) <= prev
    ensures |TermsBelow(log, RunStart(log, prev))| < |TermsBelow(log, prev + 1)|
  {
    var s := RunStart(log, prev);
    assert s >= 1 by {
      assert log[0].term != log[prev].term;
    }
    var t := log[prev].term;
    assert t in TermsBelow(log, prev + 1);
    forall i | 1 <= i < s ensures log[i].term != t {
      assert log[i].term <= log[s - 1].term <= log[s].term == t;
    }
    assert TermsBelow(log, s) <= TermsBelow(log, prev + 1) - {t};
    SubsetSize(TermsBelow(log, s), TermsBelow(log, prev + 1) - {t});
  }

  // After k rounds from a follower's log `first`: done, or this many terms are left to skip.
  ghost predicate Backed(leader: seq<Entry>, first: seq<Entry>, k: nat, log: seq<Entry>, next: int) {
    || (log == leader && next == |leader|)
    || (log == first && k == 0)
    || (log == first && 1 <= next <= |first| && |TermsBelow(first, next)| + k <= D(first) + 1)
  }

  // The number of distinct terms in a log, the sentinel's left out.
  function D(log: seq<Entry>): nat {
    |TermsBelow(log, |log|)|
  }

  lemma ShiftBacks(leader: seq<Entry>, first: seq<Entry>, k: nat, log: seq<Entry>, next: nat)
    requires LogOk(leader) && LogOk(first) && 1 <= next <= |leader|
    requires Backed(leader, first, k, log, next)
    ensures var (log', next') := Shift(leader, log, next);
            Backed(leader, first, k + 1, log', next')
  {
    if log == leader && next == |leader| {
    } else if next <= |first| {
      assert TermsBelow(first, next) <= TermsBelow(first, |first|);
      SubsetSize(TermsBelow(first, next), TermsBelow(first, |first|));
      if first[next - 1].term != leader[next - 1].term {
        ConflictSkipsTerm(first, next - 1);
      }
    }
  }

  // Before round k of an exchange that began in state c0.
  ghost predicate BackedAt(c0: Cluster, c: Cluster, v: nat, w: nat, k: nat) {
    && Facing(c0, v, w) && Facing(c, v, w) && c.peers[v].log == c0.peers[v].log
    && LogOk(c0.peers[w].log) && w < |c.peers[v].nextIdx|
    && Backed(c0.peers[v].log, c0.peers[w].log, k, c.peers[w].log, c.peers[v].nextIdx[w])
  }

  lemma {:induction false} RoundsBack(tr: seq<Cluster>, es: seq<Event>, v: nat, w: nat,
                                      rounds: seq<Times>, k: nat)
    requires Run(tr, es) && ProperRun(tr, es) && Exchange(tr, es, v, w, rounds) && k < |rounds|
    ensures Fits(rounds[0], tr) && Fits(rounds[k], tr)
    ensures Shifted(tr[rounds[k].built], tr[rounds[k].finished + 1], v, w)
    ensures BackedAt(tr[rounds[0].built], tr[rounds[k].built], v, w, k)
    ensures BackedAt(tr[rounds[0].built], tr[rounds[k].finished + 1], v, w, k + 1)
  {
    ExchangeMoves(tr, es, v, w, rounds, k);
    if k > 0 {
      RoundsBack(tr, es, v, w, rounds, k - 1);
      BackedStays(tr[rounds[0].built], tr[rounds[k - 1].finished + 1], tr[rounds[k].built], v, w, k);
    }
    ShiftedBacks(tr[rounds[0].built], tr[rounds[k].built], tr[rounds[k].finished + 1], v, w, k);
  }

  lemma ExchangeMoves(tr: seq<Cluster>, es: seq<Event>, v: nat, w: nat, rounds: seq<Times>, k: nat)
    requires Run(tr, es) && ProperRun(tr, es) && Exchange(tr, es, v, w, rounds) && k < |rounds|
    ensures Fits(rounds[k], tr) && (k > 0 ==> Fits(rounds[k - 1], tr))
    ensures Shifted(tr[rounds[k].built], tr[rounds[k].finished + 1], v, w)
    ensures k > 0 ==> Undisturbed(tr[rounds[k - 1].finished + 1], tr[rounds[k].built], v, w)
  {
    var m := rounds[k];
    assert RoundAt(tr, es, v, w, rounds[k]);
    RunBasic(tr, es, m.built);
    RunBasic(tr, es, m.handled);
    RunBasic(tr, es, m.finished);
    RoundShifts(tr[m.built], tr[m.handled], es[m.handled].call, tr[m.finished], es[m.finished].call, v, w);
    assert StepAt(tr, es, m.finished);
    if k > 0 {
      assert RoundAt(tr, es, v, w, rounds[k - 1]) && Follows(tr, es, v, w, rounds, k - 1);
    }
  }

  lemma BackedStays(c0: Cluster, c: Cluster, c': Cluster, v: nat, w: nat, k: nat)
    requires BackedAt(c0, c, v, w, k) && Undisturbed(c, c', v, w)
    ensures BackedAt(c0, c', v, w, k)
  {
  }

  lemma ShiftedBacks(c0: Cluster, c: Cluster, c': Cluster, v: nat, w: nat, k: nat)
    requires BackedAt(c0, c, v, w, k) && Shifted(c, c', v, w)
    ensures BackedAt(c0, c', v, w, k + 1)
  {
    ShiftBacks(c.peers[v].log, c0.peers[w].log, k, c.peers[w].log, c.peers[v].nextIdx[w]);
  }

  lemma ShiftMovesBack(leader: seq<Entry>, follower: seq<Entry>, next: nat)
    requires LogOk(leader) && LogOk(follower) && 1 <= next <= |leader|
    ensures var (follower', next') := Shift(leader, follower, next);
            follower' == leader || next' < next
  {
    if next <= |follower| && follower[next - 1].term != leader[next - 1].term {
      ConflictSkipsTerm(follower, next - 1);
    }
  }

  /** Fast back-up: in every run, while a leader and a follower exchange lossless rounds and no
      command is submitted, the follower's log equals the leader's after D + 2 rounds and after every
      later one, where D is the number of distinct terms other than the sentinel's in the follower's
      log; and a round that does not make them equal moves the next index strictly back. */
  lemma FastBackUp(tr: seq<Cluster>, es: seq<Event>, v: nat, w: nat, rounds: seq<Times>, k: nat)
    requires Run(tr, es) && ProperRun(tr, es) && Exchange(tr, es, v, w, rounds) && k < |rounds|
    ensures Fits(rounds[0], tr) && Fits(rounds[k], tr)
    ensures var (c0, c, c') := (tr[rounds[0].built], tr[rounds[k].built], tr[rounds[k].finished + 1]);
            && Facing(c0, v, w) && Facing(c, v, w) && Facing(c', v, w)
            && w < |c.peers[v].nextIdx| && w < |c'.peers[v].nextIdx|
            && c'.peers[v].log == c0.peers[v].log
            && (k + 1 >= D(c0.peers[w].log) + 2 ==> c'.peers[w].log == c0.peers[v].log)
            && (c'.peers[w].log == c0.peers[v].log
                || c'.peers[v].nextIdx[w] < c.peers[v].nextIdx[w])
  {
    RoundsBack(tr, es, v, w, rounds, k);
    var c := tr[rounds[k].built];
    ShiftMovesBack(c.peers[v].log, c.peers[w].log, c.peers[v].nextIdx[w]);
  }

  // ----- commit indices -----

  // A call that leaves the follower with the leader's log was accepted.
  lemma EqualWasAccepted(l: Peer, f: Peer)
    requires Pair(l, f) && NextInRange(l) && Addressed(l, f.me)
    requires OnAppend(f, BuildAppend(l, f.me)).0.log == l.log
    ensures Accepts(f, BuildAppend(l, f.me))
    ensures OnAppend(f, BuildAppend(l, f.me)).0.commit >= Min(l.commit, |l.log| - 1)
  {
    var a := BuildAppend(l, f.me);
    AppendEffect(f, a);
    if Accepts(f, a) {
      assert f.log[..a.prevIdx + 1] == l.log[..a.prevIdx + 1];
    }
  }

  lemma RoundIsHandled(tr: seq<Cluster>, es: seq<Event>, v: nat, w: nat, m: Times)
    requires Run(tr, es) && OrderlyRun(tr, es) && RoundAt(tr, es, v, w, m)
    ensures Fits(m, tr) && Basic(tr[m.built]) && Basic(tr[m.handled]) && es[m.handled].HandleAppend?
    ensures var (b, h, k) := (tr[m.built], tr[m.handled], es[m.handled].call);
            && Undisturbed(b, h, v, w) && NextInRange(b.peers[v]) && k in Heartbeats(b, v)
            && k.dst == w && Enabled(h, HandleAppend(k))
            && tr[m.handled + 1] == Next(h, HandleAppend(k))
  {
    OrderlyIsProper(tr, es);
    RunBasic(tr, es, m.built);
    RunBasic(tr, es, m.handled);
    assert StepAt(tr, es, m.handled);
  }

  /** A round carries the commit index (H1-H5): once the follower has the leader's log by a round, its
      commit index is at least what the leader's was when it built the call. */
  lemma RoundCommits(tr: seq<Cluster>, es: seq<Event>, v: nat, w: nat, m: Times)
    requires Run(tr, es) && OrderlyRun(tr, es) && RoundAt(tr, es, v, w, m)
    ensures Fits(m, tr)
    ensures var (b, c) := (tr[m.built], tr[m.handled + 1]);
            && v < |b.peers| && w < |c.peers|
            && (c.peers[w].log == b.peers[v].log ==> c.peers[w].commit >= b.peers[v].commit)
  {
    RoundIsHandled(tr, es, v, w, m);
    ApplyStream(tr, es, m.built, v);
    HandlingCommits(tr[m.built], tr[m.handled], es[m.handled].call, v, w);
  }

  lemma HandlingCommits(b: Cluster, h: Cluster, k: Call, v: nat, w: nat)
    requires Basic(b) && Basic(h) && Undisturbed(b, h, v, w) && NextInRange(b.peers[v])
    requires k in Heartbeats(b, v) && k.dst == w && Enabled(h, HandleAppend(k))
    requires b.peers[v].commit < |b.peers[v].log|
    ensures var c := Next(h, HandleAppend(k));
            && w < |c.peers|
            && (c.peers[w].log == b.peers[v].log ==> c.peers[w].commit >= b.peers[v].commit)
  {
    CallArrives(b, h, k, v, w);
    if Next(h, HandleAppend(k)).peers[w].log == b.peers[v].log {
      EqualWasAccepted(b.peers[v], h.peers[w]);
    }
  }
}
