/** Delivery is owed and made: whatever a server regards as committed is on its way to the service, and
    has reached it when nothing is pending. */
module Delivery {
  import opened RaftCore
  import opened Cluster
  import opened DurableLog
  import opened Commitment
  import opened Soundness
  import opened Theorems

  // A server that has committed more than it has delivered has started a delivery that is yet to run.
  ghost predicate Owed(c: Cluster) {
    forall v: nat {:trigger c.peers[v].pending} ::
      v < |c.peers| && c.peers[v].commit > c.peers[v].applied ==> c.peers[v].pending > 0
  }

  /** Which events start a delivery, and how many: one, when an accepted call carries a commit index
      past the server's, and when the commit rule moves it.  A delivery that runs is one less. */
  lemma DeliveriesStart(c: Cluster, e: Event, v: nat)
    requires Enabled(c, e) && v < |c.peers| && e != Restart(v)
    ensures |Next(c, e).peers| == |c.peers|
    ensures var (p, q) := (c.peers[v], Next(c, e).peers[v]);
            && (e.HandleAppend? && e.call.AppendCall? && e.call.dst == v ==>
                  q.pending == p.pending + if Accepts(p, e.call.aa) && e.call.aa.commit > p.commit then 1 else 0)
            && (!e.HandleAppend? && e != Deliver(v) ==>
                  q.pending == p.pending + if q.commit != p.commit then 1 else 0)
            && (e == Deliver(v) ==>
                  q.pending == p.pending - 1 && q.commit == q.applied == p.commit)
            && (e != Deliver(v) ==> q.applied == p.applied)
  {
    match e
    case HandleAppend(k) => AppendStarts(c.peers[k.dst], k.aa);
    case FinishAppend(k) => ReplyStarts(c.peers[k.aa.leader], k.dst, k.aa, k.ar.value);
    case _ =>
  }

  lemma AppendStarts(p: Peer, a: AppendArgs)
    requires Indexed(p.log)
    ensures var q := OnAppend(p, a).0;
            && q.pending == p.pending + (if Accepts(p, a) && a.commit > p.commit then 1 else 0)
            && q.applied == p.applied
  {
  }

  lemma ReplyStarts(p: Peer, j: nat, a: AppendArgs, r: AppendReply)
    requires |p.log| > 0 && j < |p.nextIdx| && j < |p.matchIdx|
    ensures var q := OnAppendReply(p, j, a, r);
            && q.pending == p.pending + (if q.commit != p.commit then 1 else 0)
            && q.applied == p.applied
  {
  }

  lemma OwedStep(c: Cluster, e: Event)
    requires Owed(c) && Enabled(c, e)
    ensures Owed(Next(c, e))
  {
    var c' := Next(c, e);
    forall v: nat | v < |c'.peers| && c'.peers[v].commit > c'.peers[v].applied
      ensures c'.peers[v].pending > 0
    {
      if e != Restart(v) {
        assert v < |c.peers|;
        DeliveriesStart(c, e, v);
        if e.HandleAppend? {
          CommitMoves(c, e, v);
        }
      }
    }
  }

  // A call moves the commit index only when it carries a later one.
  lemma CommitMoves(c: Cluster, e: Event, v: nat)
    requires Enabled(c, e) && v < |c.peers| && |Next(c, e).peers| == |c.peers| && e.HandleAppend?
    ensures var (p, q) := (c.peers[v], Next(c, e).peers[v]);
            q.commit != p.commit ==>
              e.call.dst == v && Accepts(p, e.call.aa) && e.call.aa.commit > p.commit
  {
  }

  /** In every run, without any hypothesis, what is committed and not delivered has a delivery pending. */
  lemma {:induction false} AlwaysOwed(tr: seq<Cluster>, es: seq<Event>, i: nat)
    requires Run(tr, es) && i < |tr|
    ensures Owed(tr[i])
  {
    if i > 0 {
      AlwaysOwed(tr, es, i - 1);
      assert StepAt(tr, es, i - 1);
      OwedStep(tr[i - 1], es[i - 1]);
    }
  }

  /** All that is committed arrives (H1-H5): when a server has no delivery pending, it has delivered,
      since it started, exactly the entries of its log up to its commit index; and when it has one,
      the next that runs leaves it so. */
  lemma QuietServersHaveDelivered(tr: seq<Cluster>, es: seq<Event>, i: nat, v: nat)
    requires Run(tr, es) && OrderlyRun(tr, es) && i < |tr| && v < |tr[i].peers|
    ensures |tr[i].sent| == |tr[i].peers| && tr[i].peers[v].commit < |tr[i].peers[v].log|
    ensures tr[i].peers[v].pending == 0 ==>
              tr[i].sent[v] == Messages(tr[i].peers[v].log, tr[i].peers[v].commit)
    ensures tr[i].peers[v].pending > 0 ==> Enabled(tr[i], Deliver(v))
    ensures tr[i].peers[v].pending > 0 ==>
              Next(tr[i], Deliver(v)).sent ==
                tr[i].sent[v := Messages(tr[i].peers[v].log, tr[i].peers[v].commit)]
  {
    RunSound(tr, es, i);
    AlwaysOwed(tr, es, i);
    var p := tr[i].peers[v];
    assert DeliveredOk(tr[i].peers[v], tr[i].sent[v]);
    DeliveriesJoin(p.log, p.applied, p.commit);
    DeliveriesAt(p.log, 0, p.commit);
    assert Deliveries(p.log, 0, p.commit) == Messages(p.log, p.commit);
  }

  // The messages for entries 1 to n.
  function Messages(log: seq<Entry>, n: nat): seq<ApplyMsg>
    requires n < |log|
  {
    seq(n, i requires 0 <= i < n => ApplyMsg(i + 1, log[i + 1].command))
  }
}
