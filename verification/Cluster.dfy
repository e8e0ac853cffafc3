/** The cluster: peers, calls in flight, and a ledger of what has happened, which no step reads. */
module Cluster {
  import opened Wrappers
  import opened RaftCore

  /** One remote call from the moment it is made until its reply is consumed or lost.  While
      `reply` is None the request is in flight; the handler runs at most once per call, and at
      most one reply comes back. */
  datatype Call =
    | VoteCall(dst: nat, va: VoteArgs, vr: Option<VoteReply>)
    | AppendCall(id: nat, dst: nat, aa: AppendArgs, full: seq<Entry>, ar: Option<AppendReply>)

  datatype At = At(server: nat, term: nat)

  /** A server's leadership of a term: the log it won with is `log[..start]`, and `log` is the
      longest log it has had as leader of that term. */
  datatype Reign = Reign(leader: nat, start: nat, log: seq<Entry>)

  datatype Ledger = Ledger(
    votes: map<At, nat>,          // whom a server voted for in a term
    bids: map<At, seq<Entry>>,    // a candidate's log when it stood in a term
    tally: map<At, set<nat>>,     // the servers whose votes a candidate has counted
    reigns: map<nat, Reign>,
    acks: map<At, nat>)           // how far a server has taken over the log of a term's leader

  datatype Cluster = Cluster(
    peers: seq<Peer>,
    net: set<Call>,
    clock: nat,                   // broadcasts so far
    sent: seq<seq<ApplyMsg>>,     // what each server has delivered to its service
    h: Ledger)

  // An event is one lock-held section of one peer, the loss of a call, or a restart.  Candidacy puts
  // the requests in flight and Broadcast the calls, as if read and copied at once.  LateRead replaces
  // requests of which none has arrived by what the candidate is when its goroutine reads them;
  // Overwrite gives a call that has not arrived the entries that its sender has meanwhile written over
  // the array they share.
  datatype Event =
    | Timeout(v: nat)
    | Candidacy(v: nat)
    | Demote(v: nat)
    | HandleVote(call: Call)
    | FinishVote(call: Call)
    | Broadcast(v: nat)
    | HandleAppend(call: Call)
    | FinishAppend(call: Call)
    | Submit(v: nat, command: Command)
    | Deliver(v: nat)
    | Heartbeat(v: nat)
    | Lose(call: Call)
    | Restart(v: nat)
    | LateRead(v: nat, va: VoteArgs)
    | Overwrite(call: Call)

  function Servers(n: nat): (s: set<nat>)
    ensures forall v: nat :: v in s <==> v < n
    ensures |s| == n
  {
    if n == 0 then {} else Servers(n - 1) + {n - 1}
  }

  predicate Init(c: Cluster) {
    && |c.sent| == |c.peers|
    && (forall v :: 0 <= v < |c.peers| ==> c.peers[v] == Boot(|c.peers|, v, None) && c.sent[v] == [])
    && c.net == {}
    && c.h == Ledger(map[], map[], map[], map[], map[])
  }

  // What the handlers rely on.  Module DurableLog shows that it holds in every state of every run.
  predicate Shape(c: Cluster) {
    && |c.sent| == |c.peers|
    && (forall v :: 0 <= v < |c.peers| ==> PeerShape(c.peers[v], |c.peers|, v))
    && (forall k :: k in c.net ==> CallShape(k, |c.peers|))
  }

  predicate PeerShape(p: Peer, n: nat, v: nat) {
    Indexed(p.log) && p.me == v && |p.nextIdx| == n && |p.matchIdx| == n
  }

  predicate CallShape(k: Call, n: nat) {
    k.dst < n && if k.VoteCall? then k.va.cand < n else k.aa.leader < n
  }

  // The event can happen now.  Where the code would panic, it cannot.
  predicate Enabled(c: Cluster, e: Event) {
    Shape(c) &&
    match e
    case Timeout(v) => v < |c.peers|
    case Candidacy(v) => v < |c.peers| && c.peers[v].role == Candidate
    case Demote(v) => v < |c.peers|
    case HandleVote(k) => k in c.net && k.VoteCall? && k.vr.None?
    case FinishVote(k) => k in c.net && k.VoteCall? && k.vr.Some?
    case Broadcast(v) => v < |c.peers| && NextInRange(c.peers[v])
    case HandleAppend(k) => k in c.net && k.AppendCall? && k.ar.None?
    case FinishAppend(k) => k in c.net && k.AppendCall? && k.ar.Some?
    case Submit(v, _) => v < |c.peers|
    case Deliver(v) => v < |c.peers| && c.peers[v].pending > 0
                       && c.peers[v].commit < |c.peers[v].log|
    case Heartbeat(v) => v < |c.peers|
    case Lose(k) => k in c.net
    case Restart(v) => v < |c.peers|
    case LateRead(v, va) => v < |c.peers| && va.cand == v && Ballots(c, v, va) <= c.net
    case Overwrite(k) => k in c.net && k.AppendCall? && k.ar.None?
  }

  function Put(c: Cluster, v: nat, p: Peer): Cluster
    requires v < |c.peers|
  {
    c.(peers := c.peers[v := p])
  }

  function Ballots(c: Cluster, v: nat, va: VoteArgs): set<Call> {
    set j | j in Servers(|c.peers|) && j != v :: VoteCall(j, va, None)
  }

  function Heartbeats(c: Cluster, v: nat): set<Call>
    requires v < |c.peers| && NextInRange(c.peers[v])
  {
    set j | j in Servers(|c.peers|) && Addressed(c.peers[v], j) ::
      AppendCall(c.clock, j, BuildAppend(c.peers[v], j), c.peers[v].log, None)
  }

  // The entries of a call as its sender's log, which is still the same array, has them now.
  function Overlay(log: seq<Entry>, a: AppendArgs): seq<Entry> {
    seq(|a.entries|, i requires 0 <= i < |a.entries| =>
      if a.prevIdx + 1 + i < |log| then log[a.prevIdx + 1 + i] else a.entries[i])
  }

  function Overwritten(c: Cluster, k: Call): Call
    requires k.AppendCall? && k.aa.leader < |c.peers|
  {
    k.(aa := k.aa.(entries := Overlay(c.peers[k.aa.leader].log, k.aa)))
  }

  // The ledger after a candidacy of v in the term of p, its new state.
  function RecordBid(h: Ledger, v: nat, p: Peer): Ledger {
    h.(votes := h.votes[At(v, p.term) := v],
       bids := h.bids[At(v, p.term) := p.log],
       tally := h.tally[At(v, p.term) := {v}])
  }

  function RecordVote(h: Ledger, v: nat, va: VoteArgs, r: VoteReply): Ledger {
    if r.granted then h.(votes := h.votes[At(v, va.term) := va.cand]) else h
  }

  function Tally(h: Ledger, k: At): set<nat> {
    if k in h.tally then h.tally[k] else {}
  }

  // The ledger after v, in state p, has consumed a reply from `voter`.
  function RecordCount(h: Ledger, p: Peer, voter: nat, va: VoteArgs, r: VoteReply): Ledger {
    if !Counts(p, va, r) then h
    else
      var k := At(p.me, p.term);
      var h' := h.(tally := h.tally[k := Tally(h, k) + {voter}]);
      if Wins(p, va, r) && |p.log| > 0 && p.term !in h.reigns then
        h'.(reigns := h.reigns[p.term := Reign(p.me, |p.log|, p.log)],
            acks := h.acks[k := |p.log| - 1])
      else h'
  }

  function Acked(h: Ledger, k: At): nat {
    if k in h.acks then h.acks[k] else 0
  }

  function Max(a: nat, b: nat): nat {
    if a < b then b else a
  }

  function RecordAck(h: Ledger, v: nat, a: AppendArgs, r: AppendReply): Ledger {
    if !r.success then h
    else var k := At(v, a.term);
         h.(acks := h.acks[k := Max(Acked(h, k), a.prevIdx + |a.entries|)])
  }

  function RecordStart(h: Ledger, p: Peer): Ledger
    requires |p.log| > 0
  {
    if p.role == Leader && p.term in h.reigns then
      h.(reigns := h.reigns[p.term := h.reigns[p.term].(log := p.log)],
         acks := h.acks[At(p.me, p.term) := |p.log| - 1])
    else h
  }

  function Next(c: Cluster, e: Event): Cluster
    requires Enabled(c, e)
  {
    match e
    case Timeout(v) => Put(c, v, OnTimeout(c.peers[v]))
    case Candidacy(v) =>
      var p := OnCandidacy(c.peers[v]);
      Put(c, v, p).(net := c.net + Ballots(c, v, BuildVote(p)), h := RecordBid(c.h, v, p))
    case Demote(v) => Put(c, v, OnDemote(c.peers[v]))
    case HandleVote(k) =>
      var (p, r) := OnRequestVote(c.peers[k.dst], k.va);
      Put(c, k.dst, p).(net := c.net - {k} + {k.(vr := Some(r))},
                        h := RecordVote(c.h, k.dst, k.va, r))
    case FinishVote(k) =>
      var p := c.peers[k.va.cand];
      Put(c, k.va.cand, OnVoteReply(p, k.va, k.vr.value)).(
        net := c.net - {k}, h := RecordCount(c.h, p, k.dst, k.va, k.vr.value))
    case Broadcast(v) =>
      c.(net := c.net + Heartbeats(c, v), clock := c.clock + 1)
    case HandleAppend(k) =>
      var (p, r) := OnAppend(c.peers[k.dst], k.aa);
      Put(c, k.dst, p).(net := c.net - {k} + {k.(ar := Some(r))},
                        h := RecordAck(c.h, k.dst, k.aa, r))
    case FinishAppend(k) =>
      Put(c, k.aa.leader,
          OnAppendReply(c.peers[k.aa.leader], k.dst, k.aa, k.ar.value)).(net := c.net - {k})
    case Submit(v, command) =>
      var p := OnStart(c.peers[v], command);
      Put(c, v, p).(h := RecordStart(c.h, p))
    case Deliver(v) =>
      var p := c.peers[v];
      Put(c, v, OnApply(p)).(sent := c.sent[v := c.sent[v] + Deliveries(p.log, p.applied, p.commit)])
    case Heartbeat(v) => Put(c, v, Save(c.peers[v]))
    case Lose(k) => c.(net := c.net - {k})
    case Restart(v) =>
      Put(c, v, Boot(|c.peers|, v, Some(c.peers[v].stable))).(sent := c.sent[v := []])
    case LateRead(v, va) =>
      c.(net := c.net - Ballots(c, v, va) + Ballots(c, v, BuildVote(c.peers[v])))
    case Overwrite(k) => c.(net := c.net - {k} + {Overwritten(c, k)})
  }

  // ----- runs -----

  ghost predicate StepAt(tr: seq<Cluster>, es: seq<Event>, i: nat)
    requires |tr| == |es| + 1 && i < |es|
  {
    Enabled(tr[i], es[i]) && tr[i + 1] == Next(tr[i], es[i])
  }

  ghost predicate Run(tr: seq<Cluster>, es: seq<Event>) {
    && |tr| == |es| + 1
    && Init(tr[0])
    && forall i: nat {:trigger StepAt(tr, es, i)} :: i < |es| ==> StepAt(tr, es, i)
  }

  // Hypothesis H1: no server of the run restarts.
  ghost predicate NoRestarts(es: seq<Event>) {
    forall i :: 0 <= i < |es| ==> !es[i].Restart?
  }

  // Hypothesis H2: every request is read in one step with its candidacy.
  ghost predicate NoLateReads(es: seq<Event>) {
    forall i :: 0 <= i < |es| ==> !es[i].LateRead?
  }

  // Hypothesis H3: the contents of a call are fixed when it is built.
  ghost predicate NoOverwrites(es: seq<Event>) {
    forall i :: 0 <= i < |es| ==> !es[i].Overwrite?
  }

  ghost predicate Classic(es: seq<Event>) {
    NoRestarts(es) && NoLateReads(es) && NoOverwrites(es)
  }

  // Hypothesis on a step, weaker than "no restart": a server that restarts has voted in no term
  // from its persisted one on, so that the vote it does not read back is none.
  predicate Careful(c: Cluster, e: Event) {
    e.Restart? ==>
      && e.v < |c.peers|
      && forall k :: k in c.h.votes && k.server == e.v ==> k.term < c.peers[e.v].stable.term
  }

  // Hypothesis H2 on a step: a request for votes that is read later than the candidacy is still
  // read in its term.
  predicate Timely(c: Cluster, e: Event) {
    e.LateRead? ==> e.v < |c.peers| && c.peers[e.v].term == e.va.term
  }

  // Hypothesis H3 on a step: what the handler writes into the array that a call not yet copied shares
  // is what is there.
  predicate Untouched(c: Cluster, e: Event) {
    e.Overwrite? && e.call.AppendCall? ==>
      e.call.aa.leader < |c.peers| && Overwritten(c, e.call) == e.call
  }

  predicate Proper(c: Cluster, e: Event) {
    Careful(c, e) && Timely(c, e) && Untouched(c, e)
  }

  ghost predicate UntouchedRun(tr: seq<Cluster>, es: seq<Event>)
    requires |tr| == |es| + 1
  {
    forall i: nat {:trigger Untouched(tr[i], es[i])} :: i < |es| ==> Untouched(tr[i], es[i])
  }

  // No restart of the run forgets a vote, no request is read in another term, no call is overwritten.
  ghost predicate ProperRun(tr: seq<Cluster>, es: seq<Event>)
    requires |tr| == |es| + 1
  {
    forall i: nat {:trigger Proper(tr[i], es[i])} :: i < |es| ==> Proper(tr[i], es[i])
  }
}
