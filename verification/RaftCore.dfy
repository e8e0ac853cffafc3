/** One Raft peer as a value, its messages, and a pure step function for each lock-held section. */
module RaftCore {
  import opened Wrappers

  // The client's commands are opaque; `Nil` is the command of the sentinel entry.
  datatype Command = Nil | Op(id: int)

  datatype Entry = Entry(term: nat, command: Command, index: nat)

  const SENTINEL := Entry(0, Nil, 0)

  datatype Role = Follower | Candidate | Leader

  datatype ApplyMsg = ApplyMsg(index: nat, command: Command)

  // What `persist` writes.
  datatype Stable = Stable(term: nat, votedFor: int, log: seq<Entry>)

  datatype Peer = Peer(
    me: nat,
    votedFor: int,        // -1 is nobody
    votes: nat,
    role: Role,
    term: nat,
    log: seq<Entry>,
    commit: nat,
    nextIdx: seq<nat>,
    matchIdx: seq<nat>,
    applied: nat,
    pending: nat,         // apply closures started and not yet run
    stable: Stable)

  datatype VoteArgs = VoteArgs(term: nat, cand: nat, lastIdx: nat, lastTerm: nat)
  datatype VoteReply = VoteReply(term: nat, granted: bool)
  datatype AppendArgs = AppendArgs(
    term: nat, leader: nat, prevIdx: nat, prevTerm: nat, entries: seq<Entry>, commit: nat)
  datatype AppendReply = AppendReply(term: nat, success: bool, nextTry: nat)

  // ----- logs -----

  function Last(log: seq<Entry>): Entry
    requires |log| > 0
  {
    log[|log| - 1]
  }

  // Entry k carries index k.
  predicate Indexed(log: seq<Entry>) {
    |log| > 0 && forall k :: 0 <= k < |log| ==> log[k].index == k
  }

  predicate Sorted(log: seq<Entry>) {
    forall i, j :: 0 <= i <= j < |log| ==> log[i].term <= log[j].term
  }

  // A log starts with the sentinel, every later entry has a real term, and terms never decrease.
  predicate LogOk(log: seq<Entry>) {
    && Indexed(log)
    && log[0] == SENTINEL
    && (forall k :: 1 <= k < |log| ==> log[k].term >= 1)
    && Sorted(log)
  }

  predicate TermsUpTo(log: seq<Entry>, t: nat) {
    forall k :: 0 <= k < |log| ==> log[k].term <= t
  }

  // The entries of a message continue at the index after `prevIdx`.
  predicate Consecutive(a: AppendArgs) {
    forall k :: 0 <= k < |a.entries| ==> a.entries[k].index == a.prevIdx + 1 + k
  }

  // ----- shared pieces of the handlers -----

  function Save(p: Peer): Peer {
    p.(stable := Stable(p.term, p.votedFor, p.log))
  }

  function StepDown(p: Peer, term: nat): Peer {
    p.(term := term, votedFor := -1, role := Follower)
  }

  // ----- elections -----

  predicate UpToDate(a: VoteArgs, log: seq<Entry>)
    requires |log| > 0
  {
    || a.lastTerm > Last(log).term
    || (a.lastTerm == Last(log).term && a.lastIdx >= Last(log).index)
  }

  function OnRequestVote(p: Peer, a: VoteArgs): (Peer, VoteReply)
    requires |p.log| > 0
  {
    if p.term > a.term then
      (p, VoteReply(p.term, false))
    else
      var q := if p.term < a.term then StepDown(p, a.term) else p;
      if UpToDate(a, q.log) && (q.votedFor == -1 || q.votedFor == a.cand) then
        (q.(votedFor := a.cand), VoteReply(a.term, true))
      else
        (q, VoteReply(a.term, false))
  }

  // The reply is counted: it answers the current candidacy and grants the vote.
  predicate Counts(p: Peer, a: VoteArgs, r: VoteReply) {
    p.term == a.term && p.role == Candidate && r.term <= p.term && r.granted
  }

  predicate Wins(p: Peer, a: VoteArgs, r: VoteReply) {
    Counts(p, a, r) && p.votes + 1 > |p.nextIdx| / 2
  }

  function OnVoteReply(p: Peer, a: VoteArgs, r: VoteReply): Peer
    requires |p.log| > 0
  {
    if p.term != a.term || p.role != Candidate then p
    else if r.term > p.term then StepDown(p, r.term)
    else if !r.granted then p
    else if p.votes + 1 > |p.nextIdx| / 2 then
      Save(p.(votes := p.votes + 1)).(
        nextIdx := seq(|p.nextIdx|, _ => Last(p.log).index + 1), role := Leader)
    else p.(votes := p.votes + 1)
  }

  function OnTimeout(p: Peer): Peer {
    Save(p.(role := Candidate))
  }

  function OnCandidacy(p: Peer): Peer {
    Save(p.(term := p.term + 1, votedFor := p.me, votes := 1))
  }

  function BuildVote(p: Peer): VoteArgs
    requires |p.log| > 0
  {
    VoteArgs(p.term, p.me, Last(p.log).index, Last(p.log).term)
  }

  function OnDemote(p: Peer): Peer {
    p.(role := Follower)
  }

  // ----- log replication -----

  // The first position of the run of equal terms that ends at position k.
  function RunStart(log: seq<Entry>, k: nat): (s: nat)
    requires k < |log|
    ensures s <= k
    ensures forall i :: s <= i <= k ==> log[i].term == log[k].term
    ensures s > 0 ==> log[s - 1].term != log[k].term
  {
    if k > 0 && log[k - 1].term == log[k].term then RunStart(log, k - 1) else k
  }

  function Min(a: nat, b: nat): nat {
    if a < b then a else b
  }

  predicate Accepts(p: Peer, a: AppendArgs) {
    && p.term <= a.term
    && a.prevIdx < |p.log|
    && p.log[a.prevIdx].term == a.prevTerm
  }

  function OnAppend(p: Peer, a: AppendArgs): (Peer, AppendReply)
    requires Indexed(p.log)
  {
    if p.term > a.term then
      (p, AppendReply(p.term, false, |p.log|))
    else
      var q := if p.term < a.term then StepDown(p, a.term) else p;
      if a.prevIdx >= |q.log| then
        (q, AppendReply(a.term, false, |q.log|))
      else if q.log[a.prevIdx].term != a.prevTerm then
        var s := RunStart(q.log, a.prevIdx);
        (if s > 0 then q else Save(q), AppendReply(a.term, false, s))
      else
        var log := q.log[..a.prevIdx + 1] + a.entries;
        var r := q.(log := log);
        var r' := if a.commit > r.commit
                  then r.(commit := Min(a.commit, Last(log).index), pending := r.pending + 1)
                  else r;
        (Save(r'), AppendReply(a.term, true, |a.entries| + a.prevIdx))
  }

  // The precondition that the handler needs on the log is kept by every well-built message.
  lemma AppendKeepsIndexed(p: Peer, a: AppendArgs)
    requires Indexed(p.log) && Consecutive(a)
    ensures Indexed(OnAppend(p, a).0.log)
  {
  }

  // The other peers known to hold the entry at position i.
  function Holders(p: Peer, i: nat): set<nat> {
    set j: nat | 0 <= j < |p.matchIdx| && j != p.me && p.matchIdx[j] >= i
  }

  predicate Majority(p: Peer, i: nat) {
    1 + |Holders(p, i)| > |p.matchIdx| / 2
  }

  // The commit loop: from position i downwards, as long as entries are of the current term.
  function CommitScan(p: Peer, i: nat): nat
    requires i < |p.log|
  {
    if i > p.commit && p.log[i].term == p.term then
      if Majority(p, i) then i else CommitScan(p, i - 1)
    else p.commit
  }

  function OnAppendReply(p: Peer, server: nat, a: AppendArgs, r: AppendReply): Peer
    requires |p.log| > 0 && server < |p.nextIdx| && server < |p.matchIdx|
  {
    if p.term != a.term || p.role != Leader then p
    else if p.term < r.term then Save(StepDown(p, r.term))
    else
      Advance(Progress(p, server, a, r))
  }

  // The commit half of the reply handler.
  function Advance(p: Peer): Peer
    requires |p.log| > 0
  {
    var commit := CommitScan(p, |p.log| - 1);
    if commit > p.commit then p.(commit := commit, pending := p.pending + 1) else p
  }

  // The bookkeeping half of the reply handler.
  function Progress(p: Peer, server: nat, a: AppendArgs, r: AppendReply): Peer
    requires server < |p.nextIdx| && server < |p.matchIdx|
  {
    if !r.success then p.(nextIdx := p.nextIdx[server := r.nextTry])
    else if |a.entries| == 0 then p
    else p.(nextIdx := p.nextIdx[server := Last(a.entries).index + 1],
            matchIdx := p.matchIdx[server := Last(a.entries).index])
  }

  // Go would panic on a next index past the end of the log.
  predicate NextInRange(p: Peer) {
    p.role == Leader ==>
      forall j :: 0 <= j < |p.nextIdx| && j != p.me ==> p.nextIdx[j] <= |p.log|
  }

  // The peers a broadcast writes to: a next index of 0 is skipped.
  predicate Addressed(p: Peer, j: nat) {
    p.role == Leader && j < |p.nextIdx| && j != p.me && p.nextIdx[j] > 0
  }

  function BuildAppend(p: Peer, j: nat): AppendArgs
    requires Addressed(p, j) && NextInRange(p)
  {
    AppendArgs(p.term, p.me, p.nextIdx[j] - 1, p.log[p.nextIdx[j] - 1].term,
               p.log[p.nextIdx[j]..], p.commit)
  }

  function OnStart(p: Peer, command: Command): Peer
    requires |p.log| > 0
  {
    if p.role == Leader then
      Save(p.(log := p.log + [Entry(p.term, command, Last(p.log).index + 1)]))
    else p
  }

  // ----- delivery to the service -----

  function Deliveries(log: seq<Entry>, from: nat, to: nat): (msgs: seq<ApplyMsg>)
    requires to < |log|
  {
    if from >= to then []
    else Deliveries(log, from, to - 1) + [ApplyMsg(to, log[to].command)]
  }

  function OnApply(p: Peer): Peer
    requires p.pending > 0
  {
    p.(applied := p.commit, pending := p.pending - 1)
  }

  // ----- booting -----

  function Boot(n: nat, me: nat, saved: Option<Stable>): Peer {
    var (term, votedFor, log) := match saved
                                 case None => (0, 0, [SENTINEL])
                                 case Some(s) => (s.term, s.votedFor, s.log);
    Peer(me, -1, 0, Follower, term, log, 0, seq(n, _ => 0), seq(n, _ => 0), 0, 0,
         Stable(term, votedFor, log))
  }

  // ----- the commit rule -----

  /** The declarative commit rule of Figure 2 of the Raft paper: N is past the commit index,
      of the current term, and held by a majority. */
  predicate Committable(p: Peer, N: nat) {
    p.commit < N < |p.log| && p.log[N].term == p.term && Majority(p, N)
  }

  /** The downward scan, which gives up at the first entry of an older term, finds the largest
      index the declarative rule allows, and finds none only if there is none. */
  lemma CommitScanIsLargest(p: Peer)
    requires |p.log| > 0 && Sorted(p.log) && TermsUpTo(p.log, p.term)
    ensures var c := CommitScan(p, |p.log| - 1);
            if exists N: nat :: Committable(p, N)
            then Committable(p, c) && forall N: nat :: Committable(p, N) ==> N <= c
            else c == p.commit
  {
    ScanFrom(p, |p.log| - 1);
  }

  lemma {:induction false} ScanFrom(p: Peer, i: nat)
    requires i < |p.log| && Sorted(p.log) && TermsUpTo(p.log, p.term)
    ensures var c := CommitScan(p, i);
            if exists N: nat :: N <= i && Committable(p, N)
            then Committable(p, c) && c <= i && forall N: nat :: N <= i && Committable(p, N) ==> N <= c
            else c == p.commit
  {
    if i > p.commit && p.log[i].term == p.term {
      if Majority(p, i) {
        assert Committable(p, i);
      } else {
        assert !Committable(p, i);
        ScanFrom(p, i - 1);
        assert forall N: nat :: N <= i && Committable(p, N) ==> N <= i - 1;
      }
    } else {
      assert forall N: nat :: N <= i ==> p.log[N].term <= p.log[i].term;
    }
  }

  // ----- small facts used throughout -----

  lemma {:induction false} DeliveriesAt(log: seq<Entry>, from: nat, to: nat)
    requires to < |log|
    ensures |Deliveries(log, from, to)| == if from < to then to - from else 0
    ensures forall k :: 0 <= k < |Deliveries(log, from, to)| ==>
              Deliveries(log, from, to)[k] == ApplyMsg(from + 1 + k, log[from + 1 + k].command)
  {
    if from < to {
      DeliveriesAt(log, from, to - 1);
      assert Deliveries(log, from, to)
          == Deliveries(log, from, to - 1) + [ApplyMsg(to, log[to].command)];
    }
  }
}
