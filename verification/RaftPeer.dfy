/** The Raft peer as the object it is.  Each method is one lock-held section, or a loop of one; its
    contract equates the new state with a step function of RaftCore. */
module RaftPeer {
  import opened Wrappers
  import opened RaftCore

  class Raft {
    const me: nat
    var votedFor: int
    var numVotesReceived: nat
    var state: Role
    var currentTerm: nat
    var log: seq<Entry>
    var commitIdx: nat
    const nextIdx: array<nat>
    const matchIdx: array<nat>
    var appliedLast: nat
    var pendingApplies: nat       // goroutines spawned to deliver commits, not yet run
    var persister: Stable
    var applyCh: seq<ApplyMsg>    // everything sent to the service so far

    ghost predicate Valid()
      reads this
    {
      && nextIdx != matchIdx
      && nextIdx.Length == matchIdx.Length
      && me < nextIdx.Length
      && |log| > 0
    }

    ghost function View(): Peer
      reads this, nextIdx, matchIdx
    {
      Peer(me, votedFor, numVotesReceived, state, currentTerm, log, commitIdx,
           nextIdx[..], matchIdx[..], appliedLast, pendingApplies, persister)
    }

    // Make
    constructor (n: nat, me: nat, saved: Option<Stable>)
      requires me < n
      requires saved.Some? ==> |saved.value.log| > 0
      ensures Valid() && fresh(nextIdx) && fresh(matchIdx)
      ensures View() == Boot(n, me, saved) && applyCh == []
    {
      this.me := me;
      numVotesReceived, state, currentTerm, votedFor := 0, Follower, 0, 0;
      commitIdx, appliedLast, pendingApplies, applyCh := 0, 0, 0, [];
      log := [SENTINEL];
      nextIdx := new nat[n](_ => 0);
      matchIdx := new nat[n](_ => 0);
      new;
      if saved.Some? {
        currentTerm, votedFor, log := saved.value.term, saved.value.votedFor, saved.value.log;
      }
      Persist();
      votedFor := -1;
      assert nextIdx[..] == seq(n, _ => 0);
      assert matchIdx[..] == seq(n, _ => 0);
    }

    method Persist()
      requires Valid()
      modifies this`persister
      ensures View() == Save(old(View()))
    {
      persister := Stable(currentTerm, votedFor, log);
    }

    method GetState() returns (term: nat, isLeader: bool)
      ensures term == currentTerm && isLeader == (state == Leader)
    {
      return currentTerm, state == Leader;
    }

    method RequestVote(args: VoteArgs) returns (reply: VoteReply)
      requires Valid()
      modifies this`currentTerm, this`votedFor, this`state
      ensures Valid()
      ensures (View(), reply) == OnRequestVote(old(View()), args)
    {
      if currentTerm > args.term {
        return VoteReply(currentTerm, false);
      }
      if currentTerm < args.term {
        currentTerm := args.term;
        votedFor := -1;
        state := Follower;
      }
      if (args.lastTerm > log[|log| - 1].term ||
          (args.lastTerm == log[|log| - 1].term && args.lastIdx >= log[|log| - 1].index)) &&
         (votedFor == -1 || votedFor == args.cand) {
        reply := VoteReply(args.term, true);
        votedFor := args.cand;
      } else {
        reply := VoteReply(args.term, false);
      }
    }

    // The half of sendRequestVote that runs when the call has returned a reply.
    method FinishRequestVote(args: VoteArgs, reply: VoteReply)
      requires Valid()
      modifies this, nextIdx
      ensures Valid() && applyCh == old(applyCh)
      ensures View() == OnVoteReply(old(View()), args, reply)
    {
      if currentTerm != args.term || state != Candidate {
        return;
      }
      if reply.term > currentTerm {
        votedFor := -1;
        currentTerm := reply.term;
        state := Follower;
        return;
      }
      if reply.granted {
        numVotesReceived := numVotesReceived + 1;
        if numVotesReceived > nextIdx.Length / 2 {
          Persist();
          var next := log[|log| - 1].index + 1;
          for i := 0 to nextIdx.Length
            invariant forall j :: 0 <= j < i ==> nextIdx[j] == next
            modifies nextIdx
          {
            nextIdx[i] := next;
          }
          assert nextIdx[..] == seq(nextIdx.Length, _ => next);
          state := Leader;
        }
      }
    }

    method AppendEntries(args: AppendArgs) returns (reply: AppendReply)
      requires Valid() && Indexed(log)
      modifies this
      ensures Valid() && applyCh == old(applyCh)
      ensures (View(), reply) == OnAppend(old(View()), args)
    {
      var lastLogIdx := log[|log| - 1].index;
      var baseIdx: int := log[0].index;
      if currentTerm > args.term {
        return AppendReply(currentTerm, false, lastLogIdx + 1);
      }
      if currentTerm < args.term {
        votedFor := -1;
        currentTerm := args.term;
        state := Follower;
      }
      reply := AppendReply(args.term, false, 0);
      if args.prevIdx > lastLogIdx {
        reply := reply.(nextTry := lastLogIdx + 1);
        return;
      }
      if args.prevIdx >= baseIdx && log[args.prevIdx - baseIdx].term != args.prevTerm {
        var conflict := BackUp(args.prevIdx);
        if conflict > baseIdx {
          reply := reply.(nextTry := conflict);
          return;
        }
      } else if args.prevIdx > baseIdx - 2 {
        reply := TakeEntries(args);
      }
      Persist();
    }

    // The branch that truncates the log and appends the entries of the message.
    method TakeEntries(args: AppendArgs) returns (reply: AppendReply)
      requires Valid() && Indexed(log) && args.prevIdx < |log|
      modifies this`log, this`commitIdx, this`pendingApplies
      ensures Valid() && reply == AppendReply(args.term, true, |args.entries| + args.prevIdx)
      ensures log == old(log)[..args.prevIdx + 1] + args.entries
      ensures if args.commit > old(commitIdx)
              then commitIdx == Min(args.commit, Last(log).index)
                   && pendingApplies == old(pendingApplies) + 1
              else commitIdx == old(commitIdx) && pendingApplies == old(pendingApplies)
    {
      var baseIdx := log[0].index;
      log := log[..args.prevIdx - baseIdx + 1];
      log := log + args.entries;
      reply := AppendReply(args.term, true, |args.entries| + args.prevIdx);
      if args.commit > commitIdx {
        commitIdx := Min(args.commit, log[|log| - 1].index);
        pendingApplies := pendingApplies + 1;
      }
    }

    // The conflict loop: one past the last entry before `prevIdx` of another term than the entry
    // there, or the base index when the loop runs through.
    method BackUp(prevIdx: nat) returns (nextTry: nat)
      requires Valid() && Indexed(log) && prevIdx < |log|
      ensures nextTry == RunStart(log, prevIdx)
    {
      var baseIdx := log[0].index;
      var term := log[prevIdx - baseIdx].term;
      var i: int := prevIdx - 1;
      while i >= baseIdx
        invariant -1 <= i < prevIdx
        invariant log[i + 1].term == term
        invariant RunStart(log, prevIdx) == RunStart(log, i + 1)
      {
        if log[i - baseIdx].term != term {
          return i + 1;
        }
        i := i - 1;
      }
      nextTry := baseIdx;
    }

    // The half of sendAppendEntries that runs when the call has returned a reply.
    method FinishAppendEntries(server: nat, args: AppendArgs, reply: AppendReply)
      requires Valid() && Indexed(log) && server < nextIdx.Length
      modifies this, nextIdx, matchIdx
      ensures Valid() && applyCh == old(applyCh)
      ensures View() == OnAppendReply(old(View()), server, args, reply)
    {
      if currentTerm != args.term || state != Leader {
        return;
      }
      if currentTerm < reply.term {
        votedFor := -1;
        currentTerm := reply.term;
        state := Follower;
        Persist();
        return;
      }
      if reply.success {
        if |args.entries| > 0 {
          nextIdx[server] := args.entries[|args.entries| - 1].index + 1;
          matchIdx[server] := nextIdx[server] - 1;
        }
      } else {
        nextIdx[server] := reply.nextTry;
      }
      assert View() == Progress(old(View()), server, args, reply);
      AdvanceCommit();
    }

    // The commit loop, from the last entry downwards.
    method AdvanceCommit()
      requires Valid() && Indexed(log)
      modifies this`commitIdx, this`pendingApplies
      ensures View() == Advance(old(View()))
    {
      var baseIdx := log[0].index;
      ghost var p := View();
      var i: int := log[|log| - 1].index;
      while i > commitIdx && currentTerm == log[i - baseIdx].term
        invariant 0 <= i < |log| && View() == p
        invariant CommitScan(p, |log| - 1) == CommitScan(p, i)
      {
        var count := CountHolders(i);
        if count > nextIdx.Length / 2 {
          commitIdx := i;
          pendingApplies := pendingApplies + 1;
          return;
        }
        i := i - 1;
      }
    }

    // The inner loop of the commit rule.
    method CountHolders(i: nat) returns (count: nat)
      requires Valid()
      ensures count == 1 + |Holders(View(), i)|
    {
      count := 1;
      ghost var seen: set<nat> := {};
      for j := 0 to matchIdx.Length
        invariant seen == set k: nat | 0 <= k < j && k != me && matchIdx[k] >= i
        invariant count == 1 + |seen|
      {
        if matchIdx[j] >= i && j != me {
          count := count + 1;
          seen := seen + {j};
        }
      }
      assert seen == Holders(View(), i);
    }

    // The arguments of the calls one broadcast starts, by peer.
    method BroadcastHeartbeat() returns (calls: map<nat, AppendArgs>)
      requires Valid() && Indexed(log)
      requires NextInRange(View())
      ensures forall j: nat :: j in calls <==> Addressed(View(), j)
      ensures forall j: nat :: j in calls ==> calls[j] == BuildAppend(View(), j)
    {
      var baseIdx := log[0].index;
      calls := map[];
      for i := 0 to nextIdx.Length
        invariant forall j: nat :: j in calls <==> j < i && Addressed(View(), j)
        invariant forall j: nat :: j in calls ==> calls[j] == BuildAppend(View(), j)
      {
        if state == Leader && i != me {
          if nextIdx[i] > baseIdx {
            var next := nextIdx[i];
            assert next == View().nextIdx[i] <= |log|;
            var entries := if next <= log[|log| - 1].index then log[next - baseIdx..] else [];
            assert entries == log[next..];
            calls := calls[i := AppendArgs(currentTerm, me, next - 1,
                                           log[next - 1 - baseIdx].term, entries, commitIdx)];
          }
        }
      }
    }

    method Start(command: Command) returns (index: int, term: int, isLeader: bool)
      requires Valid()
      modifies this`log, this`persister
      ensures Valid()
      ensures View() == OnStart(old(View()), command)
      ensures isLeader == (state == Leader)
      ensures if isLeader then index == Last(log).index && term == currentTerm
              else index == -1 && term == -1
      ensures old(Indexed(log)) ==> Indexed(log)
    {
      index, term, isLeader := -1, -1, state == Leader;
      if isLeader {
        term := currentTerm;
        index := log[|log| - 1].index + 1;
        log := log + [Entry(currentTerm, command, log[|log| - 1].index + 1)];
        Persist();
      }
    }

    // One of the goroutines spawned by the two commit sites.
    method ApplyCommitted()
      requires Valid() && Indexed(log)
      requires pendingApplies > 0
      requires commitIdx < |log|     // Go would panic on the log lookup otherwise
      modifies this`appliedLast, this`pendingApplies, this`applyCh
      ensures Valid()
      ensures View() == OnApply(old(View()))
      ensures applyCh == old(applyCh) + Deliveries(log, old(appliedLast), commitIdx)
    {
      var i := appliedLast + 1;
      while i <= commitIdx
        invariant appliedLast + 1 <= i
        invariant appliedLast < commitIdx ==> i <= commitIdx + 1
        invariant appliedLast >= commitIdx ==> i == appliedLast + 1
        invariant unchanged(`appliedLast, `pendingApplies)
        invariant i - 1 < |log| ==>
                    applyCh == old(applyCh) + Deliveries(log, appliedLast, i - 1)
        invariant i - 1 >= |log| ==> applyCh == old(applyCh)
      {
        applyCh := applyCh + [ApplyMsg(i, log[i - log[0].index].command)];
        i := i + 1;
      }
      appliedLast := commitIdx;
      pendingApplies := pendingApplies - 1;
    }

    // ----- the ticker's lock-held sections -----

    method ElectionTimeout()
      requires Valid()
      modifies this`state, this`persister
      ensures Valid() && View() == OnTimeout(old(View()))
    {
      state := Candidate;
      Persist();
    }

    method BecomeCandidate() returns (args: VoteArgs)
      requires Valid() && state == Candidate
      modifies this
      ensures Valid() && applyCh == old(applyCh)
      ensures View() == OnCandidacy(old(View())) && args == BuildVote(View())
    {
      currentTerm := currentTerm + 1;
      votedFor := me;
      numVotesReceived := 1;
      Persist();
      args := VoteArgs(currentTerm, me, log[|log| - 1].index, log[|log| - 1].term);
    }

    method BackToFollower()
      requires Valid()
      modifies this`state
      ensures Valid() && View() == OnDemote(old(View()))
    {
      state := Follower;
    }
  }
}
