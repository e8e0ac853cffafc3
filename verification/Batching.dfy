/** How the recommendation service sizes its batches, cuts a list of ids into them, and gathers the
    answers in whatever order they complete. */
module Batching {
  import opened Services

  // The id that fills the probe to the user service, and the first of those for videos.
  const PROBE_USER := 204054
  const PROBE_VIDEO := 1300

  // The counter starts at 1 and is raised once; a limit below 1 leaves it.
  function Raised(limit: int): nat {
    1 + if limit - 1 > 0 then limit - 1 else 0
  }

  // What an answer other than an internal error makes of the batch size: a refusal for size names
  // the service's own limit, any other refusal is not understood.
  function Sized<V>(own: int, answer: Reply<V>): nat {
    match answer
    case Ok(_) => Raised(own)
    case NotFound(_) => Raised(own)
    case InvalidArgument(TooMany(max)) => Raised(max)
    case _ => 1
  }

  // The batch size a service with limit `max` leaves the prober with.
  function ProbedSize(own: int, max: int): nat {
    if own < 1 then 1 else if max < own then Raised(max) else own
  }

  /** Probing settles on the smaller of the two limits, each taken as at least 1, however many
      internal errors come first: one list entry per attempt, true for an error.  None if every
      attempt failed so. */
  method UpdateUserBatchSize(own: int, max: int, users: map<Id, UserInfo>, injected: seq<bool>)
    returns (size: nat)
    ensures size == if (exists i :: 0 <= i < |injected| && !injected[i]) then ProbedSize(own, max) else 1
  {
    size := 1;
    if own < 1 {
      return;
    }
    var ids := seq(own, _ => Id(PROBE_USER));
    for i := 0 to |injected|
      invariant size == 1 && forall k :: 0 <= k < i ==> injected[k]
    {
      var answer := GetUser(injected[i], max, users, ids);
      if !answer.Internal? {
        return Sized(own, answer);
      }
    }
  }

  method UpdateVideoBatchSize<V>(own: int, max: int, videos: map<Id, V>, injected: seq<bool>)
    returns (size: nat)
    ensures size == if (exists i :: 0 <= i < |injected| && !injected[i]) then ProbedSize(own, max) else 1
  {
    size := 1;
    if own < 1 {
      return;
    }
    var ids := seq(own, i requires 0 <= i => Id(PROBE_VIDEO + i));
    assert forall i :: 0 <= i < own ==> ids[i].n == PROBE_VIDEO + i;
    for i := 0 to |injected|
      invariant size == 1 && forall k :: 0 <= k < i ==> injected[k]
    {
      var answer := GetVideo(injected[i], max, videos, ids);
      if !answer.Internal? {
        return Sized(own, answer);
      }
    }
  }

  /** Before and after probing, the batch size is positive; it is within the service's limit exactly
      when that limit is positive. */
  lemma SizeWithinLimit(own: int, max: int, size: nat)
    requires size == 1 || size == ProbedSize(own, max)
    ensures size >= 1
    ensures size <= max <==> max >= 1
    ensures own >= 1 && max >= 1 ==> ProbedSize(own, max) == if own < max then own else max
  {
  }

  // The batches that the loop's turns request, in order; its last turn requests the rest, if any.
  function Batches(ids: seq<Id>, size: nat): seq<seq<Id>>
    requires size >= 1
  {
    var n := |ids| / size;
    FullBatches(ids, size, n) + if |ids| % size != 0 then Rest(ids, n * size) else []
  }

  function Rest(ids: seq<Id>, m: nat): seq<seq<Id>>
    requires m <= |ids|
  {
    [ids[m..]]
  }

  function FullBatches(ids: seq<Id>, size: nat, n: nat): (r: seq<seq<Id>>)
    requires n * size <= |ids|
    ensures |r| == n
  {
    if n == 0 then []
    else
      assert (n - 1) * size == n * size - size;
      FullBatches(ids, size, n - 1) + [ids[(n - 1) * size..n * size]]
  }

  function Flatten<T>(ss: seq<seq<T>>): seq<T> {
    if ss == [] then [] else Flatten(ss[..|ss| - 1]) + ss[|ss| - 1]
  }

  // Is `b` the part of `ids` that starts at `at`?
  ghost predicate Slice(b: seq<Id>, ids: seq<Id>, at: nat) {
    at + |b| <= |ids| && b == ids[at..at + |b|]
  }

  // A stretch of the list, not empty and no longer than the batch size.
  ghost predicate Part(b: seq<Id>, ids: seq<Id>, size: nat) {
    1 <= |b| <= size && exists at: nat :: Slice(b, ids, at)
  }

  lemma {:induction false} FullBatchesSpell(ids: seq<Id>, size: nat, n: nat)
    requires n * size <= |ids|
    ensures Flatten(FullBatches(ids, size, n)) == ids[..n * size]
  {
    if n > 0 {
      assert (n - 1) * size == n * size - size;
      FullBatchesSpell(ids, size, n - 1);
      OneMoreSpells(FullBatches(ids, size, n - 1), ids, (n - 1) * size, n * size);
    }
  }

  // A list that is spelt up to m, and the stretch from m to k.
  lemma OneMoreSpells(ss: seq<seq<Id>>, ids: seq<Id>, m: nat, k: nat)
    requires m <= k <= |ids| && Flatten(ss) == ids[..m]
    ensures Flatten(ss + [ids[m..k]]) == ids[..k]
  {
    FlattenSnoc(ss, ids[m..k]);
    assert ids[..k] == ids[..m] + ids[m..k];
  }

  lemma FlattenSnoc<T>(ss: seq<seq<T>>, last: seq<T>)
    ensures Flatten(ss + [last]) == Flatten(ss) + last
  {
  }

  lemma {:induction false} FullBatchesAreParts(ids: seq<Id>, size: nat, n: nat, b: seq<Id>)
    requires size >= 1 && n * size <= |ids| && b in FullBatches(ids, size, n)
    ensures Part(b, ids, size)
  {
    var m := (n - 1) * size;
    assert m == n * size - size;
    if b == ids[m..n * size] {
      assert Slice(b, ids, m);
    } else {
      FullBatchesAreParts(ids, size, n - 1, b);
    }
  }

  /** The batches spell the list: every id is requested exactly once and in order. */
  lemma BatchesSpell(ids: seq<Id>, size: nat)
    requires size >= 1
    ensures Flatten(Batches(ids, size)) == ids
  {
    var n := |ids| / size;
    var m: nat := n * size;
    assert m + |ids| % size == |ids|;
    FullBatchesSpell(ids, size, n);
    BatchesAre(ids, size, n, m);
    RestSpells(FullBatches(ids, size, n), ids, m);
  }

  lemma BatchesAre(ids: seq<Id>, size: nat, n: nat, m: nat)
    requires size >= 1 && n == |ids| / size && m == n * size <= |ids|
    ensures Batches(ids, size)
         == FullBatches(ids, size, n) + if |ids| % size != 0 then Rest(ids, m) else []
  {
  }

  lemma RestSpells(ss: seq<seq<Id>>, ids: seq<Id>, m: nat)
    requires m <= |ids| && Flatten(ss) == ids[..m]
    ensures Flatten(ss + Rest(ids, m)) == ids
    ensures m == |ids| ==> Flatten(ss + []) == ids
  {
    FlattenSnoc(ss, ids[m..]);
    assert ids[..m] + ids[m..] == ids && ss + [] == ss;
  }

  /** No batch is empty or longer than the batch size, and each is a stretch of the list. */
  lemma BatchesAreParts(ids: seq<Id>, size: nat, b: seq<Id>)
    requires size >= 1 && b in Batches(ids, size)
    ensures Part(b, ids, size)
  {
    var n := |ids| / size;
    if b in FullBatches(ids, size, n) {
      FullBatchesAreParts(ids, size, n, b);
    } else {
      assert b == ids[n * size..];
      assert |b| == |ids| % size;
      assert Slice(b, ids, n * size);
    }
  }

  /** The batches meet the callee's checks, with a batch size of 1 before probing or the probed one
      after: exactly when the service's limit is positive.  The list of videos has no duplicates;
      the list of users may have some. */
  lemma VideoBatchesAreAccepted(ids: seq<Id>, own: int, max: int, size: nat, b: seq<Id>)
    requires size == 1 || size == ProbedSize(own, max)
    requires Distinct(ids) && b in Batches(ids, size)
    ensures VideoAccepts(max, b) <==> max >= 1
  {
    SizeWithinLimit(own, max, size);
    BatchesAreParts(ids, size, b);
    var at: nat :| Slice(b, ids, at);
    assert forall i :: 0 <= i < |b| ==> b[i] == ids[at + i];
  }

  lemma UserBatchesAreAccepted(ids: seq<Id>, own: int, max: int, size: nat, b: seq<Id>)
    requires size == 1 || size == ProbedSize(own, max)
    requires b in Batches(ids, size)
    ensures UserAccepts(max, b) <==> max >= 1
  {
    SizeWithinLimit(own, max, size);
    BatchesAreParts(ids, size, b);
  }

  /** The loop that issues the requests. */
  method IssueBatches(ids: seq<Id>, size: nat) returns (issued: seq<seq<Id>>)
    requires size >= 1
    ensures issued == Batches(ids, size)
  {
    issued := [];
    var batchLoop := |ids| / size;
    for i := 0 to batchLoop + 1
      invariant i * size <= |ids| || i == batchLoop + 1
      invariant i <= batchLoop ==> issued == FullBatches(ids, size, i)
      invariant i == batchLoop + 1 ==> issued == Batches(ids, size)
    {
      if i == batchLoop {
        if |ids| % size != 0 {
          issued := issued + [ids[i * size..]];
        }
      } else {
        NextBatchFits(|ids|, size, i);
        issued := issued + [ids[i * size..(i + 1) * size]];
      }
    }
  }

  lemma NextBatchFits(n: nat, size: nat, i: nat)
    requires size >= 1 && i < n / size
    ensures i * size <= (i + 1) * size <= n
  {
    var q := n / size;
    assert q * size <= n;
    Scale(i, i + 1, size);
    Scale(i + 1, q, size);
  }

  lemma Scale(a: nat, b: nat, size: nat)
    requires a <= b
    ensures a * size <= b * size
  {
  }

  // A sequence of completed batches, each issued batch once, in any order.
  ghost predicate Completion(done: seq<seq<Id>>, ids: seq<Id>, size: nat)
    requires size >= 1
  {
    multiset(done) == multiset(Batches(ids, size))
  }

  lemma {:induction false} FlattenWithout<T>(ss: seq<seq<T>>, k: nat)
    requires k < |ss|
    ensures multiset(Flatten(ss)) == multiset(Flatten(ss[..k] + ss[k + 1..])) + multiset(ss[k])
  {
    var front, last := ss[..|ss| - 1], ss[|ss| - 1];
    if k < |front| {
      FlattenWithout(front, k);
      assert ss[..k] + ss[k + 1..] == front[..k] + front[k + 1..] + [last];
      FlattenSnoc(front[..k] + front[k + 1..], last);
    } else {
      assert ss[..k] + ss[k + 1..] == front;
    }
  }

  // Takes one occurrence of x out.
  lemma TakeOut<T>(s: seq<T>, x: T) returns (k: nat, rest: seq<T>)
    requires x in multiset(s)
    ensures k < |s| && s[k] == x && rest == s[..k] + s[k + 1..]
    ensures multiset(rest) == multiset(s) - multiset{x}
  {
    k :| 0 <= k < |s| && s[k] == x;
    rest := s[..k] + s[k + 1..];
    assert s == s[..k] + [x] + s[k + 1..];
  }

  lemma {:induction false} FlattenPermutes<T>(a: seq<seq<T>>, b: seq<seq<T>>)
    requires multiset(a) == multiset(b)
    ensures multiset(Flatten(a)) == multiset(Flatten(b))
    decreases |a|
  {
    if a == [] {
      assert multiset(b) == multiset{};
      assert b == [];
    } else {
      var front, last := a[..|a| - 1], a[|a| - 1];
      assert a == front + [last];
      assert last in multiset(b);
      var k, rest := TakeOut(b, last);
      FlattenPermutes(front, rest);
      FlattenWithout(b, k);
    }
  }

  /** In whatever order the batches complete, the ids answered are the ids asked, each as often. */
  lemma CompletionIsPermutation(done: seq<seq<Id>>, ids: seq<Id>, size: nat)
    requires size >= 1 && Completion(done, ids, size)
    ensures multiset(Flatten(done)) == multiset(ids)
  {
    FlattenPermutes(done, Batches(ids, size));
    BatchesSpell(ids, size);
  }

  /** No request could be saved: there are as few batches as the size allows, and every one but the last
      is full. */
  lemma BatchesAreFewest(ids: seq<Id>, size: nat)
    requires size >= 1
    ensures |Batches(ids, size)| == |ids| / size + if |ids| % size == 0 then 0 else 1
    ensures forall i :: 0 <= i < |Batches(ids, size)| - 1 ==> |Batches(ids, size)[i]| == size
  {
    var n := |ids| / size;
    BatchesAre(ids, size, n, n * size);
    forall i | 0 <= i < n ensures |FullBatches(ids, size, n)[i]| == size {
      FullBatchesAreFull(ids, size, n, i);
    }
  }

  lemma {:induction false} FullBatchesAreFull(ids: seq<Id>, size: nat, n: nat, i: nat)
    requires n * size <= |ids| && i < n
    ensures |FullBatches(ids, size, n)[i]| == size
  {
    assert (n - 1) * size == n * size - size;
    if i < n - 1 {
      FullBatchesAreFull(ids, size, n - 1, i);
    }
  }
}
