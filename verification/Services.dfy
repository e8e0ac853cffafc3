/** The user and video services that the recommendation service calls: their request checks, in
    their order, and their answers. */
module Services {
  datatype Id = Id(n: nat)

  datatype UserInfo = UserInfo(id: Id, likedVideos: seq<Id>, subscribedTo: seq<Id>)

  datatype Why = Empty | TooMany(max: int) | Duplicated

  datatype Reply<V> =
    | Ok(infos: seq<V>)
    | Internal
    | InvalidArgument(why: Why)
    | NotFound(id: Id)

  predicate Distinct<T(==)>(s: seq<T>) {
    forall i, j :: 0 <= i < j < |s| ==> s[i] != s[j]
  }

  // The first occurrence of every element, in order.
  function Dedup(ids: seq<Id>): seq<Id> {
    if ids == [] then []
    else
      var front := Dedup(ids[..|ids| - 1]);
      if ids[|ids| - 1] in front then front else front + [ids[|ids| - 1]]
  }

  // Has the element at position i no equal before it?
  predicate First(ids: seq<Id>, i: nat) {
    i < |ids| && ids[i] !in ids[..i]
  }

  /** Deduplication keeps every element once, and nothing else; it changes the length exactly when
      there is a duplicate. */
  lemma {:induction false} DedupKeepsAll(ids: seq<Id>)
    ensures Distinct(Dedup(ids))
    ensures forall x :: x in Dedup(ids) <==> x in ids
    ensures |Dedup(ids)| <= |ids|
    ensures |Dedup(ids)| == |ids| <==> Distinct(ids)
    ensures Distinct(ids) ==> Dedup(ids) == ids
  {
    if ids != [] {
      var front, x := ids[..|ids| - 1], ids[|ids| - 1];
      DedupKeepsAll(front);
      assert ids == front + [x];
      if x in front {
        var i :| 0 <= i < |front| && front[i] == x;
        assert ids[i] == ids[|ids| - 1];
      } else {
        assert Distinct(front) ==> Distinct(ids);
      }
      assert Distinct(ids) ==> Distinct(front) by {
        assert forall i :: 0 <= i < |front| ==> ids[i] == front[i];
      }
    }
  }

  ghost predicate Before(s: seq<Id>, x: Id, y: Id) {
    exists p, q :: 0 <= p < q < |s| && s[p] == x && s[q] == y
  }

  lemma BeforeStays(s: seq<Id>, t: seq<Id>, x: Id, y: Id)
    requires Before(s, x, y)
    ensures Before(s + t, x, y)
  {
    var p, q :| 0 <= p < q < |s| && s[p] == x && s[q] == y;
    assert (s + t)[p] == x && (s + t)[q] == y;
  }

  lemma LastIsAfter(s: seq<Id>, x: Id, y: Id)
    requires x in s
    ensures Before(s + [y], x, y)
  {
    var p :| 0 <= p < |s| && s[p] == x;
    assert (s + [y])[p] == x && (s + [y])[|s|] == y;
  }

  /** Deduplication keeps the order of first occurrences. */
  lemma {:induction false} DedupKeepsOrder(ids: seq<Id>, i: nat, j: nat)
    requires First(ids, i) && First(ids, j) && i < j
    ensures Before(Dedup(ids), ids[i], ids[j])
  {
    var front := ids[..|ids| - 1];
    DedupKeepsAll(front);
    assert front[i] == ids[i] && front[..i] == ids[..i];
    if j < |front| {
      assert front[j] == ids[j] && front[..j] == ids[..j];
      DedupKeepsOrder(front, i, j);
      BeforeStays(Dedup(front), [ids[|front|]], ids[i], ids[j]);
    } else {
      assert ids[j] !in front && front[i] in front;
      LastIsAfter(Dedup(front), ids[i], ids[j]);
    }
  }

  method DeduplicateIds(ids: seq<Id>) returns (deduped: seq<Id>)
    ensures deduped == Dedup(ids)
  {
    deduped := [];
    var seen := {};
    for i := 0 to |ids|
      invariant deduped == Dedup(ids[..i])
      invariant forall x :: x in seen <==> x in deduped
    {
      assert ids[..i + 1][..i] == ids[..i];
      if ids[i] !in seen {
        seen := seen + {ids[i]};
        deduped := deduped + [ids[i]];
      }
    }
    assert ids[..|ids|] == ids;
  }

  // The entries for a list of known ids, in its order.
  function Lookup<V>(store: map<Id, V>, ids: seq<Id>): (r: seq<V>)
    requires forall x :: x in ids ==> x in store
    ensures |r| == |ids|
  {
    seq(|ids|, i requires 0 <= i < |ids| => store[ids[i]])
  }

  ghost predicate Known<V>(store: map<Id, V>, ids: seq<Id>) {
    forall x :: x in ids ==> x in store
  }

  // What a service may answer once its checks have passed: all entries, or the first id missing.
  ghost predicate Answers<V>(store: map<Id, V>, ids: seq<Id>, r: Reply<V>) {
    if Known(store, ids) then r == Ok(Lookup(store, ids))
    else
      exists i :: 0 <= i < |ids| && ids[i] !in store && Known(store, ids[..i]) && r == NotFound(ids[i])
  }

  method Collect<V>(store: map<Id, V>, ids: seq<Id>) returns (r: Reply<V>)
    ensures Answers(store, ids, r)
  {
    var infos: seq<V> := [];
    for i := 0 to |ids|
      invariant Known(store, ids[..i])
      invariant infos == Lookup(store, ids[..i])
    {
      if ids[i] !in store {
        return NotFound(ids[i]);
      }
      infos := infos + [store[ids[i]]];
    }
    assert ids[..|ids|] == ids;
    r := Ok(infos);
  }

  predicate VideoAccepts(max: int, ids: seq<Id>) {
    ids != [] && |ids| <= max && Distinct(ids)
  }

  predicate UserAccepts(max: int, ids: seq<Id>) {
    ids != [] && |ids| <= max
  }

  /** The video service's checks: no ids, too many, duplicates, and only then the lookup. */
  method GetVideo<V>(inject: bool, max: int, videos: map<Id, V>, ids: seq<Id>)
    returns (r: Reply<V>)
    ensures r == Internal <==> inject
    ensures r.InvalidArgument? <==> !inject && !VideoAccepts(max, ids)
    ensures r.InvalidArgument? ==>
              r.why == if ids == [] then Empty else if |ids| > max then TooMany(max) else Duplicated
    ensures !r.Internal? && !r.InvalidArgument? ==> Answers(videos, ids, r)
  {
    if inject {
      return Internal;
    }
    if |ids| == 0 {
      return InvalidArgument(Empty);
    }
    if |ids| > max {
      return InvalidArgument(TooMany(max));
    }
    var deduped := DeduplicateIds(ids);
    DedupKeepsAll(ids);
    if |deduped| != |ids| {
      return InvalidArgument(Duplicated);
    }
    r := Collect(videos, ids);
  }

  /** The user service's checks: the same without the one for duplicates. */
  method GetUser(inject: bool, max: int, users: map<Id, UserInfo>, ids: seq<Id>)
    returns (r: Reply<UserInfo>)
    ensures r == Internal <==> inject
    ensures r.InvalidArgument? <==> !inject && !UserAccepts(max, ids)
    ensures r.InvalidArgument? ==> r.why == if ids == [] then Empty else TooMany(max)
    ensures !r.Internal? && !r.InvalidArgument? ==> Answers(users, ids, r)
  {
    if inject {
      return Internal;
    }
    if |ids| == 0 {
      return InvalidArgument(Empty);
    }
    if |ids| > max {
      return InvalidArgument(TooMany(max));
    }
    r := Collect(users, ids);
  }
}
