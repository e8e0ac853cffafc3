/** The top videos for a user: the liked videos of the users subscribed to, fetched in concurrent
    batches that complete in any order, without duplicates, ranked and cut. */
module TopVideos {
  import opened Wrappers
  import opened Services
  import opened Batching

  predicate Descending<V>(rank: V -> nat, s: seq<V>) {
    forall i, j :: 0 <= i < j < |s| ==> rank(s[i]) >= rank(s[j])
  }

  // Behind every element of at least the same rank.
  function Insert<V>(rank: V -> nat, s: seq<V>, v: V): seq<V> {
    if s == [] || rank(s[|s| - 1]) >= rank(v) then s + [v]
    else Insert(rank, s[..|s| - 1], v) + [s[|s| - 1]]
  }

  // The library's stable sort, descending by rank.
  function StableSort<V>(rank: V -> nat, s: seq<V>): seq<V> {
    if s == [] then [] else Insert(rank, StableSort(rank, s[..|s| - 1]), s[|s| - 1])
  }

  // The elements of one rank, in order.
  function OfRank<V>(rank: V -> nat, s: seq<V>, k: nat): seq<V> {
    if s == [] then []
    else OfRank(rank, s[..|s| - 1], k) + if rank(s[|s| - 1]) == k then [s[|s| - 1]] else []
  }

  lemma OfRankSnoc<V>(rank: V -> nat, s: seq<V>, v: V, k: nat)
    ensures OfRank(rank, s + [v], k) == OfRank(rank, s, k) + if rank(v) == k then [v] else []
  {
  }

  lemma DescendingSnoc<V>(rank: V -> nat, s: seq<V>, v: V)
    ensures Descending(rank, s + [v])
       <==> Descending(rank, s) && forall x :: x in s ==> rank(x) >= rank(v)
  {
    var t := s + [v];
    if Descending(rank, t) {
      forall i | 0 <= i < |s| ensures rank(s[i]) >= rank(v) {
        assert t[i] == s[i] && t[|s|] == v;
      }
      forall i, j | 0 <= i < j < |s| ensures rank(s[i]) >= rank(s[j]) {
        assert t[i] == s[i] && t[j] == s[j];
      }
    }
  }

  lemma {:induction false} InsertKeepsAll<V>(rank: V -> nat, s: seq<V>, v: V)
    ensures multiset(Insert(rank, s, v)) == multiset(s) + multiset{v}
    ensures forall x :: x in Insert(rank, s, v) <==> x in s || x == v
  {
    if s != [] {
      assert s == s[..|s| - 1] + [s[|s| - 1]];
      InsertKeepsAll(rank, s[..|s| - 1], v);
    }
  }

  lemma {:induction false} InsertSorts<V>(rank: V -> nat, s: seq<V>, v: V)
    requires Descending(rank, s)
    ensures Descending(rank, Insert(rank, s, v))
  {
    if s == [] {
    } else {
      var front, last := s[..|s| - 1], s[|s| - 1];
      assert s == front + [last];
      DescendingSnoc(rank, front, last);
      if rank(last) >= rank(v) {
        forall x | x in s ensures rank(x) >= rank(v) {
          assert x in front || x == last;
        }
        DescendingSnoc(rank, s, v);
      } else {
        InsertSorts(rank, front, v);
        InsertKeepsAll(rank, front, v);
        forall x | x in Insert(rank, front, v) ensures rank(x) >= rank(last) {
          assert x in multiset(Insert(rank, front, v));
          assert x in front || x == v;
        }
        DescendingSnoc(rank, Insert(rank, front, v), last);
        assert Insert(rank, s, v) == Insert(rank, front, v) + [last];
      }
    }
  }

  lemma {:induction false} InsertIsStable<V>(rank: V -> nat, s: seq<V>, v: V, k: nat)
    ensures OfRank(rank, Insert(rank, s, v), k) == OfRank(rank, s + [v], k)
  {
    if s != [] && rank(s[|s| - 1]) < rank(v) {
      var front, last := s[..|s| - 1], s[|s| - 1];
      assert s == front + [last];
      InsertIsStable(rank, front, v, k);
      OfRankSnoc(rank, Insert(rank, front, v), last, k);
      OfRankSwap(rank, front, last, v, k);
    }
  }

  lemma OfRankSwap<V>(rank: V -> nat, s: seq<V>, x: V, y: V, k: nat)
    requires rank(x) != rank(y)
    ensures OfRank(rank, s + [x] + [y], k)
         == OfRank(rank, s + [y], k) + if rank(x) == k then [x] else []
  {
  }

  /** The sort orders by descending rank, keeps every element, and keeps the order of elements of
      equal rank. */
  lemma {:induction false} SortIsStable<V>(rank: V -> nat, s: seq<V>)
    ensures Descending(rank, StableSort(rank, s))
    ensures multiset(StableSort(rank, s)) == multiset(s)
    ensures forall k :: OfRank(rank, StableSort(rank, s), k) == OfRank(rank, s, k)
  {
    if s != [] {
      var front, last := s[..|s| - 1], s[|s| - 1];
      assert s == front + [last];
      SortIsStable(rank, front);
      InsertSorts(rank, StableSort(rank, front), last);
      InsertKeepsAll(rank, StableSort(rank, front), last);
      forall k: nat ensures OfRank(rank, StableSort(rank, s), k) == OfRank(rank, s, k) {
        InsertIsStable(rank, StableSort(rank, front), last, k);
        OfRankSnoc(rank, StableSort(rank, front), last, k);
        OfRankSnoc(rank, front, last, k);
      }
    }
  }

  lemma {:induction false} OfRankHas<V>(rank: V -> nat, s: seq<V>, k: nat)
    ensures OfRank(rank, s, k) == [] <==> forall v :: v in s ==> rank(v) != k
  {
    if s != [] {
      OfRankHas(rank, s[..|s| - 1], k);
      assert s == s[..|s| - 1] + [s[|s| - 1]];
    }
  }

  // The elements of the last one's rank end with it.
  lemma LeastRank<V>(rank: V -> nat, s: seq<V>, x: V, t: seq<V>, y: V)
    requires Descending(rank, s + [x])
    requires forall k :: OfRank(rank, s + [x], k) == OfRank(rank, t + [y], k)
    ensures rank(x) <= rank(y)
  {
    var k := rank(y);
    DescendingSnoc(rank, s, x);
    OfRankSnoc(rank, t, y, k);
    OfRankHas(rank, s + [x], k);
    assert OfRank(rank, s + [x], k) == OfRank(rank, t + [y], k) != [];
  }

  lemma DropLast<V>(rank: V -> nat, s: seq<V>, x: V, t: seq<V>, y: V, k: nat)
    requires rank(x) == rank(y) && OfRank(rank, s + [x], k) == OfRank(rank, t + [y], k)
    ensures OfRank(rank, s, k) == OfRank(rank, t, k)
    ensures rank(x) == k ==> x == y
  {
    OfRankSnoc(rank, s, x, k);
    OfRankSnoc(rank, t, y, k);
    var (a, b) := (OfRank(rank, s, k), OfRank(rank, t, k));
    if rank(x) == k {
      assert a + [x] == b + [y];
      assert |a| == |b|;
      assert a == (a + [x])[..|a|] && b == (b + [y])[..|b|];
      assert x == (a + [x])[|a|] && y == (b + [y])[|b|];
    }
  }

  /** Any other stable descending sort gives the same list. */
  lemma {:induction false} StableSortIsUnique<V>(rank: V -> nat, s: seq<V>, t: seq<V>)
    requires Descending(rank, s) && Descending(rank, t)
    requires forall k :: OfRank(rank, s, k) == OfRank(rank, t, k)
    ensures s == t
    decreases |s|
  {
    if s == [] {
      NonEmptyToo(rank, t, s);
    } else {
      NonEmptyToo(rank, s, t);
      assert s == s[..|s| - 1] + [s[|s| - 1]] && t == t[..|t| - 1] + [t[|t| - 1]];
      FrontsMatch(rank, s[..|s| - 1], s[|s| - 1], t[..|t| - 1], t[|t| - 1]);
      StableSortIsUnique(rank, s[..|s| - 1], t[..|t| - 1]);
    }
  }

  lemma NonEmptyToo<V>(rank: V -> nat, s: seq<V>, t: seq<V>)
    requires forall k :: OfRank(rank, s, k) == OfRank(rank, t, k)
    ensures s != [] ==> t != []
  {
    if s != [] {
      OfRankHas(rank, s, rank(s[0]));
      assert OfRank(rank, t, rank(s[0])) == OfRank(rank, s, rank(s[0])) != [];
    }
  }

  lemma FrontsMatch<V>(rank: V -> nat, s: seq<V>, x: V, t: seq<V>, y: V)
    requires Descending(rank, s + [x]) && Descending(rank, t + [y])
    requires forall k :: OfRank(rank, s + [x], k) == OfRank(rank, t + [y], k)
    ensures x == y && Descending(rank, s) && Descending(rank, t)
    ensures forall k :: OfRank(rank, s, k) == OfRank(rank, t, k)
  {
    LeastRank(rank, s, x, t, y);
    LeastRank(rank, t, y, s, x);
    DescendingSnoc(rank, s, x);
    DescendingSnoc(rank, t, y);
    assert OfRank(rank, s + [x], rank(x)) == OfRank(rank, t + [y], rank(x));
    DropLast(rank, s, x, t, y, rank(x));
    forall k: nat ensures OfRank(rank, s, k) == OfRank(rank, t, k) {
      assert OfRank(rank, s + [x], k) == OfRank(rank, t + [y], k);
      DropLast(rank, s, x, t, y, k);
    }
  }

  // A list's length as the 32-bit signed integer that the limit is compared with.
  function Int32(n: nat): int {
    var m := n % 0x1_0000_0000;
    if m >= 0x8000_0000 then m - 0x1_0000_0000 else m
  }

  /** The limit is compared with the length's low 32 bits, read as a signed number. */
  lemma Int32Wraps(n: nat)
    ensures -0x8000_0000 <= Int32(n) < 0x8000_0000 && (n - Int32(n)) % 0x1_0000_0000 == 0
  {
    assert n - n % 0x1_0000_0000 == n / 0x1_0000_0000 * 0x1_0000_0000;
  }

  function Cut<V>(s: seq<V>, limit: int): seq<V> {
    if 0 < limit <= Int32(|s|) && limit <= |s| then s[..limit] else s
  }

  lemma Int32IsBelow(n: nat)
    ensures Int32(n) <= n
  {
  }

  // How many of n videos a limit leaves.
  function Kept(limit: nat, n: nat): nat {
    if 0 < limit <= Int32(n) then limit else n
  }

  /** A limit leaves min(limit, n) videos, all of them when it is 0, exactly when it is 0, at least n,
      or at most n as a 32-bit integer; so always when fewer than 2^31 videos are liked. */
  lemma KeptIsMin(limit: nat, n: nat)
    ensures Kept(limit, n) == (if limit == 0 || limit > n then n else limit)
       <==> limit == 0 || limit >= n || limit <= Int32(n)
    ensures n < 0x8000_0000 ==> Int32(n) == n
    ensures Kept(limit, n) <= n
  {
    Int32IsBelow(n);
  }

  function Ranked<V>(rank: V -> nat, videos: seq<V>, limit: int): seq<V> {
    Cut(StableSort(rank, videos), limit)
  }

  method RankVideos<V(==)>(rank: V -> nat, videos: seq<V>, limit: int) returns (ranked: seq<V>)
    ensures ranked == Ranked(rank, videos, limit)
  {
    ranked := [];
    var ranks: map<V, nat> := map[];
    for i := 0 to |videos|
      invariant ranked == videos[..i]
      invariant forall v :: v in videos[..i] ==> v in ranks
      invariant forall v :: v in ranks ==> ranks[v] == rank(v)
    {
      ranked := ranked + [videos[i]];
      ranks := ranks[videos[i] := rank(videos[i])];
    }
    assert ranked == videos;
    var ranksOf := v => if v in ranks then ranks[v] else 0;
    SameRanksSameSort(rank, ranksOf, ranked);
    ranked := StableSort(ranksOf, ranked);
    Int32IsBelow(|ranked|);
    if limit > 0 && limit <= Int32(|ranked|) {
      ranked := ranked[..limit];
    }
  }

  lemma {:induction false} SameRanksSameSort<V>(rank: V -> nat, other: V -> nat, s: seq<V>)
    requires forall v :: v in s ==> rank(v) == other(v)
    ensures StableSort(rank, s) == StableSort(other, s)
  {
    if s != [] {
      SameRanksSameSort(rank, other, s[..|s| - 1]);
      SortIsStable(rank, s[..|s| - 1]);
      var front := StableSort(rank, s[..|s| - 1]);
      forall v | v in front ensures rank(v) == other(v) {
        assert v in multiset(s[..|s| - 1]);
      }
      SameRanksSameInsert(rank, other, front, s[|s| - 1]);
    }
  }

  lemma {:induction false} SameRanksSameInsert<V>(rank: V -> nat, other: V -> nat, s: seq<V>, v: V)
    requires rank(v) == other(v) && forall x :: x in s ==> rank(x) == other(x)
    ensures Insert(rank, s, v) == Insert(other, s, v)
  {
    if s != [] {
      SameRanksSameInsert(rank, other, s[..|s| - 1], v);
    }
  }

  // `s` holds what `all` holds, best first.
  ghost predicate Arrangement<V>(rank: V -> nat, all: seq<V>, s: seq<V>) {
    Descending(rank, s) && multiset(s) == multiset(all)
  }

  // The best of `all`, best first: as many as the limit asks for, or all of them.
  ghost predicate TopOf<V(!new)>(rank: V -> nat, all: seq<V>, limit: nat, r: seq<V>) {
    && |r| == Kept(limit, |all|)
    && exists rest :: Arrangement(rank, all, r + rest)
  }

  lemma RankedIsTop<V(!new)>(rank: V -> nat, videos: seq<V>, all: seq<V>, limit: nat)
    requires multiset(videos) == multiset(all)
    ensures TopOf(rank, all, limit, Ranked(rank, videos, limit))
  {
    var s := StableSort(rank, videos);
    SortIsStable(rank, videos);
    SameLength(s, all);
    CutIsPrefix(s, limit);
    var r := Ranked(rank, videos, limit);
    assert Arrangement(rank, all, r + s[|r|..]);
  }

  lemma SameLength<T>(s: seq<T>, t: seq<T>)
    requires multiset(s) == multiset(t)
    ensures |s| == |t|
  {
    assert |s| == |multiset(s)| && |t| == |multiset(t)|;
  }

  lemma CutIsPrefix<V>(s: seq<V>, limit: nat)
    ensures |Cut(s, limit)| == Kept(limit, |s|) <= |s| && Cut(s, limit) == s[..Kept(limit, |s|)]
    ensures Cut(s, limit) + s[|Cut(s, limit)|..] == s
  {
    Int32IsBelow(|s|);
  }

  ghost predicate RanksDiffer<V(!new)>(rank: V -> nat, all: seq<V>) {
    forall x, y :: x in all && y in all && x != y ==> rank(x) != rank(y)
  }

  // How many elements have a rank above k.
  function CountAbove<V>(rank: V -> nat, s: seq<V>, k: nat): nat {
    if s == [] then 0
    else CountAbove(rank, s[..|s| - 1], k) + if rank(s[|s| - 1]) > k then 1 else 0
  }

  lemma CountAboveSnoc<V>(rank: V -> nat, s: seq<V>, v: V, k: nat)
    ensures CountAbove(rank, s + [v], k) == CountAbove(rank, s, k) + if rank(v) > k then 1 else 0
  {
    assert (s + [v])[..|s|] == s;
  }

  lemma {:induction false} CountAboveWithout<V>(rank: V -> nat, s: seq<V>, i: nat, k: nat)
    requires i < |s|
    ensures CountAbove(rank, s, k)
         == CountAbove(rank, s[..i] + s[i + 1..], k) + if rank(s[i]) > k then 1 else 0
  {
    var front, last := s[..|s| - 1], s[|s| - 1];
    if i < |front| {
      CountAboveWithout(rank, front, i, k);
      assert s[..i] + s[i + 1..] == front[..i] + front[i + 1..] + [last];
      CountAboveSnoc(rank, front[..i] + front[i + 1..], last, k);
    } else {
      assert s[..i] + s[i + 1..] == front;
    }
  }

  lemma {:induction false} CountAbovePermutes<V>(rank: V -> nat, s: seq<V>, t: seq<V>, k: nat)
    requires multiset(s) == multiset(t)
    ensures CountAbove(rank, s, k) == CountAbove(rank, t, k)
    decreases |s|
  {
    SameLength(s, t);
    if s != [] {
      var front, last := s[..|s| - 1], s[|s| - 1];
      assert s == front + [last];
      assert last in multiset(t);
      var i, rest := TakeOut(t, last);
      CountAbovePermutes(rank, front, rest, k);
      CountAboveWithout(rank, t, i, k);
    }
  }

  lemma {:induction false} CountAboveSome<V>(rank: V -> nat, s: seq<V>, k: nat, x: V)
    ensures CountAbove(rank, s, k) <= |s|
    ensures x in s && rank(x) <= k ==> CountAbove(rank, s, k) < |s|
  {
    if s != [] {
      CountAboveSome(rank, s[..|s| - 1], k, x);
      assert s == s[..|s| - 1] + [s[|s| - 1]];
    }
  }

  lemma {:induction false} CountAboveAll<V>(rank: V -> nat, s: seq<V>, k: nat)
    requires forall v :: v in s ==> rank(v) > k
    ensures CountAbove(rank, s, k) == |s|
  {
    if s != [] {
      CountAboveAll(rank, s[..|s| - 1], k);
    }
  }

  // In a descending list the elements above k come first.
  lemma {:induction false} AboveIsPrefix<V>(rank: V -> nat, s: seq<V>, i: nat, k: nat)
    requires Descending(rank, s) && i < |s|
    ensures rank(s[i]) > k <==> i < CountAbove(rank, s, k)
    ensures CountAbove(rank, s, k) <= |s|
  {
    var last := s[|s| - 1];
    CountAboveSome(rank, s[..|s| - 1], k, last);
    if rank(last) > k {
      forall v | v in s ensures rank(v) > k {
        var j :| 0 <= j < |s| && s[j] == v;
        assert rank(s[j]) >= rank(s[|s| - 1]);
      }
      CountAboveAll(rank, s, k);
    } else if i < |s| - 1 {
      AboveIsPrefix(rank, s[..|s| - 1], i, k);
    }
  }

  // Two different elements of one rank, before which fewer than n elements have to come.
  ghost predicate Tie<V(!new)>(rank: V -> nat, all: seq<V>, n: nat, x: V, y: V) {
    x in all && y in all && x != y && rank(x) == rank(y) && CountAbove(rank, all, rank(x)) < n
  }

  ghost predicate TieReaches<V(!new)>(rank: V -> nat, all: seq<V>, n: nat) {
    exists x, y :: Tie(rank, all, n, x, y)
  }

  // Ranks differ pairwise exactly when no tie reaches into the whole list.
  lemma TieReachesAll<V(!new)>(rank: V -> nat, all: seq<V>, n: nat)
    requires n <= |all|
    ensures TieReaches(rank, all, n) ==> !RanksDiffer(rank, all)
    ensures TieReaches(rank, all, |all|) <==> !RanksDiffer(rank, all)
  {
    forall x, y | x in all && y in all && x != y && rank(x) == rank(y)
      ensures Tie(rank, all, |all|, x, y)
    {
      CountAboveSome(rank, all, rank(x), x);
    }
  }

  // Two arrangements agree as far as no tie reaches.
  lemma PrefixesAgree<V(!new)>(rank: V -> nat, all: seq<V>, s: seq<V>, t: seq<V>, n: nat)
    requires Arrangement(rank, all, s) && Arrangement(rank, all, t)
    requires n <= |all| && !TieReaches(rank, all, n)
    ensures |s| == |t| == |all| && s[..n] == t[..n]
  {
    SameLength(s, all);
    SameLength(t, all);
    forall i: nat | i < n ensures s[i] == t[i] {
      SameRankAt(rank, all, s, t, i);
      assert s[i] in multiset(s) && t[i] in multiset(t);
      assert s[i] in multiset(all) && t[i] in multiset(all);
      if s[i] != t[i] {
        assert Tie(rank, all, n, s[i], t[i]);
      }
    }
  }

  lemma SameRankAt<V>(rank: V -> nat, all: seq<V>, s: seq<V>, t: seq<V>, i: nat)
    requires Arrangement(rank, all, s) && Arrangement(rank, all, t) && i < |s| == |t|
    ensures rank(s[i]) == rank(t[i]) && CountAbove(rank, all, rank(s[i])) <= i
  {
    var k, m := rank(s[i]), rank(t[i]);
    AboveIsPrefix(rank, s, i, k);
    AboveIsPrefix(rank, t, i, k);
    AboveIsPrefix(rank, s, i, m);
    AboveIsPrefix(rank, t, i, m);
    CountAbovePermutes(rank, s, all, k);
    CountAbovePermutes(rank, t, all, k);
    CountAbovePermutes(rank, s, all, m);
    CountAbovePermutes(rank, t, all, m);
  }

  /** When no tie reaches into the cut there is only one right answer. */
  lemma TopIsUnique<V(!new)>(rank: V -> nat, all: seq<V>, limit: nat, r: seq<V>, q: seq<V>)
    requires TopOf(rank, all, limit, r) && TopOf(rank, all, limit, q)
    requires !TieReaches(rank, all, Kept(limit, |all|))
    ensures r == q
  {
    var rest :| Arrangement(rank, all, r + rest);
    var qest :| Arrangement(rank, all, q + qest);
    KeptIsMin(limit, |all|);
    PrefixesAgree(rank, all, r + rest, q + qest, Kept(limit, |all|));
    assert r == (r + rest)[..|r|] && q == (q + qest)[..|q|];
  }

  // The first element of a rank stands right behind those above it.
  lemma {:induction false} FirstOfRank<V>(rank: V -> nat, s: seq<V>, k: nat)
    requires Descending(rank, s) && OfRank(rank, s, k) != []
    ensures CountAbove(rank, s, k) < |s|
    ensures s[CountAbove(rank, s, k)] == OfRank(rank, s, k)[0]
  {
    var front, last := s[..|s| - 1], s[|s| - 1];
    assert s == front + [last];
    DescendingSnoc(rank, front, last);
    OfRankHas(rank, front, k);
    if OfRank(rank, front, k) != [] {
      FirstOfRank(rank, front, k);
      assert rank(last) <= k;
    } else if front != [] {
      AboveIsPrefix(rank, front, |front| - 1, k);
    }
  }

  lemma {:induction false} OfRankCons<V>(rank: V -> nat, v: V, s: seq<V>)
    ensures OfRank(rank, [v] + s, rank(v)) == [v] + OfRank(rank, s, rank(v))
  {
    if s == [] {
      assert [v] + s == [] + [v];
      OfRankSnoc(rank, [], v, rank(v));
    } else {
      var front, last := s[..|s| - 1], s[|s| - 1];
      OfRankCons(rank, v, front);
      OfRankSnoc(rank, [v] + front, last, rank(v));
      assert [v] + s == [v] + front + [last];
    }
  }

  // Of the elements of a rank, the one that comes first in the input is first in the ranking.
  lemma RankedAt<V>(rank: V -> nat, all: seq<V>, v: V, rest: seq<V>, limit: nat)
    requires multiset([v] + rest) == multiset(all)
    requires CountAbove(rank, all, rank(v)) < Kept(limit, |all|)
    ensures var (g, r) := (CountAbove(rank, all, rank(v)), Ranked(rank, [v] + rest, limit));
            g < |r| && r[g] == v
  {
    var s := StableSort(rank, [v] + rest);
    SortIsStable(rank, [v] + rest);
    SameLength(s, all);
    CountAbovePermutes(rank, s, all, rank(v));
    OfRankCons(rank, v, rest);
    assert OfRank(rank, s, rank(v)) == OfRank(rank, [v] + rest, rank(v));
    FirstOfRank(rank, s, rank(v));
    CutIsPrefix(s, limit);
  }

  // All likes of some users, with duplicates.
  function AllLiked(users: seq<UserInfo>): seq<Id> {
    if users == [] then [] else AllLiked(users[..|users| - 1]) + users[|users| - 1].likedVideos
  }

  lemma DedupSnoc(ids: seq<Id>, x: Id)
    ensures Dedup(ids + [x]) == if x in Dedup(ids) then Dedup(ids) else Dedup(ids) + [x]
  {
  }

  // What is collected after the first i users and j likes of the next.
  function Collected(users: seq<UserInfo>, i: nat, j: nat): seq<Id>
    requires i <= |users| && (j == 0 || (i < |users| && j <= |users[i].likedVideos|))
  {
    Dedup(AllLiked(users[..i]) + if j == 0 then [] else users[i].likedVideos[..j])
  }

  lemma NextLike(users: seq<UserInfo>, i: nat, j: nat)
    requires i < |users| && j < |users[i].likedVideos|
    ensures var d, v := Collected(users, i, j), users[i].likedVideos[j];
            Collected(users, i, j + 1) == if v in d then d else d + [v]
  {
    var before, vids := AllLiked(users[..i]), users[i].likedVideos;
    DedupSnoc(before + vids[..j], vids[j]);
    assert vids[..0] == [];
    assert before + vids[..j + 1] == before + vids[..j] + [vids[j]];
  }

  lemma NextUser(users: seq<UserInfo>, i: nat)
    requires i < |users|
    ensures Collected(users, i, |users[i].likedVideos|) == Collected(users, i + 1, 0)
  {
    var vids := users[i].likedVideos;
    assert users[..i + 1][..i] == users[..i] && vids[..|vids|] == vids;
    assert AllLiked(users[..i + 1]) == AllLiked(users[..i]) + vids;
    assert AllLiked(users[..i + 1]) + [] == AllLiked(users[..i + 1]);
  }

  lemma AllCollected(users: seq<UserInfo>)
    ensures Collected(users, 0, 0) == []
    ensures Collected(users, |users|, 0) == Dedup(AllLiked(users))
  {
    assert users[..|users|] == users && AllLiked(users) + [] == AllLiked(users);
  }

  // The loops that collect the liked videos without duplicates.
  method CollectLiked(users: seq<UserInfo>) returns (liked: seq<Id>)
    ensures liked == Dedup(AllLiked(users))
  {
    AllCollected(users);
    liked := [];
    var likedMap := {};
    for i := 0 to |users|
      invariant liked == Collected(users, i, 0)
      invariant forall x :: x in likedMap <==> x in liked
    {
      var vids := users[i].likedVideos;
      for j := 0 to |vids|
        invariant liked == Collected(users, i, j)
        invariant forall x :: x in likedMap <==> x in liked
      {
        var v := vids[j];
        NextLike(users, i, j);
        if v !in likedMap {
          likedMap := likedMap + {v};
          liked := liked + [v];
        }
      }
      NextUser(users, i);
    }
  }

  lemma {:induction false} LikedHas(users: seq<UserInfo>, x: Id)
    ensures x in AllLiked(users) <==> exists u :: u in users && x in u.likedVideos
  {
    if users != [] {
      LikedHas(users[..|users| - 1], x);
      assert users == users[..|users| - 1] + [users[|users| - 1]];
    }
  }

  lemma {:induction false} DistinctMultiset(s: seq<Id>)
    requires Distinct(s)
    ensures forall x :: x in s ==> multiset(s)[x] == 1
  {
    if s != [] {
      var front, last := s[..|s| - 1], s[|s| - 1];
      assert s == front + [last];
      assert Distinct(front) by {
        assert forall i :: 0 <= i < |front| ==> front[i] == s[i];
      }
      DistinctMultiset(front);
      assert last !in multiset(front);
    }
  }

  lemma SameElementsSameMultiset(s: seq<Id>, t: seq<Id>)
    requires Distinct(s) && Distinct(t) && forall x :: x in s <==> x in t
    ensures multiset(s) == multiset(t)
  {
    DistinctMultiset(s);
    DistinctMultiset(t);
    forall x: Id ensures multiset(s)[x] == multiset(t)[x] {
      assert x in s <==> x in multiset(s);
      assert x in t <==> x in multiset(t);
    }
  }

  lemma LookupSnoc<V>(store: map<Id, V>, ids: seq<Id>, x: Id)
    requires Known(store, ids + [x])
    ensures Known(store, ids) && x in store
    ensures Lookup(store, ids + [x]) == Lookup(store, ids) + [store[x]]
  {
  }

  lemma LookupSplit<V>(store: map<Id, V>, a: seq<Id>, b: seq<Id>)
    requires Known(store, a) && Known(store, b)
    ensures Lookup(store, a + b) == Lookup(store, a) + Lookup(store, b)
  {
  }

  lemma LookupWithout<V>(store: map<Id, V>, ids: seq<Id>, k: nat)
    requires Known(store, ids) && k < |ids|
    ensures Known(store, ids[..k] + ids[k + 1..])
    ensures multiset(Lookup(store, ids))
         == multiset(Lookup(store, ids[..k] + ids[k + 1..])) + multiset{store[ids[k]]}
  {
    var r := Lookup(store, ids);
    assert r == r[..k] + [store[ids[k]]] + r[k + 1..];
    assert Lookup(store, ids[..k] + ids[k + 1..]) == r[..k] + r[k + 1..];
  }

  // Asking for the same ids in another order gives the same entries in another order.
  lemma {:induction false} LookupPermutes<V>(store: map<Id, V>, a: seq<Id>, b: seq<Id>)
    requires Known(store, a) && multiset(a) == multiset(b)
    ensures Known(store, b)
    ensures multiset(Lookup(store, a)) == multiset(Lookup(store, b))
    decreases |a|
  {
    forall x | x in b ensures x in store {
      assert x in multiset(a);
    }
    SameLength(a, b);
    if a != [] {
      var front, x := a[..|a| - 1], a[|a| - 1];
      assert a == front + [x];
      assert x in multiset(b);
      var k, rest := TakeOut(b, x);
      LookupPermutes(store, front, rest);
      LookupSnoc(store, front, x);
      LookupWithout(store, b, k);
    }
  }

  // The liked videos do not depend on the order of the users, but for their own order.
  lemma LikedPermutes(users: seq<UserInfo>, other: seq<UserInfo>)
    requires multiset(users) == multiset(other)
    ensures multiset(Dedup(AllLiked(users))) == multiset(Dedup(AllLiked(other)))
  {
    DedupKeepsAll(AllLiked(users));
    DedupKeepsAll(AllLiked(other));
    forall x ensures x in AllLiked(users) <==> x in AllLiked(other) {
      LikedHas(users, x);
      LikedHas(other, x);
      assert forall u :: u in users <==> u in multiset(users);
      assert forall u :: u in other <==> u in multiset(other);
    }
    SameElementsSameMultiset(Dedup(AllLiked(users)), Dedup(AllLiked(other)));
  }

  // The liked videos of the users subscribed to, in the order of a sequential program.
  function Liked(users: map<Id, UserInfo>, subscribedTo: seq<Id>): seq<Id>
    requires forall x :: x in subscribedTo ==> x in users
  {
    Dedup(AllLiked(Lookup(users, subscribedTo)))
  }

  // The batch sizes, and the batches of users and of videos in the order in which they complete.
  datatype Schedule = Schedule(userSize: nat, videoSize: nat, usersDone: seq<seq<Id>>,
                               videosDone: seq<seq<Id>>)

  ghost predicate Possible(s: Schedule, users: map<Id, UserInfo>, subscribedTo: seq<Id>) {
    && s.userSize >= 1 && s.videoSize >= 1
    && Completion(s.usersDone, subscribedTo, s.userSize)
    && Known(users, Flatten(s.usersDone))
    && Completion(s.videosDone, Liked(users, Flatten(s.usersDone)), s.videoSize)
  }

  /** In whatever order the batches of users and then of videos complete, and whatever the batch
      sizes, the answer is the top of the deduplicated liked videos. */
  lemma AnyScheduleIsTop<V(!new)>(rank: V -> nat, users: map<Id, UserInfo>, videos: map<Id, V>,
                                  subscribedTo: seq<Id>, limit: nat, s: Schedule)
    requires Known(users, subscribedTo) && Known(videos, Liked(users, subscribedTo))
    requires Possible(s, users, subscribedTo)
    ensures Known(videos, Flatten(s.videosDone))
    ensures TopOf(rank, Lookup(videos, Liked(users, subscribedTo)), limit,
                  Ranked(rank, Lookup(videos, Flatten(s.videosDone)), limit))
  {
    CompletionIsPermutation(s.usersDone, subscribedTo, s.userSize);
    LookupPermutes(users, subscribedTo, Flatten(s.usersDone));
    LikedPermutes(Lookup(users, subscribedTo), Lookup(users, Flatten(s.usersDone)));
    CompletionIsPermutation(s.videosDone, Liked(users, Flatten(s.usersDone)), s.videoSize);
    LookupPermutes(videos, Liked(users, subscribedTo), Flatten(s.videosDone));
    RankedIsTop(rank, Lookup(videos, Flatten(s.videosDone)),
                Lookup(videos, Liked(users, subscribedTo)), limit);
  }

  ghost predicate SameAnswer<V>(rank: V -> nat, videos: map<Id, V>, limit: nat, s: Schedule,
                                t: Schedule)
  {
    && Known(videos, Flatten(s.videosDone)) && Known(videos, Flatten(t.videosDone))
    && Ranked(rank, Lookup(videos, Flatten(s.videosDone)), limit)
    == Ranked(rank, Lookup(videos, Flatten(t.videosDone)), limit)
  }

  ghost predicate SchedulesAgree<V(!new)>(rank: V -> nat, users: map<Id, UserInfo>,
                                          videos: map<Id, V>, subscribedTo: seq<Id>, limit: nat)
  {
    forall s, t :: Possible(s, users, subscribedTo) && Possible(t, users, subscribedTo) ==>
                     SameAnswer(rank, videos, limit, s, t)
  }

  /** Schedules can be told apart exactly when a tie reaches into the cut.  Any two orders of
      completion, for any batch sizes, give the same list if and only if there are no two different
      liked videos of equal rank such that fewer videos rank above them than the limit leaves.
      Without a limit that is: if and only if ranks are pairwise distinct. */
  lemma SchedulesAgreeIff<V(!new)>(rank: V -> nat, users: map<Id, UserInfo>, videos: map<Id, V>,
                                   subscribedTo: seq<Id>, limit: nat)
    requires Known(users, subscribedTo) && Known(videos, Liked(users, subscribedTo))
    ensures var all := Lookup(videos, Liked(users, subscribedTo));
            && (SchedulesAgree(rank, users, videos, subscribedTo, limit)
                <==> !TieReaches(rank, all, Kept(limit, |all|)))
            && (limit == 0 ==>
                  (SchedulesAgree(rank, users, videos, subscribedTo, limit) <==> RanksDiffer(rank, all)))
            && (RanksDiffer(rank, all) ==> SchedulesAgree(rank, users, videos, subscribedTo, limit))
  {
    var all := Lookup(videos, Liked(users, subscribedTo));
    var n := Kept(limit, |all|);
    KeptIsMin(limit, |all|);
    TieReachesAll(rank, all, n);
    if x, y :| Tie(rank, all, n, x, y) {
      var s, t := TiesFollowTheSchedule(rank, users, videos, subscribedTo, limit, x, y);
    } else {
      forall s, t | Possible(s, users, subscribedTo) && Possible(t, users, subscribedTo)
        ensures SameAnswer(rank, videos, limit, s, t)
      {
        AnyScheduleIsTop(rank, users, videos, subscribedTo, limit, s);
        AnyScheduleIsTop(rank, users, videos, subscribedTo, limit, t);
        TopIsUnique(rank, all, limit, Ranked(rank, Lookup(videos, Flatten(s.videosDone)), limit),
                    Ranked(rank, Lookup(videos, Flatten(t.videosDone)), limit));
      }
    }
  }

  /** Of two tied videos whose tie reaches into the cut, the one whose batch completes first is
      listed first: batches of one, and two schedules, give two different lists. */
  lemma TiesFollowTheSchedule<V(!new)>(rank: V -> nat, users: map<Id, UserInfo>,
                                       videos: map<Id, V>, subscribedTo: seq<Id>, limit: nat,
                                       x: V, y: V)
    returns (s: Schedule, t: Schedule)
    requires Known(users, subscribedTo) && Known(videos, Liked(users, subscribedTo))
    requires var all := Lookup(videos, Liked(users, subscribedTo));
             Tie(rank, all, Kept(limit, |all|), x, y)
    ensures Possible(s, users, subscribedTo) && Possible(t, users, subscribedTo)
    ensures !SameAnswer(rank, videos, limit, s, t)
  {
    s := ComesFirst(rank, users, videos, subscribedTo, limit, x);
    t := ComesFirst(rank, users, videos, subscribedTo, limit, y);
  }

  // Some schedule lists x before every other liked video of its rank.
  lemma ComesFirst<V(!new)>(rank: V -> nat, users: map<Id, UserInfo>, videos: map<Id, V>,
                            subscribedTo: seq<Id>, limit: nat, x: V)
    returns (s: Schedule)
    requires Known(users, subscribedTo) && Known(videos, Liked(users, subscribedTo))
    requires var all := Lookup(videos, Liked(users, subscribedTo));
             x in all && CountAbove(rank, all, rank(x)) < Kept(limit, |all|)
    ensures Possible(s, users, subscribedTo) && Known(videos, Flatten(s.videosDone))
    ensures var all := Lookup(videos, Liked(users, subscribedTo));
            var r := Ranked(rank, Lookup(videos, Flatten(s.videosDone)), limit);
            var g := CountAbove(rank, all, rank(x));
            g < |r| && r[g] == x
  {
    var liked := Liked(users, subscribedTo);
    var order, rest := PutFirst(videos, liked, x);
    s := AnyOrderPossible(users, subscribedTo, order);
    RankedAt(rank, Lookup(videos, liked), x, rest, limit);
  }

  lemma PutFirst<V>(videos: map<Id, V>, ids: seq<Id>, x: V) returns (order: seq<Id>, rest: seq<V>)
    requires Known(videos, ids) && x in Lookup(videos, ids)
    ensures multiset(order) == multiset(ids) && Known(videos, order)
    ensures Lookup(videos, order) == [x] + rest
    ensures multiset([x] + rest) == multiset(Lookup(videos, ids))
  {
    var i :| 0 <= i < |ids| && Lookup(videos, ids)[i] == x;
    order := MoveToFront(ids, ids[i]);
    LookupPermutes(videos, ids, order);
    rest := Lookup(videos, order)[1..];
  }

  lemma MoveToFront(ids: seq<Id>, id: Id) returns (order: seq<Id>)
    requires id in ids
    ensures multiset(order) == multiset(ids) && order != [] && order[0] == id
  {
    assert id in multiset(ids);
    var k, others := TakeOut(ids, id);
    order := [id] + others;
  }

  // Batches of one can complete in any order.
  lemma AnyOrderPossible(users: map<Id, UserInfo>, subscribedTo: seq<Id>, order: seq<Id>)
    returns (s: Schedule)
    requires Known(users, subscribedTo) && multiset(order) == multiset(Liked(users, subscribedTo))
    ensures Possible(s, users, subscribedTo) && Flatten(s.videosDone) == order
  {
    s := Schedule(1, 1, Batches(subscribedTo, 1), Batches(order, 1));
    BatchesSpell(subscribedTo, 1);
    BatchesSpell(order, 1);
    SinglesPermute(Liked(users, subscribedTo), order);
  }

  lemma SinglesPermute(a: seq<Id>, b: seq<Id>)
    requires multiset(a) == multiset(b)
    ensures multiset(Batches(a, 1)) == multiset(Batches(b, 1))
  {
    var single := map x | x in a :: [x];
    LookupPermutes(single, a, b);
    BatchesOfOne(single, a);
    BatchesOfOne(single, b);
  }

  lemma BatchesOfOne(single: map<Id, seq<Id>>, ids: seq<Id>)
    requires forall x :: x in ids ==> x in single && single[x] == [x]
    ensures Batches(ids, 1) == Lookup(single, ids)
  {
    FullBatchesOfOne(single, ids, |ids|);
    assert Batches(ids, 1) == FullBatches(ids, 1, |ids|);
    assert Lookup(single, ids)[..|ids|] == Lookup(single, ids);
  }

  lemma {:induction false} FullBatchesOfOne(single: map<Id, seq<Id>>, ids: seq<Id>, n: nat)
    requires n <= |ids| && forall x :: x in ids ==> x in single && single[x] == [x]
    ensures FullBatches(ids, 1, n) == Lookup(single, ids)[..n]
  {
    if n > 0 {
      FullBatchesOfOne(single, ids, n - 1);
      assert ids[n - 1..n] == [ids[n - 1]];
    }
  }

  // One goroutine a batch; they finish in any order, and each appends what it got.
  method FetchUsers(users: map<Id, UserInfo>, max: int, ids: seq<Id>, size: nat)
    returns (infos: seq<UserInfo>)
    requires 1 <= size <= max && Known(users, ids)
    ensures multiset(infos) == multiset(Lookup(users, ids))
  {
    infos := [];
    ghost var done: seq<seq<Id>> := [];
    var issued := IssueBatches(ids, size);
    var pending := multiset(issued);
    while |pending| > 0
      invariant multiset(done) + pending == multiset(issued)
      invariant Known(users, Flatten(done)) && infos == Lookup(users, Flatten(done))
      decreases |pending|
    {
      var b :| b in pending;
      BatchIsKnown(users, ids, size, b);
      var answer := GetUser(false, max, users, b);
      FlattenSnoc(done, b);
      LookupSplit(users, Flatten(done), b);
      infos := infos + answer.infos;
      done := done + [b];
      pending := pending - multiset{b};
    }
    CompletionIsPermutation(done, ids, size);
    LookupPermutes(users, ids, Flatten(done));
  }

  method FetchVideos<V>(videos: map<Id, V>, max: int, ids: seq<Id>, size: nat)
    returns (infos: seq<V>)
    requires 1 <= size <= max && Known(videos, ids) && Distinct(ids)
    ensures multiset(infos) == multiset(Lookup(videos, ids))
  {
    infos := [];
    ghost var done: seq<seq<Id>> := [];
    var issued := IssueBatches(ids, size);
    var pending := multiset(issued);
    while |pending| > 0
      invariant multiset(done) + pending == multiset(issued)
      invariant Known(videos, Flatten(done)) && infos == Lookup(videos, Flatten(done))
      decreases |pending|
    {
      var b :| b in pending;
      BatchIsKnown(videos, ids, size, b);
      var answer := GetVideo(false, max, videos, b);
      FlattenSnoc(done, b);
      LookupSplit(videos, Flatten(done), b);
      infos := infos + answer.infos;
      done := done + [b];
      pending := pending - multiset{b};
    }
    CompletionIsPermutation(done, ids, size);
    LookupPermutes(videos, ids, Flatten(done));
  }

  lemma BatchIsKnown<V>(store: map<Id, V>, ids: seq<Id>, size: nat, b: seq<Id>)
    requires size >= 1 && Known(store, ids) && b in multiset(Batches(ids, size))
    ensures Known(store, b) && 1 <= |b| <= size
    ensures Distinct(ids) ==> Distinct(b)
  {
    assert b in Batches(ids, size);
    BatchesAreParts(ids, size, b);
    var at: nat :| Slice(b, ids, at);
    assert forall i :: 0 <= i < |b| ==> b[i] == ids[at + i];
  }

  datatype Response<V> = Response(videos: seq<V>, stale: bool)

  // What is answered when there is nothing to rank: the cache, if it may be used and is filled.
  method FallBack<V(==)>(rank: V -> nat, cache: Option<seq<V>>, limit: nat)
    returns (r: Response<V>)
    ensures r == if cache.Some? then Response(Ranked(rank, cache.value, limit), true)
                 else Response([], false)
  {
    if cache.Some? {
      var cached := RankVideos(rank, cache.value, limit);
      return Response(cached, true);
    }
    r := Response([], false);
  }

  /** A request without failures: the answer is fresh and is the top of the liked videos, for every
      order in which the batches complete; with nothing liked it is the ranked cache or empty. */
  method GetTopVideos<V(==,!new)>(
    rank: V -> nat, users: map<Id, UserInfo>, videos: map<Id, V>, maxUsers: int, maxVideos: int,
    userSize: nat, videoSize: nat, subscriber: UserInfo, cache: Option<seq<V>>, limit: nat)
    returns (r: Response<V>)
    requires Known(users, subscriber.subscribedTo)
    requires Known(videos, Liked(users, subscriber.subscribedTo))
    requires 1 <= userSize <= maxUsers && 1 <= videoSize <= maxVideos
    ensures Liked(users, subscriber.subscribedTo) == [] ==>
              r == if cache.Some? then Response(Ranked(rank, cache.value, limit), true)
                   else Response([], false)
    ensures Liked(users, subscriber.subscribedTo) != [] ==> !r.stale
    ensures Liked(users, subscriber.subscribedTo) != [] ==>
              TopOf(rank, Lookup(videos, Liked(users, subscriber.subscribedTo)), limit, r.videos)
  {
    var subscribedTo := subscriber.subscribedTo;
    if |subscribedTo| == 0 {
      r := FallBack(rank, cache, limit);
      return;
    }
    var infos := FetchUsers(users, maxUsers, subscribedTo, userSize);
    var liked := CollectLiked(infos);
    LikedPermutes(Lookup(users, subscribedTo), infos);
    SameLength(liked, Liked(users, subscribedTo));
    if |liked| == 0 {
      r := FallBack(rank, cache, limit);
      return;
    }
    DedupKeepsAll(AllLiked(infos));
    LookupPermutes(videos, Liked(users, subscribedTo), liked);
    var videosInfo := FetchVideos(videos, maxVideos, liked, videoSize);
    var ranked := RankVideos(rank, videosInfo, limit);
    RankedIsTop(rank, videosInfo, Lookup(videos, Liked(users, subscribedTo)), limit);
    r := Response(ranked, false);
  }
}
