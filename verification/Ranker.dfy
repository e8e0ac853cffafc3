/** The ranker's score: a dot product over the features a user and a video share, in wrapping
    64-bit arithmetic, summed in whatever order the user's map is enumerated. */
module Ranker {
  const TWO64: nat := 0x1_0000_0000_0000_0000

  type uint64 = x: nat | x < TWO64

  function Wrap(n: nat): uint64 {
    n % TWO64
  }

  datatype FeatureId = FeatureId(id: int)

  type Coefficients = map<FeatureId, uint64>

  // The exact product for one feature; features the video lacks add nothing.
  function Term(user: Coefficients, video: Coefficients, feature: FeatureId): nat
    requires feature in user
  {
    if feature in video then (user[feature] as nat) * (video[feature] as nat) else 0
  }

  // The exact sum over a set of the user's features.
  ghost function Sum(user: Coefficients, video: Coefficients, features: set<FeatureId>): nat
    requires features <= user.Keys
  {
    if features == {} then 0
    else
      var f :| f in features;
      Term(user, video, f) + Sum(user, video, features - {f})
  }

  // Any feature may be taken out first.
  lemma {:induction false} SumWithout(user: Coefficients, video: Coefficients,
                                      features: set<FeatureId>, f: FeatureId)
    requires features <= user.Keys && f in features
    ensures Sum(user, video, features)
         == Term(user, video, f) + Sum(user, video, features - {f})
    decreases |features|
  {
    var g :| g in features && Sum(user, video, features)
                           == Term(user, video, g) + Sum(user, video, features - {g});
    if f != g {
      SumWithout(user, video, features - {g}, f);
      SumWithout(user, video, features - {f}, g);
      assert features - {g} - {f} == features - {f} - {g};
    }
  }

  // Only the shared features matter.
  lemma {:induction false} SumShared(user: Coefficients, video: Coefficients, features: set<FeatureId>)
    requires features <= user.Keys
    ensures Sum(user, video, features) == Sum(user, video, features * video.Keys)
    decreases |features|
  {
    if features <= video.Keys {
      assert features * video.Keys == features;
    } else {
      var f :| f in features && f !in video.Keys;
      SumWithout(user, video, features, f);
      SumShared(user, video, features - {f});
      assert (features - {f}) * video.Keys == features * video.Keys;
    }
  }

  function Add64(x: uint64, y: uint64): uint64 {
    Wrap(x as nat + y as nat)
  }

  function Mul64(x: uint64, y: uint64): uint64 {
    Wrap((x as nat) * (y as nat))
  }

  // The multiplication and the addition may each wrap; one wrap at the end is the same.
  lemma WrapAdd(sum: nat, product: nat)
    ensures (sum % TWO64 + product % TWO64) % TWO64 == (sum + product) % TWO64
  {
  }

  // One turn of the loop.
  function Accumulate(user: Coefficients, video: Coefficients, dotProduct: uint64, f: FeatureId)
    : uint64
    requires f in user
  {
    if f in video then Add64(dotProduct, Mul64(user[f], video[f])) else dotProduct
  }

  lemma AddsTerm(user: Coefficients, video: Coefficients, done: set<FeatureId>, f: FeatureId,
                 dotProduct: uint64)
    requires done <= user.Keys && f in user && f !in done
    requires dotProduct == Wrap(Sum(user, video, done))
    ensures Accumulate(user, video, dotProduct, f) == Wrap(Sum(user, video, done + {f}))
  {
    SumWithout(user, video, done + {f}, f);
    assert done + {f} - {f} == done;
    WrapAdd(Sum(user, video, done), Term(user, video, f));
  }

  lemma TurnAdds(user: Coefficients, video: Coefficients, left: set<FeatureId>, f: FeatureId,
                 dotProduct: uint64)
    requires left <= user.Keys && f in left
    requires dotProduct == Wrap(Sum(user, video, user.Keys - left))
    ensures Accumulate(user, video, dotProduct, f) == Wrap(Sum(user, video, user.Keys - (left - {f})))
  {
    assert user.Keys - (left - {f}) == user.Keys - left + {f};
    AddsTerm(user, video, user.Keys - left, f, dotProduct);
  }

  /** The wrapped dot product of the loop, for every order in which the loop may meet the user's
      features: the exact sum of products over the shared features, modulo 2^64. */
  method DotProduct(user: Coefficients, video: Coefficients) returns (dotProduct: uint64)
    ensures dotProduct == Wrap(Sum(user, video, user.Keys * video.Keys))
  {
    dotProduct := 0;
    var left := user.Keys;
    while left != {}
      invariant left <= user.Keys
      invariant dotProduct == Wrap(Sum(user, video, user.Keys - left))
      decreases |left|
    {
      var f :| f in left;
      TurnAdds(user, video, left, f, dotProduct);
      if f in video {
        dotProduct := Add64(dotProduct, Mul64(user[f], video[f]));
      }
      left := left - {f};
    }
    assert user.Keys - left == user.Keys;
    SumShared(user, video, user.Keys);
  }

  // The loop over one given enumeration of features.
  function Fold(user: Coefficients, video: Coefficients, order: seq<FeatureId>): uint64
    requires forall f :: f in order ==> f in user
  {
    if order == [] then 0
    else
      var f := order[|order| - 1];
      var dotProduct := Fold(user, video, order[..|order| - 1]);
      Accumulate(user, video, dotProduct, f)
  }

  ghost predicate Enumerates(order: seq<FeatureId>, features: set<FeatureId>) {
    && (forall f :: f in order <==> f in features)
    && (forall i, j :: 0 <= i < j < |order| ==> order[i] != order[j])
  }

  lemma {:induction false} FoldIsSum(user: Coefficients, video: Coefficients, order: seq<FeatureId>,
                                     features: set<FeatureId>)
    requires features <= user.Keys && Enumerates(order, features)
    ensures Fold(user, video, order) == Wrap(Sum(user, video, features))
    decreases |order|
  {
    if order != [] {
      var front, f := order[..|order| - 1], order[|order| - 1];
      assert Enumerates(front, features - {f});
      FoldIsSum(user, video, front, features - {f});
      AddsTerm(user, video, features - {f}, f, Fold(user, video, front));
      assert features - {f} + {f} == features;
    } else {
      assert features == {};
    }
  }

  /** The rank does not depend on the order in which the map is enumerated. */
  lemma OrderIsImmaterial(user: Coefficients, video: Coefficients, one: seq<FeatureId>, other: seq<FeatureId>)
    requires Enumerates(one, user.Keys) && Enumerates(other, user.Keys)
    ensures Fold(user, video, one) == Fold(user, video, other)
         == Wrap(Sum(user, video, user.Keys * video.Keys))
  {
    FoldIsSum(user, video, one, user.Keys);
    FoldIsSum(user, video, other, user.Keys);
    SumShared(user, video, user.Keys);
  }

  // The score that a user's coefficients give a video.
  ghost function Score(user: Coefficients, video: Coefficients): uint64 {
    Wrap(Sum(user, video, user.Keys * video.Keys))
  }

  lemma {:induction false} SumAgrees(user: Coefficients, video: Coefficients, user': Coefficients,
                                     video': Coefficients, features: set<FeatureId>)
    requires features <= user.Keys * video.Keys && features <= user'.Keys * video'.Keys
    requires forall f :: f in features ==> user'[f] == user[f] && video'[f] == video[f]
    ensures Sum(user, video, features) == Sum(user', video', features)
    decreases |features|
  {
    if f :| f in features {
      SumWithout(user, video, features, f);
      SumWithout(user', video', features, f);
      SumAgrees(user, video, user', video', features - {f});
    }
  }

  /** Nothing shared scores 0, and one more feature adds the product of its two coefficients to the
      score, modulo 2^64; this fixes the score of every user and video. */
  lemma FeatureAdds(user: Coefficients, video: Coefficients, f: FeatureId, x: uint64, y: uint64)
    requires f !in user && f !in video
    ensures user.Keys * video.Keys == {} ==> Score(user, video) == 0
    ensures Score(user[f := x], video[f := y]) == (Score(user, video) + x * y) % 0x1_0000_0000_0000_0000
    ensures Score(user[f := x], video) == Score(user, video) == Score(user, video[f := y])
  {
    var user', video' := user[f := x], video[f := y];
    var shared := user.Keys * video.Keys;
    assert user'.Keys * video'.Keys == shared + {f};
    assert user'.Keys * video.Keys == shared && user.Keys * video'.Keys == shared;
    SumWithout(user', video', shared + {f}, f);
    assert shared + {f} - {f} == shared;
    SumAgrees(user, video, user', video', shared);
    SumAgrees(user, video, user', video, shared);
    SumAgrees(user, video, user, video', shared);
    AddWraps(Sum(user, video, shared), x * y);
  }

  lemma AddWraps(sum: nat, product: nat)
    ensures Wrap(product + sum) == (Wrap(sum) + product) % 0x1_0000_0000_0000_0000
  {
  }
}
