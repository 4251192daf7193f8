/**
 * The rating aggregate of a title (average_rating, number_of_ratings) and the
 * update that review submission applies to it (watchlist/api/views.py,
 * ReviewCreate.perform_create). The first rating is adopted as it is; every
 * later one halves the distance between the stored average and the new rating.
 * This is a two-term recurrence, not a cumulative mean, and it is modelled
 * as written. Averages are exact reals.
 */
module Ratings {
  import opened Models

  datatype Aggregate = Aggregate(average: real, count: int)

  /** The aggregate of a title that has never been rated. */
  const Fresh: Aggregate := Aggregate(0.0, 0)

  function AggregateOf(w: WatchList): Aggregate {
    Aggregate(w.averageRating, w.numberOfRatings)
  }

  /**
   * The aggregate invariant: no ratings means an average of zero; once rated,
   * the average lies in the rating range.
   */
  predicate Sound(a: Aggregate) {
    && a.count >= 0
    && (a.count == 0 ==> a.average == 0.0)
    && (a.count > 0 ==> RatingMin as real <= a.average <= RatingMax as real)
  }

  /** One submission of rating `r`. */
  function Submit(a: Aggregate, r: int): (b: Aggregate)
    ensures b.count == a.count + 1
    ensures Sound(a) && ValidRating(r) ==> Sound(b)
    ensures a.count == 0 ==> b.average == r as real
    ensures a.count != 0 ==> b.average - a.average == r as real - b.average
  {
    if a.count == 0 then Aggregate(r as real, a.count + 1)
    else Aggregate((a.average + r as real) / 2.0, a.count + 1)
  }

  /**
   * A title after one review with rating `r`: the aggregate advances by
   * `Submit`; title, storyline, platform and active flag stay.
   */
  function Rated(w: WatchList, r: int): (v: WatchList)
    ensures AggregateOf(v) == Submit(AggregateOf(w), r)
    ensures v.numberOfRatings == w.numberOfRatings + 1
    ensures w.numberOfRatings == 0 ==> v.averageRating == r as real
    ensures w.numberOfRatings != 0 ==> v.averageRating == (w.averageRating + r as real) / 2.0
    ensures v.title == w.title && v.storyline == w.storyline
    ensures v.platform == w.platform && v.active == w.active
  {
    var b := Submit(AggregateOf(w), r);
    w.(averageRating := b.average, numberOfRatings := b.count)
  }

  /** The aggregate after submitting `rs` in order, starting from `a`. */
  function Replay(a: Aggregate, rs: seq<int>): Aggregate
    decreases |rs|
  {
    if rs == [] then a else Replay(Submit(a, rs[0]), rs[1..])
  }

  predicate AllValid(rs: seq<int>) {
    forall i :: 0 <= i < |rs| ==> ValidRating(rs[i])
  }

  function Sum(rs: seq<int>): int {
    if rs == [] then 0 else Sum(rs[..|rs| - 1]) + rs[|rs| - 1]
  }

  /** The cumulative mean, the reference the recurrence departs from. */
  function Mean(rs: seq<int>): real
    requires rs != []
  {
    Sum(rs) as real / |rs| as real
  }

  /** Submitting one more rating after a sequence is one more `Submit`. */
  lemma {:induction false} ReplaySnoc(a: Aggregate, rs: seq<int>, r: int)
    ensures Replay(a, rs + [r]) == Submit(Replay(a, rs), r)
    decreases |rs|
  {
    if rs != [] {
      assert (rs + [r])[1..] == rs[1..] + [r];
      ReplaySnoc(Submit(a, rs[0]), rs[1..], r);
    }
  }

  /** Soundness is kept throughout any run of valid ratings. */
  lemma {:induction false} ReplaySound(a: Aggregate, rs: seq<int>)
    requires Sound(a) && AllValid(rs)
    ensures Sound(Replay(a, rs))
    decreases |rs|
  {
    if rs != [] {
      assert ValidRating(rs[0]);
      ReplaySound(Submit(a, rs[0]), rs[1..]);
    }
  }

  /**
   * Once rated, the average never leaves the smallest interval holding the
   * starting average and every submitted rating.
   */
  lemma {:induction false} ReplayBetween(a: Aggregate, rs: seq<int>, lo: real, hi: real)
    requires a.count >= 0
    requires a.count > 0 ==> lo <= a.average <= hi
    requires forall i :: 0 <= i < |rs| ==> lo <= rs[i] as real <= hi
    requires a.count > 0 || rs != []
    ensures lo <= Replay(a, rs).average <= hi
    decreases |rs|
  {
    if rs != [] {
      assert lo <= rs[0] as real <= hi;
      ReplayBetween(Submit(a, rs[0]), rs[1..], lo, hi);
    }
  }

  /** The last rating submitted always weighs one half of the new average. */
  lemma LastWeighsHalf(rs: seq<int>, r: int)
    requires rs != []
    ensures Replay(Fresh, rs + [r]).average == (Replay(Fresh, rs).average + r as real) / 2.0
  {
    ReplaySnoc(Fresh, rs, r);
    ReplayCount(Fresh, rs);
  }

  /** Each submission counts exactly once. */
  lemma {:induction false} ReplayCount(a: Aggregate, rs: seq<int>)
    ensures Replay(a, rs).count == a.count + |rs|
    decreases |rs|
  {
    if rs != [] {
      ReplayCount(Submit(a, rs[0]), rs[1..]);
    }
  }

  /** Two sequential reviews on a fresh title: r1, then the mean of r1 and r2. */
  lemma TwoReviews(r1: int, r2: int)
    ensures Replay(Fresh, [r1]) == Aggregate(r1 as real, 1)
    ensures Replay(Fresh, [r1, r2]) == Aggregate((r1 as real + r2 as real) / 2.0, 2)
  {
    assert [r1][1..] == [] && [r1, r2][1..] == [r2] && [r2][1..] == [];
    var once := Submit(Fresh, r1);
    assert Replay(Fresh, [r1, r2]) == Replay(once, [r2]);
    assert Replay(once, [r2]) == Submit(once, r2);
  }

  /** With one or two ratings the recurrence coincides with the mean. */
  lemma AgreesWithMeanUpToTwo(rs: seq<int>)
    requires 1 <= |rs| <= 2
    ensures Replay(Fresh, rs).average == Mean(rs)
  {
    if |rs| == 1 {
      assert rs == [rs[0]];
      assert Sum(rs) == rs[0] by { assert rs[..0] == []; }
    } else {
      assert rs == [rs[0], rs[1]];
      TwoReviews(rs[0], rs[1]);
      assert Sum(rs) == rs[0] + rs[1] by { assert rs[..1] == [rs[0]]; assert rs[..1][..0] == []; }
    }
  }

  /** From three ratings on, it does not: 5, 1, 1 averages 2, not 7/3. */
  lemma NotCumulativeMean()
    ensures Replay(Fresh, [5, 1, 1]).average == 2.0
    ensures Mean([5, 1, 1]) == 7.0 / 3.0
  {
    var rs := [5, 1, 1];
    assert rs[1..] == [1, 1] && rs[1..][1..] == [1];
    assert rs[..2] == [5, 1] && rs[..2][..1] == [5] && rs[..2][..1][..0] == [];
    assert Sum([5]) == 5;
    assert Sum([5, 1]) == 6;
    assert Sum(rs) == 7;
  }

  /** Submission order matters: the same ratings in another order differ. */
  lemma OrderMatters()
    ensures Replay(Fresh, [1, 1, 5]).average == 3.0
    ensures Replay(Fresh, [5, 1, 1]).average == 2.0
  {
    assert [1, 1, 5][1..] == [1, 5] && [1, 5][1..] == [5];
    NotCumulativeMean();
  }
}
