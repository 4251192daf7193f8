/**
 * The records of the watch-list application (watchlist/models.py): streaming
 * platforms, watch-list titles, reviews, and the accounts that write reviews.
 * Field defaults, declared length bounds, the rating range and the string
 * form of a review live here; the cascades are postconditions of the store.
 */
module Models {
  import opened Wrappers

  // Declared bounds of the model fields.
  const PlatformNameMax: nat := 20
  const PlatformAboutMax: nat := 200
  const TitleMax: nat := 50
  const StorylineMax: nat := 200
  const DescriptionMax: nat := 2000
  const RatingMin: int := 1
  const RatingMax: int := 5

  datatype Platform = Platform(name: string, about: string, website: string)

  /** A watch-list entry. `platform` is the id of the owning platform. */
  datatype WatchList = WatchList(
    title: string,
    storyline: string,
    platform: nat,
    averageRating: real,
    numberOfRatings: int,
    active: bool)

  /** A review; `reviewer` is a user id, `watchList` a title id. */
  datatype Review = Review(
    reviewer: nat,
    ratings: int,
    description: Option<string>,
    watchList: nat,
    active: bool)

  /** An account; only the result of hashing the password is kept. */
  datatype User = User(username: string, email: string, passwordHash: string)

  predicate ValidRating(r: int) {
    RatingMin <= r <= RatingMax
  }

  predicate PlatformWithinBounds(p: Platform) {
    |p.name| <= PlatformNameMax && |p.about| <= PlatformAboutMax
  }

  predicate WatchListWithinBounds(w: WatchList) {
    |w.title| <= TitleMax && |w.storyline| <= StorylineMax
  }

  predicate ReviewWithinBounds(r: Review) {
    ValidRating(r.ratings) && (r.description.Some? ==> |r.description.value| <= DescriptionMax)
  }

  /**
   * A title as the ORM creates it when the aggregates and the active flag are
   * not supplied: no ratings yet, average zero, active.
   */
  function NewWatchList(title: string, storyline: string, platform: nat): (w: WatchList)
    ensures w.numberOfRatings == 0 && w.averageRating == 0.0 && w.active
    ensures w.title == title && w.storyline == storyline && w.platform == platform
  {
    WatchList(title, storyline, platform, 0.0, 0, true)
  }

  /** A review as created when no active flag is supplied: active by default. */
  function NewReview(reviewer: nat, ratings: int, description: Option<string>, watchList: nat): (r: Review)
    ensures r.active
    ensures r.reviewer == reviewer && r.watchList == watchList && r.ratings == ratings
  {
    Review(reviewer, ratings, description, watchList, true)
  }

  // ---- Decimal rendering of non-negative integers (str(int)) ----

  function DigitChar(d: nat): (c: char)
    requires d < 10
    ensures '0' <= c <= '9'
  {
    ('0' as int + d) as char
  }

  function DigitValue(c: char): nat {
    if '0' <= c <= '9' then (c as int - '0' as int) else 0
  }

  predicate AllDigits(s: string) {
    forall i :: 0 <= i < |s| ==> '0' <= s[i] <= '9'
  }

  /** The decimal form of `n`, most significant digit first, no leading zeros. */
  function Decimal(n: nat): (s: string)
    ensures |s| >= 1 && AllDigits(s)
    ensures n < 10 <==> |s| == 1
  {
    if n < 10 then [DigitChar(n)] else Decimal(n / 10) + [DigitChar(n % 10)]
  }

  /** Reads a string of decimal digits back as a number. */
  function ParseDecimal(s: string): nat {
    if s == [] then 0 else ParseDecimal(s[..|s| - 1]) * 10 + DigitValue(s[|s| - 1])
  }

  lemma {:induction false} DecimalRoundTrip(n: nat)
    ensures ParseDecimal(Decimal(n)) == n
  {
    if n >= 10 {
      var s := Decimal(n);
      assert s[..|s| - 1] == Decimal(n / 10);
      DecimalRoundTrip(n / 10);
    }
  }

  /** Distinct numbers render differently. */
  lemma DecimalInjective(m: nat, n: nat)
    requires Decimal(m) == Decimal(n)
    ensures m == n
  {
    DecimalRoundTrip(m);
    DecimalRoundTrip(n);
  }

  /**
   * The string form of a review: "<title>| <ratings>| <reviewer>", where the
   * reviewer's string form is the account's username.
   */
  function ReviewLabel(title: string, ratings: nat, reviewer: string): (s: string)
    ensures |s| == |title| + |Decimal(ratings)| + 4 + |reviewer|
    ensures s[..|title|] == title
    ensures s[|title|..|title| + 2] == "| "
    ensures s[|title| + 2..|title| + 2 + |Decimal(ratings)|] == Decimal(ratings)
    ensures s[|s| - 2 - |reviewer|..|s| - |reviewer|] == "| "
    ensures s[|s| - |reviewer|..] == reviewer
  {
    title + "| " + Decimal(ratings) + "| " + reviewer
  }

  /** A valid rating is one digit, so a label of a valid review has a fixed shape. */
  lemma ValidRatingLabel(title: string, ratings: int, reviewer: string)
    requires ValidRating(ratings)
    ensures |ReviewLabel(title, ratings, reviewer)| == |title| + 5 + |reviewer|
    ensures ReviewLabel(title, ratings, reviewer)[|title| + 2] == DigitChar(ratings)
  {
    var s := ReviewLabel(title, ratings, reviewer);
    assert Decimal(ratings) == [DigitChar(ratings)];
    assert s[|title| + 2..|title| + 3] == [DigitChar(ratings)];
  }
}
