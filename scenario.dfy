/**
 * A client of the catalog on the fixtures of the repository's tests (platform
 * "netflix", title "dummy-movie", account "django", plus a second account):
 * two accounts review the same fresh title, the second review halves the
 * distance to its rating, and a repeated review is refused without effect.
 * In the running program the review-creation throttle answers an immediate
 * repeat before the duplicate check is reached; throttling is not modelled.
 */
module Scenario {
  import opened Wrappers
  import opened Models
  import opened Serializers
  import opened Store

  /** A catalog holding one platform and one unrated title, both under id 0. */
  method OneTitle() returns (c: Catalog)
    ensures fresh(c) && c.Valid()
    ensures 0 in c.titles && c.titles[0].numberOfRatings == 0 && c.titles[0].averageRating == 0.0
    ensures c.reviews == map[] && c.users == map[] && c.nextUser == 0
  {
    c := new Catalog();
    var p := c.CreatePlatform(PlatformInput(Some("netflix"), Some("movies and series"), Some("http://www.netflix.com")));
    assert p == Success(0);
    var t := c.CreateTitle(TitleInput(Some("dummy-movie"), Some("dummy storyline"), Some("netflix"), None, None, Some(true)));
    assert PlatformsNamed(c.platforms, "netflix") == {0};
    assert t.Success? && t.value == 0;
  }

  /** The first registration on an empty catalog succeeds as account 0. */
  method FirstAccount(c: Catalog, hash: string -> string)
    requires c.Valid() && c.users == map[] && c.nextUser == 0
    modifies c
    ensures c.Valid() && c.users.Keys == {0} && c.nextUser == 1
    ensures c.users[0].username == "django" && c.users[0].email == "django@test.com"
    ensures c.titles == old(c.titles) && c.reviews == old(c.reviews)
  {
    assert Usernames(c.users) == {};
    var u := c.Register(RegistrationInput(Some("django"), Some("django@test.com"), Some("testpass"), Some("testpass")), hash);
    assert u == Success(0);
  }

  /** A second registration with another name and email succeeds as account 1. */
  method SecondAccount(c: Catalog, hash: string -> string)
    requires c.Valid() && c.users.Keys == {0} && c.nextUser == 1
    requires c.users[0].username == "django" && c.users[0].email == "django@test.com"
    modifies c
    ensures c.Valid() && 0 in c.users && 1 in c.users
    ensures c.titles == old(c.titles) && c.reviews == old(c.reviews)
  {
    assert Usernames(c.users) == {"django"} by {
      forall n | n in Usernames(c.users) ensures n == "django" {
        var id :| id in c.users && c.users[id].username == n;
      }
    }
    assert !EmailTaken(c.users, "flask@test.com");
    var u := c.Register(RegistrationInput(Some("flask"), Some("flask@test.com"), Some("testpass"), Some("testpass")), hash);
    assert u == Success(1);
  }

  /** Ratings 4 then 2 leave an average of 3 over two reviews; a second review by the first account is refused. */
  method RateTwiceThenRepeat(c: Catalog)
    requires c.Valid() && 0 in c.titles && 0 in c.users && 1 in c.users && c.reviews == map[]
    requires c.titles[0].numberOfRatings == 0 && c.titles[0].averageRating == 0.0
    modifies c
  {
    var r1 := c.SubmitReview(0, Some(0), ReviewInput(Some(4), Some("good"), None, None, Some(7)));
    assert r1.Success?;
    assert c.titles[0].averageRating == 4.0 && c.titles[0].numberOfRatings == 1;
    assert c.reviews[r1.value].watchList == 0 && c.reviews[r1.value].active;

    var first := r1.value;
    var r2 := c.SubmitReview(0, Some(1), ReviewInput(Some(2), None, None, Some(0), None));
    assert r2.Success?;
    assert c.titles[0].averageRating == 3.0 && c.titles[0].numberOfRatings == 2;
    assert c.reviews[r2.value].reviewer == 1;

    var again := ReviewInput(Some(5), None, None, None, None);
    assert ReviewErrors(again, false) == map[];
    assert first in c.reviews && c.reviews[first].watchList == 0 && c.reviews[first].reviewer == 0;
    assert Reviewed(c.reviews, 0, 0);
    var r3 := c.SubmitReview(0, Some(0), again);
    assert r3 == Failure(Rejected(AlreadyReviewedMsg));
    assert c.titles[0].averageRating == 3.0 && c.titles[0].numberOfRatings == 2;
  }

  method TwoReviewersOneTitle(hash: string -> string)
  {
    var c := OneTitle();
    FirstAccount(c, hash);
    SecondAccount(c, hash);
    RateTwiceThenRepeat(c);
  }
}
