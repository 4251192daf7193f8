/**
 * The catalog store behind the REST views: streaming platforms, watch-list
 * titles, reviews and user accounts, each a table from id to record, updated
 * in place by the handlers of watchlist/api/views.py, by the cascades that
 * watchlist/models.py declares, and by account registration
 * (movie_mate/user_app/api/serializers.py). Ids are handed out in increasing
 * order, as an auto-increment primary key does.
 */
module Store {
  import opened Wrappers
  import opened Models
  import opened Ratings
  import opened Serializers

  const MovieMissingMsg: string := "Movie does not exist"
  const PlatformMissingMsg: string := "Platform does not exist"
  const PlatformNameMissingMsg: string := "platform does not exist"
  const ReviewTitleMissingMsg: string := "Movie does not exists !"
  const AlreadyReviewedMsg: string := "You have already reviewed this movie"
  const DetailNotFoundMsg: string := "Not found."
  const PasswordMismatchMsg: string := "Password didn't match"
  const EmailTakenMsg: string := "User with the given email already exists"

  /** How a request fails. */
  datatype Failure =
    | NotFound(error: string)                  // a lookup by id or name found nothing
    | Rejected(message: string)                // a ValidationError raised with one message
    | FieldErrors(fields: map<string, string>) // is_valid() refused these fields
    | Unauthenticated                          // no logged-in caller
    | Crash(exception: string)                 // an exception the code does not catch

  // ---- Queries over the tables ----

  /** Has `user` already reviewed title `title`? */
  predicate Reviewed(reviews: map<nat, Review>, title: nat, user: nat) {
    exists id :: id in reviews && reviews[id].watchList == title && reviews[id].reviewer == user
  }

  /** At most one review per (reviewer, title) pair. */
  predicate OneReviewEach(reviews: map<nat, Review>) {
    forall i, j :: i in reviews && j in reviews && i != j ==>
      reviews[i].watchList != reviews[j].watchList || reviews[i].reviewer != reviews[j].reviewer
  }

  function TitlesOn(titles: map<nat, WatchList>, platform: nat): (ts: set<nat>)
    ensures forall id :: id in ts <==> id in titles && titles[id].platform == platform
  {
    set id | id in titles && titles[id].platform == platform
  }

  /** The reviews left once every title in `ts` is gone. */
  function ReviewsNotOn(reviews: map<nat, Review>, ts: set<nat>): (m: map<nat, Review>)
    ensures forall id :: id in m <==> id in reviews && reviews[id].watchList !in ts
    ensures forall id :: id in m ==> m[id] == reviews[id]
  {
    map id | id in reviews && reviews[id].watchList !in ts :: reviews[id]
  }

  /** The reviews left once account `user` is gone. */
  function ReviewsNotBy(reviews: map<nat, Review>, user: nat): (m: map<nat, Review>)
    ensures forall id :: id in m <==> id in reviews && reviews[id].reviewer != user
    ensures forall id :: id in m ==> m[id] == reviews[id]
  {
    map id | id in reviews && reviews[id].reviewer != user :: reviews[id]
  }

  function PlatformsNamed(platforms: map<nat, Platform>, name: string): (ids: set<nat>)
    ensures forall id :: id in ids <==> id in platforms && platforms[id].name == name
  {
    set id | id in platforms && platforms[id].name == name
  }

  function Usernames(users: map<nat, User>): (names: set<string>)
    ensures forall id :: id in users ==> users[id].username in names
  {
    set id | id in users :: users[id].username
  }

  predicate EmailTaken(users: map<nat, User>, email: string) {
    exists id :: id in users && users[id].email == email
  }

  predicate EmailsUnique(users: map<nat, User>) {
    forall i, j :: i in users && j in users && i != j ==> users[i].email != users[j].email
  }

  predicate UsernamesUnique(users: map<nat, User>) {
    forall i, j :: i in users && j in users && i != j ==> users[i].username != users[j].username
  }

  /** A new account on a table without its email keeps emails unique. */
  lemma AddUserKeepsEmailsUnique(users: map<nat, User>, id: nat, u: User)
    requires EmailsUnique(users) && id !in users && !EmailTaken(users, u.email)
    ensures EmailsUnique(users[id := u])
  {
  }

  /** A new account whose username is not in use keeps usernames unique. */
  lemma AddUserKeepsUsernamesUnique(users: map<nat, User>, id: nat, u: User)
    requires UsernamesUnique(users) && id !in users && u.username !in Usernames(users)
    ensures UsernamesUnique(users[id := u])
  {
  }

  /** Adding a review by a user who has not reviewed that title keeps one review each. */
  lemma AddReviewKeepsOneEach(reviews: map<nat, Review>, id: nat, rv: Review)
    requires OneReviewEach(reviews) && id !in reviews && !Reviewed(reviews, rv.watchList, rv.reviewer)
    ensures OneReviewEach(reviews[id := rv])
  {
  }

  /** Replacing a review by one with the same reviewer and title keeps one review each. */
  lemma ReplaceReviewKeepsOneEach(reviews: map<nat, Review>, id: nat, rv: Review)
    requires OneReviewEach(reviews) && id in reviews
    requires rv.watchList == reviews[id].watchList && rv.reviewer == reviews[id].reviewer
    ensures OneReviewEach(reviews[id := rv])
  {
  }

  /** Replacing one title by a sound one keeps every aggregate sound. */
  predicate AllSound(titles: map<nat, WatchList>) {
    forall t :: t in titles ==> Sound(AggregateOf(titles[t]))
  }

  lemma ReplaceKeepsSound(titles: map<nat, WatchList>, id: nat, w: WatchList)
    requires AllSound(titles) && Sound(AggregateOf(w))
    ensures AllSound(titles[id := w])
  {
  }

  // ---- The integrity of the tables ----

  /** Every id in `m` is below the next id to be handed out. */
  predicate Below<T>(m: map<nat, T>, next: nat) {
    forall id :: id in m ==> id < next
  }

  predicate PlatformsOk(platforms: map<nat, Platform>) {
    forall id :: id in platforms ==> PlatformWithinBounds(platforms[id])
  }

  /** Every title is within bounds and on a live platform. */
  predicate TitlesOk(titles: map<nat, WatchList>, platforms: map<nat, Platform>) {
    forall id :: id in titles ==> titles[id].platform in platforms && WatchListWithinBounds(titles[id])
  }

  /** Every account is within the username and email bounds of Django's User. */
  predicate UsersOk(users: map<nat, User>) {
    forall id :: id in users ==> |users[id].username| <= UsernameMax && |users[id].email| <= EmailMax
  }

  /** Every review is within bounds, on a live title and by a live account. */
  predicate ReviewsOk(reviews: map<nat, Review>, titles: map<nat, WatchList>, users: map<nat, User>) {
    forall id :: id in reviews ==>
      reviews[id].watchList in titles && reviews[id].reviewer in users && ReviewWithinBounds(reviews[id])
  }

  lemma BelowInsert<T>(m: map<nat, T>, next: nat, v: T)
    requires Below(m, next)
    ensures next !in m && Below(m[next := v], next + 1)
  {
  }

  lemma BelowReplace<T>(m: map<nat, T>, next: nat, k: nat, v: T)
    requires Below(m, next) && k in m
    ensures Below(m[k := v], next)
  {
  }

  /** Replacing a title by one on the same platform, within bounds, keeps the tables linked. */
  lemma ReplaceTitleKeepsLinks(platforms: map<nat, Platform>, titles: map<nat, WatchList>,
                               reviews: map<nat, Review>, users: map<nat, User>, t: nat, w: WatchList)
    requires TitlesOk(titles, platforms) && ReviewsOk(reviews, titles, users)
    requires t in titles && w.platform == titles[t].platform && WatchListWithinBounds(w)
    ensures TitlesOk(titles[t := w], platforms) && ReviewsOk(reviews, titles[t := w], users)
  {
  }

  lemma InsertTitleKeepsLinks(platforms: map<nat, Platform>, titles: map<nat, WatchList>,
                              reviews: map<nat, Review>, users: map<nat, User>, id: nat, w: WatchList)
    requires TitlesOk(titles, platforms) && ReviewsOk(reviews, titles, users)
    requires w.platform in platforms && WatchListWithinBounds(w)
    ensures TitlesOk(titles[id := w], platforms) && ReviewsOk(reviews, titles[id := w], users)
  {
  }

  lemma InsertReviewKeepsLinks(reviews: map<nat, Review>, titles: map<nat, WatchList>,
                               users: map<nat, User>, id: nat, rv: Review)
    requires ReviewsOk(reviews, titles, users)
    requires rv.watchList in titles && rv.reviewer in users && ReviewWithinBounds(rv)
    ensures ReviewsOk(reviews[id := rv], titles, users)
  {
  }

  class Catalog {
    var platforms: map<nat, Platform>
    var titles: map<nat, WatchList>
    var reviews: map<nat, Review>
    var users: map<nat, User>
    var nextPlatform: nat
    var nextTitle: nat
    var nextReview: nat
    var nextUser: nat

    /**
     * Ids lie below their counters, every reference points at a live row
     * (the cascades keep it so), and every stored record is within its
     * declared bounds (every write goes through validation).
     */
    ghost predicate Valid()
      reads this
    {
      && Below(platforms, nextPlatform) && Below(titles, nextTitle)
      && Below(reviews, nextReview) && Below(users, nextUser)
      && PlatformsOk(platforms) && TitlesOk(titles, platforms) && ReviewsOk(reviews, titles, users)
      && UsersOk(users)
    }

    /** Every title's aggregate satisfies the aggregate invariant. */
    ghost predicate AggregatesSound()
      reads this
    {
      AllSound(titles)
    }

    constructor ()
      ensures Valid() && AggregatesSound() && OneReviewEach(reviews)
      ensures platforms == map[] && titles == map[] && reviews == map[] && users == map[]
      ensures nextPlatform == 0 && nextTitle == 0 && nextReview == 0 && nextUser == 0
    {
      platforms, titles, reviews, users := map[], map[], map[], map[];
      nextPlatform, nextTitle, nextReview, nextUser := 0, 0, 0, 0;
    }

    // ---- WatchListView / WatchListDetailView ----

    /** GET of one title. */
    function GetTitle(id: nat): (r: Result<WatchList, Failure>)
      reads this
      ensures r.Success? <==> id in titles
      ensures r.Success? ==> r.value == titles[id]
      ensures r.Failure? ==> r.error == NotFound(MovieMissingMsg)
    {
      if id in titles then Success(titles[id]) else Failure(NotFound(MovieMissingMsg))
    }

    /**
     * POST of a new title: the platform is looked up by name before the
     * data is validated; the serializer then stores the looked-up platform.
     */
    method CreateTitle(d: TitleInput) returns (r: Result<nat, Failure>)
      requires Valid()
      modifies this
      ensures Valid()
      ensures nextPlatform == old(nextPlatform) && nextReview == old(nextReview) && nextUser == old(nextUser)
      ensures nextTitle == old(nextTitle) + (if r.Success? then 1 else 0)
      ensures platforms == old(platforms) && reviews == old(reviews) && users == old(users)
      ensures d.platform.None? ==> r.Failure? && r.error.Crash?
      ensures d.platform.Some? && PlatformsNamed(old(platforms), d.platform.value) == {} ==>
                r == Failure(NotFound(PlatformNameMissingMsg))
      ensures d.platform.Some? && |PlatformsNamed(old(platforms), d.platform.value)| > 1 ==>
                r.Failure? && r.error.Crash?
      ensures (d.platform.Some? && |PlatformsNamed(old(platforms), d.platform.value)| == 1 &&
               TitleErrors(d) != map[]) ==> r == Failure(FieldErrors(TitleErrors(d)))
      ensures r.Success? <==>
                d.platform.Some? && |PlatformsNamed(old(platforms), d.platform.value)| == 1 &&
                TitleErrors(d) == map[]
      ensures r.Failure? ==> titles == old(titles) && nextTitle == old(nextTitle)
      ensures r.Success? ==>
                && d.platform.Some? && TitleErrors(d) == map[]
                && r.value == old(nextTitle) && r.value !in old(titles) && r.value in titles
                && PlatformsNamed(old(platforms), d.platform.value) == {titles[r.value].platform}
                && titles == old(titles)[r.value := CreatedTitle(d, titles[r.value].platform)]
      ensures old(AggregatesSound()) && d.averageRating.None? && d.numberOfRatings.None? ==>
                AggregatesSound()
    {
      if d.platform.None? {
        return Failure(Crash("KeyError: 'platform'"));
      }
      var named := PlatformsNamed(platforms, d.platform.value);
      if named == {} {
        return Failure(NotFound(PlatformNameMissingMsg));
      }
      if |named| > 1 {
        return Failure(Crash("MultipleObjectsReturned"));
      }
      var platform :| platform in named;
      assert named == {platform} by {
        var rest := named - {platform};
        assert named == rest + {platform};
        assert |named| == |rest| + 1;
      }
      var errs := TitleErrors(d);
      if errs != map[] {
        return Failure(FieldErrors(errs));
      }
      var id := nextTitle;
      var movie := CreatedTitle(d, platform);
      InsertTitleKeepsLinks(platforms, titles, reviews, users, id, movie);
      BelowInsert(titles, id, movie);
      titles := titles[id := movie];
      nextTitle := nextTitle + 1;
      r := Success(id);
    }

    /** PUT of a title: validation, then WatchListSerializer.update. */
    method PutTitle(id: nat, d: TitleInput) returns (r: Result<WatchList, Failure>)
      requires Valid()
      modifies this
      ensures Valid()
      ensures nextPlatform == old(nextPlatform) && nextTitle == old(nextTitle) && nextReview == old(nextReview) && nextUser == old(nextUser)
      ensures platforms == old(platforms) && reviews == old(reviews) && users == old(users)
      ensures id !in old(titles) ==> r == Failure(NotFound(MovieMissingMsg))
      ensures id in old(titles) && TitleErrors(d) != map[] ==> r == Failure(FieldErrors(TitleErrors(d)))
      ensures r.Failure? ==> titles == old(titles)
      ensures r.Success? <==> id in old(titles) && TitleErrors(d) == map[]
      ensures r.Success? ==>
                id in titles && r.value == titles[id] && titles == old(titles)[id := Merged(old(titles)[id], d)]
      ensures old(AggregatesSound()) ==> AggregatesSound()
    {
      if id !in titles {
        return Failure(NotFound(MovieMissingMsg));
      }
      var errs := TitleErrors(d);
      if errs != map[] {
        return Failure(FieldErrors(errs));
      }
      var movie := titles[id];
      movie := movie.(title := d.title.GetOr(movie.title));
      movie := movie.(storyline := d.storyline.GetOr(movie.storyline));
      movie := movie.(active := d.active.GetOr(movie.active));
      assert movie == Merged(titles[id], d);
      ReplaceTitleKeepsLinks(platforms, titles, reviews, users, id, movie);
      BelowReplace(titles, nextTitle, id, movie);
      if AggregatesSound() {
        ReplaceKeepsSound(titles, id, movie);
      }
      titles := titles[id := movie];
      r := Success(movie);
    }

    /** DELETE of a title; its reviews go with it. */
    method DeleteTitle(id: nat) returns (r: Result<(), Failure>)
      requires Valid()
      modifies this
      ensures Valid()
      ensures nextPlatform == old(nextPlatform) && nextTitle == old(nextTitle) && nextReview == old(nextReview) && nextUser == old(nextUser)
      ensures platforms == old(platforms) && users == old(users)
      ensures r.Success? <==> id in old(titles)
      ensures r.Failure? ==> r.error == NotFound(MovieMissingMsg)
      ensures r.Failure? ==> titles == old(titles) && reviews == old(reviews)
      ensures r.Success? ==>
                titles == old(titles) - {id} && reviews == ReviewsNotOn(old(reviews), {id})
      ensures old(AggregatesSound()) ==> AggregatesSound()
      ensures OneReviewEach(old(reviews)) ==> OneReviewEach(reviews)
    {
      if id !in titles {
        return Failure(NotFound(MovieMissingMsg));
      }
      reviews := ReviewsNotOn(reviews, {id});
      titles := titles - {id};
      r := Success(());
    }

    // ---- StreamingPlatFormView / StreamingPlatformDetailView ----

    /** GET of one platform. */
    function GetPlatform(id: nat): (r: Result<Platform, Failure>)
      reads this
      ensures r.Success? <==> id in platforms
      ensures r.Success? ==> r.value == platforms[id]
      ensures r.Failure? ==> r.error == NotFound(PlatformMissingMsg)
    {
      if id in platforms then Success(platforms[id]) else Failure(NotFound(PlatformMissingMsg))
    }

    /** POST of a new platform. */
    method CreatePlatform(d: PlatformInput) returns (r: Result<nat, Failure>)
      requires Valid()
      modifies this
      ensures Valid()
      ensures nextTitle == old(nextTitle) && nextReview == old(nextReview) && nextUser == old(nextUser)
      ensures nextPlatform == old(nextPlatform) + (if r.Success? then 1 else 0)
      ensures titles == old(titles) && reviews == old(reviews) && users == old(users)
      ensures r.Failure? <==> PlatformErrors(d) != map[]
      ensures r.Failure? ==> r.error == FieldErrors(PlatformErrors(d)) && platforms == old(platforms)
      ensures r.Success? ==>
                r.value == old(nextPlatform) && r.value !in old(platforms) &&
                platforms == old(platforms)[r.value := PlatformOf(d)]
    {
      var errs := PlatformErrors(d);
      if errs != map[] {
        return Failure(FieldErrors(errs));
      }
      var id := nextPlatform;
      platforms := platforms[id := PlatformOf(d)];
      nextPlatform := nextPlatform + 1;
      r := Success(id);
    }

    /** PUT of a platform: every field is replaced; its titles stay with it. */
    method PutPlatform(id: nat, d: PlatformInput) returns (r: Result<Platform, Failure>)
      requires Valid()
      modifies this
      ensures Valid()
      ensures nextPlatform == old(nextPlatform) && nextTitle == old(nextTitle) && nextReview == old(nextReview) && nextUser == old(nextUser)
      ensures titles == old(titles) && reviews == old(reviews) && users == old(users)
      ensures id !in old(platforms) ==> r == Failure(NotFound(PlatformMissingMsg))
      ensures id in old(platforms) && PlatformErrors(d) != map[] ==>
                r == Failure(FieldErrors(PlatformErrors(d)))
      ensures r.Failure? ==> platforms == old(platforms)
      ensures r.Success? <==> id in old(platforms) && PlatformErrors(d) == map[]
      ensures r.Success? ==> r.value == PlatformOf(d) && platforms == old(platforms)[id := r.value]
    {
      if id !in platforms {
        return Failure(NotFound(PlatformMissingMsg));
      }
      var errs := PlatformErrors(d);
      if errs != map[] {
        return Failure(FieldErrors(errs));
      }
      var p := PlatformOf(d);
      platforms := platforms[id := p];
      r := Success(p);
    }

    /** DELETE of a platform: its titles go, and with them their reviews. */
    method DeletePlatform(id: nat) returns (r: Result<(), Failure>)
      requires Valid()
      modifies this
      ensures Valid()
      ensures nextPlatform == old(nextPlatform) && nextTitle == old(nextTitle) && nextReview == old(nextReview) && nextUser == old(nextUser)
      ensures users == old(users)
      ensures r.Success? <==> id in old(platforms)
      ensures r.Failure? ==> r.error == NotFound(PlatformMissingMsg)
      ensures r.Failure? ==>
                platforms == old(platforms) && titles == old(titles) && reviews == old(reviews)
      ensures r.Success? ==>
                && platforms == old(platforms) - {id}
                && titles == old(titles) - TitlesOn(old(titles), id)
                && reviews == ReviewsNotOn(old(reviews), TitlesOn(old(titles), id))
      ensures old(AggregatesSound()) ==> AggregatesSound()
      ensures OneReviewEach(old(reviews)) ==> OneReviewEach(reviews)
    {
      if id !in platforms {
        return Failure(NotFound(PlatformMissingMsg));
      }
      var gone := TitlesOn(titles, id);
      reviews := ReviewsNotOn(reviews, gone);
      titles := titles - gone;
      platforms := platforms - {id};
      r := Success(());
    }

    // ---- ReviewCreate / ReviewList / ReviewDetail ----

    /**
     * POST of a review for title `titleId` by `caller` (None when nobody is
     * logged in). After authentication and field validation come, in order:
     * the title lookup, the one-review-per-user check, the aggregate update,
     * the count increment and the insertion of the review.
     */
    method SubmitReview(titleId: nat, caller: Option<nat>, d: ReviewInput) returns (r: Result<nat, Failure>)
      requires Valid()
      requires caller.Some? ==> caller.value in users
      modifies this
      ensures Valid()
      ensures nextPlatform == old(nextPlatform) && nextTitle == old(nextTitle) && nextUser == old(nextUser)
      ensures nextReview == old(nextReview) + (if r.Success? then 1 else 0)
      ensures platforms == old(platforms) && users == old(users)
      ensures caller.None? ==> r == Failure(Unauthenticated)
      ensures caller.Some? && ReviewErrors(d, false) != map[] ==>
                r == Failure(FieldErrors(ReviewErrors(d, false)))
      ensures caller.Some? && ReviewErrors(d, false) == map[] && titleId !in old(titles) ==>
                r == Failure(Rejected(ReviewTitleMissingMsg))
      ensures caller.Some? && ReviewErrors(d, false) == map[] && titleId in old(titles) &&
              Reviewed(old(reviews), titleId, caller.value) ==>
                r == Failure(Rejected(AlreadyReviewedMsg))
      ensures r.Success? <==>
                caller.Some? && ReviewErrors(d, false) == map[] && titleId in old(titles) &&
                !Reviewed(old(reviews), titleId, caller.value)
      ensures r.Failure? ==>
                titles == old(titles) && reviews == old(reviews) && nextReview == old(nextReview)
      ensures r.Success? ==>
                && r.value == old(nextReview) && r.value !in old(reviews)
                && reviews == old(reviews)[r.value := CreatedReview(d, caller.value, titleId)]
                && reviews[r.value].reviewer == caller.value
                && reviews[r.value].watchList == titleId
                && titles == old(titles)[titleId := Rated(old(titles)[titleId], d.ratings.value)]
      ensures old(AggregatesSound()) ==> AggregatesSound()
      ensures OneReviewEach(old(reviews)) ==> OneReviewEach(reviews)
    {
      if caller.None? {
        return Failure(Unauthenticated);
      }
      var errs := ReviewErrors(d, false);
      if errs != map[] {
        return Failure(FieldErrors(errs));
      }
      if titleId !in titles {
        return Failure(Rejected(ReviewTitleMissingMsg));
      }
      var user := caller.value;
      if Reviewed(reviews, titleId, user) {
        return Failure(Rejected(AlreadyReviewedMsg));
      }
      Rate(titleId, d.ratings.value);
      var id := InsertReview(CreatedReview(d, user, titleId));
      r := Success(id);
    }

    /**
     * The aggregate update of review creation and the save of the title:
     * the first rating is adopted, a later one is averaged with the stored
     * average, and the count goes up by one.
     */
    method Rate(titleId: nat, rating: int)
      requires Valid() && titleId in titles && ValidRating(rating)
      modifies this
      ensures Valid()
      ensures nextPlatform == old(nextPlatform) && nextTitle == old(nextTitle) && nextReview == old(nextReview) && nextUser == old(nextUser)
      ensures platforms == old(platforms) && reviews == old(reviews) && users == old(users)
      ensures titles == old(titles)[titleId := Rated(old(titles)[titleId], rating)]
      ensures old(AggregatesSound()) ==> AggregatesSound()
    {
      var watchList := titles[titleId];
      var average: real;
      if watchList.numberOfRatings == 0 {
        average := rating as real;
      } else {
        average := (watchList.averageRating + rating as real) / 2.0;
      }
      var count := watchList.numberOfRatings + 1;
      watchList := watchList.(averageRating := average, numberOfRatings := count);
      assert watchList == Rated(titles[titleId], rating);
      if AggregatesSound() {
        ReplaceKeepsSound(titles, titleId, watchList);
      }
      ReplaceTitleKeepsLinks(platforms, titles, reviews, users, titleId, watchList);
      BelowReplace(titles, nextTitle, titleId, watchList);
      titles := titles[titleId := watchList];
    }

    /** The insertion of a new review row under the next id. */
    method InsertReview(review: Review) returns (id: nat)
      requires Valid()
      requires review.watchList in titles && review.reviewer in users && ReviewWithinBounds(review)
      modifies this
      ensures Valid()
      ensures nextPlatform == old(nextPlatform) && nextTitle == old(nextTitle) && nextUser == old(nextUser) && nextReview == old(nextReview) + 1
      ensures platforms == old(platforms) && titles == old(titles) && users == old(users)
      ensures id == old(nextReview) && id !in old(reviews)
      ensures reviews == old(reviews)[id := review]
      ensures OneReviewEach(old(reviews)) && !Reviewed(old(reviews), review.watchList, review.reviewer) ==>
                OneReviewEach(reviews)
    {
      id := nextReview;
      if OneReviewEach(reviews) && !Reviewed(reviews, review.watchList, review.reviewer) {
        AddReviewKeepsOneEach(reviews, id, review);
      }
      InsertReviewKeepsLinks(reviews, titles, users, id, review);
      BelowInsert(reviews, id, review);
      reviews := reviews[id := review];
      nextReview := nextReview + 1;
    }

    /** GET of the reviews of a title; a missing title simply has none. */
    function ReviewsOf(titleId: nat): (m: map<nat, Review>)
      reads this
      ensures forall id :: id in m <==> id in reviews && reviews[id].watchList == titleId
      ensures forall id :: id in m ==> m[id] == reviews[id]
      ensures titleId !in titles && Valid() ==> m == map[]
    {
      map id | id in reviews && reviews[id].watchList == titleId :: reviews[id]
    }

    /**
     * The string form of a stored review: its title's name, its rating and
     * its author's username, read through the review's two references.
     */
    function Label(id: nat): (s: string)
      requires Valid() && id in reviews
      reads this
      ensures var t := titles[reviews[id].watchList].title;
              var u := users[reviews[id].reviewer].username;
              && |s| == |t| + 5 + |u|
              && s[..|t|] == t
              && s[|t|..|t| + 2] == "| " && s[|t| + 2] == DigitChar(reviews[id].ratings)
              && s[|t| + 3..|t| + 5] == "| "
              && s[|s| - |u|..] == u
    {
      var review := reviews[id];
      var t := titles[review.watchList].title;
      var u := users[review.reviewer].username;
      ValidRatingLabel(t, review.ratings, u);
      ReviewLabel(t, review.ratings, u)
    }

    /** GET of one review. */
    function GetReview(id: nat): (r: Result<Review, Failure>)
      reads this
      ensures r.Success? <==> id in reviews
      ensures r.Success? ==> r.value == reviews[id]
      ensures r.Failure? ==> r.error == NotFound(DetailNotFoundMsg)
    {
      if id in reviews then Success(reviews[id]) else Failure(NotFound(DetailNotFoundMsg))
    }

    /**
     * PUT (or, with `partial`, PATCH) of a review. Reviewer and title cannot
     * change, and the title's aggregate is not recomputed.
     */
    method UpdateReview(id: nat, d: ReviewInput, partial: bool) returns (r: Result<Review, Failure>)
      requires Valid()
      modifies this
      ensures Valid()
      ensures nextPlatform == old(nextPlatform) && nextTitle == old(nextTitle) && nextReview == old(nextReview) && nextUser == old(nextUser)
      ensures platforms == old(platforms) && titles == old(titles) && users == old(users)
      ensures id !in old(reviews) ==> r == Failure(NotFound(DetailNotFoundMsg))
      ensures id in old(reviews) && ReviewErrors(d, partial) != map[] ==>
                r == Failure(FieldErrors(ReviewErrors(d, partial)))
      ensures r.Failure? ==> reviews == old(reviews)
      ensures r.Success? <==> id in old(reviews) && ReviewErrors(d, partial) == map[]
      ensures r.Success? ==>
                id in reviews && r.value == reviews[id] && reviews == old(reviews)[id := UpdatedReview(old(reviews)[id], d)]
      ensures OneReviewEach(old(reviews)) ==> OneReviewEach(reviews)
    {
      if id !in reviews {
        return Failure(NotFound(DetailNotFoundMsg));
      }
      var errs := ReviewErrors(d, partial);
      if errs != map[] {
        return Failure(FieldErrors(errs));
      }
      UpdatedReviewWithinBounds(reviews[id], d, partial);
      var review := UpdatedReview(reviews[id], d);
      InsertReviewKeepsLinks(reviews, titles, users, id, review);
      BelowReplace(reviews, nextReview, id, review);
      if OneReviewEach(reviews) {
        ReplaceReviewKeepsOneEach(reviews, id, review);
      }
      reviews := reviews[id := review];
      r := Success(review);
    }

    /** DELETE of a review; the title's aggregate is not recomputed. */
    method DeleteReview(id: nat) returns (r: Result<(), Failure>)
      requires Valid()
      modifies this
      ensures Valid()
      ensures nextPlatform == old(nextPlatform) && nextTitle == old(nextTitle) && nextReview == old(nextReview) && nextUser == old(nextUser)
      ensures platforms == old(platforms) && titles == old(titles) && users == old(users)
      ensures r.Success? <==> id in old(reviews)
      ensures r.Failure? ==> r.error == NotFound(DetailNotFoundMsg) && reviews == old(reviews)
      ensures r.Success? ==> reviews == old(reviews) - {id}
      ensures OneReviewEach(old(reviews)) ==> OneReviewEach(reviews)
    {
      if id !in reviews {
        return Failure(NotFound(DetailNotFoundMsg));
      }
      reviews := reviews - {id};
      r := Success(());
    }

    // ---- Accounts ----

    /** Deleting an account deletes every review it wrote; aggregates stay as they were. */
    method DeleteUser(id: nat)
      requires Valid() && id in users
      modifies this
      ensures Valid()
      ensures nextPlatform == old(nextPlatform) && nextTitle == old(nextTitle) && nextReview == old(nextReview) && nextUser == old(nextUser)
      ensures platforms == old(platforms) && titles == old(titles)
      ensures users == old(users) - {id}
      ensures reviews == ReviewsNotBy(old(reviews), id)
      ensures OneReviewEach(old(reviews)) ==> OneReviewEach(reviews)
    {
      reviews := ReviewsNotBy(reviews, id);
      users := users - {id};
    }

    /**
     * RegistrationSerializer.save, after is_valid(): the email is read first
     * (absent, it raises KeyError), then the passwords are compared, then the
     * email is looked up, and only then is the account inserted, holding
     * `hash` of the password and nothing of the confirmation.
     */
    method Register(d: RegistrationInput, hash: string -> string) returns (r: Result<nat, Failure>)
      requires Valid()
      modifies this
      ensures Valid()
      ensures nextPlatform == old(nextPlatform) && nextTitle == old(nextTitle) && nextReview == old(nextReview)
      ensures nextUser == old(nextUser) + (if r.Success? then 1 else 0)
      ensures platforms == old(platforms) && titles == old(titles) && reviews == old(reviews)
      ensures RegistrationErrors(d, Usernames(old(users))) != map[] ==>
                r == Failure(FieldErrors(RegistrationErrors(d, Usernames(old(users)))))
      ensures RegistrationErrors(d, Usernames(old(users))) == map[] && d.email.None? ==>
                r.Failure? && r.error.Crash?
      ensures RegistrationErrors(d, Usernames(old(users))) == map[] && d.email.Some? &&
              d.password2.value != d.password.value ==>
                r == Failure(Rejected(PasswordMismatchMsg))
      ensures RegistrationErrors(d, Usernames(old(users))) == map[] && d.email.Some? &&
              d.password2.value == d.password.value && EmailTaken(old(users), d.email.value) ==>
                r == Failure(Rejected(EmailTakenMsg))
      ensures r.Success? <==>
                RegistrationErrors(d, Usernames(old(users))) == map[] && d.email.Some? &&
                d.password2 == d.password && !EmailTaken(old(users), d.email.value)
      ensures r.Failure? ==> users == old(users) && nextUser == old(nextUser)
      ensures r.Success? ==>
                && r.value == old(nextUser) && r.value !in old(users)
                && users == old(users)[r.value := User(d.username.value, d.email.value, hash(d.password.value))]
      ensures EmailsUnique(old(users)) ==> EmailsUnique(users)
      ensures UsernamesUnique(old(users)) ==> UsernamesUnique(users)
    {
      var errs := RegistrationErrors(d, Usernames(users));
      if errs != map[] {
        return Failure(FieldErrors(errs));
      }
      if d.email.None? {
        return Failure(Crash("KeyError: 'email'"));
      }
      var email := d.email.value;
      var password := d.password.value;
      if d.password2.value != password {
        return Failure(Rejected(PasswordMismatchMsg));
      }
      if EmailTaken(users, email) {
        return Failure(Rejected(EmailTakenMsg));
      }
      var account := User(d.username.value, email, hash(password));
      var id := nextUser;
      if EmailsUnique(users) {
        AddUserKeepsEmailsUnique(users, id, account);
      }
      if UsernamesUnique(users) {
        AddUserKeepsUsernamesUnique(users, id, account);
      }
      users := users[id := account];
      nextUser := nextUser + 1;
      r := Success(id);
    }
  }
}
