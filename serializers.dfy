/**
 * The request-data side of the serializers: the field checks that `is_valid()`
 * derives from the model fields (watchlist/models.py, Django's User), the
 * shaping done by WatchListSerializer.create and .update
 * (watchlist/api/serializers.py), and the fields a client may send for a review
 * or a registration. Each field is present (`Some`) or absent (`None`) in the
 * request; a field-error map sends each offending field name to its message.
 */
module Serializers {
  import opened Wrappers
  import opened Models

  const RequiredMsg: string := "This field is required."
  const BlankMsg: string := "This field may not be blank."
  const UsernameTakenMsg: string := "A user with that username already exists."

  // Bounds of Django's User model and of URLField's default maximum length.
  const UsernameMax: nat := 150
  const EmailMax: nat := 254
  const PasswordMax: nat := 128
  const WebsiteMax: nat := 200

  function TooLongMsg(max: nat): string {
    "Ensure this field has no more than " + Decimal(max) + " characters."
  }

  function MinValueMsg(min: nat): string {
    "Ensure this value is greater than or equal to " + Decimal(min) + "."
  }

  function MaxValueMsg(max: nat): string {
    "Ensure this value is less than or equal to " + Decimal(max) + "."
  }

  /** Request data for a watch-list title (create and full update). */
  datatype TitleInput = TitleInput(
    title: Option<string>,
    storyline: Option<string>,
    platform: Option<string>,       // a platform NAME
    averageRating: Option<real>,
    numberOfRatings: Option<int>,
    active: Option<bool>)

  datatype PlatformInput = PlatformInput(name: Option<string>, about: Option<string>, website: Option<string>)

  /**
   * Request data for a review. A client may send `reviewer` and `watch_list`
   * keys; the serializer reads the first as read-only and excludes the second.
   */
  datatype ReviewInput = ReviewInput(
    ratings: Option<int>,
    description: Option<string>,
    active: Option<bool>,
    reviewer: Option<nat>,
    watchList: Option<nat>)

  datatype RegistrationInput = RegistrationInput(
    username: Option<string>,
    email: Option<string>,
    password: Option<string>,
    password2: Option<string>)

  /** The check of one character field: presence, blankness, maximum length. */
  function TextError(v: Option<string>, required: bool, allowBlank: bool, max: Option<nat>): (e: Option<string>)
    ensures v.None? ==> (e.Some? <==> required) && (required ==> e == Some(RequiredMsg))
    ensures v.Some? ==> (e.Some? <==> (v.value == [] && !allowBlank) || (max.Some? && |v.value| > max.value))
  {
    match v
    case None => if required then Some(RequiredMsg) else None
    case Some(s) =>
      if s == [] && !allowBlank then Some(BlankMsg)
      else if max.Some? && |s| > max.value then Some(TooLongMsg(max.value))
      else None
  }

  /** Text that is present, not blank and within `max` characters. */
  predicate FilledWithin(v: Option<string>, max: nat) {
    v.Some? && v.value != [] && |v.value| <= max
  }

  /** Records the error of `field`, if any. */
  function Note(errs: map<string, string>, field: string, e: Option<string>): (r: map<string, string>)
    ensures r.Keys == if e.Some? then errs.Keys + {field} else errs.Keys
    ensures e.Some? ==> r[field] == e.value
  {
    if e.Some? then errs[field := e.value] else errs
  }

  // ---- WatchListSerializer ----

  /** Field errors of a title request (every field is checked; none is partial). */
  function TitleErrors(d: TitleInput): (errs: map<string, string>)
    ensures errs.Keys <= {"title", "storyline", "platform"}
    ensures errs == map[] <==>
      FilledWithin(d.title, TitleMax) && FilledWithin(d.storyline, StorylineMax) &&
      d.platform.Some? && d.platform.value != []
    ensures d.title.None? ==> "title" in errs && errs["title"] == RequiredMsg
    ensures d.storyline.None? ==> "storyline" in errs && errs["storyline"] == RequiredMsg
  {
    var e1 := Note(map[], "title", TextError(d.title, true, false, Some(TitleMax)));
    var e2 := Note(e1, "storyline", TextError(d.storyline, true, false, Some(StorylineMax)));
    Note(e2, "platform", TextError(d.platform, true, false, None))
  }

  /**
   * What WatchListSerializer.create inserts: the platform is the one the view
   * looked up, whatever the request named; aggregates and the active flag take
   * the request's values when sent and the model defaults otherwise.
   */
  function CreatedTitle(d: TitleInput, platform: nat): (w: WatchList)
    requires d.title.Some? && d.storyline.Some?
    ensures w.platform == platform
    ensures w.title == d.title.value && w.storyline == d.storyline.value
    ensures d.averageRating.None? && d.numberOfRatings.None? && d.active.None? ==>
              w == NewWatchList(d.title.value, d.storyline.value, platform)
    ensures w.averageRating == (if d.averageRating.Some? then d.averageRating.value else 0.0)
    ensures w.numberOfRatings == (if d.numberOfRatings.Some? then d.numberOfRatings.value else 0)
    ensures d.active.Some? ==> w.active == d.active.value
    ensures d.active.None? ==> w.active
  {
    WatchList(d.title.value, d.storyline.value, platform,
              d.averageRating.GetOr(0.0), d.numberOfRatings.GetOr(0), d.active.GetOr(true))
  }

  /**
   * WatchListSerializer.update: title, storyline and active take the request's
   * value when the key is present and keep the stored one otherwise; nothing
   * else is touched.
   */
  function Merged(w: WatchList, d: TitleInput): (m: WatchList)
    ensures m.platform == w.platform
    ensures m.averageRating == w.averageRating && m.numberOfRatings == w.numberOfRatings
    ensures m.title == (if d.title.Some? then d.title.value else w.title)
    ensures m.storyline == (if d.storyline.Some? then d.storyline.value else w.storyline)
    ensures m.active == (if d.active.Some? then d.active.value else w.active)
  {
    w.(title := d.title.GetOr(w.title), storyline := d.storyline.GetOr(w.storyline),
       active := d.active.GetOr(w.active))
  }

  /** Applying the same update twice is applying it once. */
  lemma MergedIdempotent(w: WatchList, d: TitleInput)
    ensures Merged(Merged(w, d), d) == Merged(w, d)
  {
  }

  /** An update that sends all three fields erases the effect of any earlier one. */
  lemma MergedOverwrites(w: WatchList, d1: TitleInput, d2: TitleInput)
    requires d2.title.Some? && d2.storyline.Some? && d2.active.Some?
    ensures Merged(Merged(w, d1), d2) == Merged(w, d2)
  {
  }

  // ---- StreamingPlatformSerializer ----

  function PlatformErrors(d: PlatformInput): (errs: map<string, string>)
    ensures errs.Keys <= {"name", "about", "website"}
    ensures errs == map[] <==>
      FilledWithin(d.name, PlatformNameMax) && FilledWithin(d.about, PlatformAboutMax) &&
      FilledWithin(d.website, WebsiteMax)
    ensures d.website.None? ==> "website" in errs && errs["website"] == RequiredMsg
  {
    var e1 := Note(map[], "name", TextError(d.name, true, false, Some(PlatformNameMax)));
    var e2 := Note(e1, "about", TextError(d.about, true, false, Some(PlatformAboutMax)));
    Note(e2, "website", TextError(d.website, true, false, Some(WebsiteMax)))
  }

  /** The platform a valid request describes (create, and full replacement on update). */
  function PlatformOf(d: PlatformInput): (p: Platform)
    requires PlatformErrors(d) == map[]
    ensures PlatformWithinBounds(p)
    ensures p.name == d.name.value && p.about == d.about.value && p.website == d.website.value
  {
    Platform(d.name.value, d.about.value, d.website.value)
  }

  // ---- ReviewSerializer ----

  /** The rating check: required unless `partial`, and within 1..5. */
  function RatingError(v: Option<int>, partial: bool): (e: Option<string>)
    ensures e.None? <==> (if v.Some? then ValidRating(v.value) else partial)
  {
    match v
    case None => if partial then None else Some(RequiredMsg)
    case Some(r) =>
      if r < RatingMin then Some(MinValueMsg(RatingMin as nat))
      else if r > RatingMax then Some(MaxValueMsg(RatingMax as nat))
      else None
  }

  /** Field errors of a review request; `partial` is a PATCH. */
  function ReviewErrors(d: ReviewInput, partial: bool): (errs: map<string, string>)
    ensures errs.Keys <= {"ratings", "decription"}
    ensures errs == map[] <==>
      (if d.ratings.Some? then ValidRating(d.ratings.value) else partial) &&
      (d.description.Some? ==> FilledWithin(d.description, DescriptionMax))
  {
    var e1 := Note(map[], "ratings", RatingError(d.ratings, partial));
    Note(e1, "decription", TextError(d.description, false, false, Some(DescriptionMax)))
  }

  /**
   * The review that creation stores: reviewer and title come from the view,
   * never from the request; the active flag defaults to true.
   */
  function CreatedReview(d: ReviewInput, reviewer: nat, watchList: nat): (r: Review)
    requires ReviewErrors(d, false) == map[]
    ensures ReviewWithinBounds(r)
    ensures r.reviewer == reviewer && r.watchList == watchList
    ensures r.ratings == d.ratings.value && r.description == d.description
    ensures d.active.Some? ==> r.active == d.active.value
    ensures d.active.None? ==> r == NewReview(reviewer, d.ratings.value, d.description, watchList)
  {
    Review(reviewer, d.ratings.value, d.description, watchList, d.active.GetOr(true))
  }

  /**
   * The default ModelSerializer update of a review: the fields the request
   * sends are replaced; reviewer and title are kept.
   */
  function UpdatedReview(r: Review, d: ReviewInput): (u: Review)
    ensures u.reviewer == r.reviewer && u.watchList == r.watchList
    ensures u.ratings == (if d.ratings.Some? then d.ratings.value else r.ratings)
    ensures u.description == (if d.description.Some? then d.description else r.description)
    ensures u.active == (if d.active.Some? then d.active.value else r.active)
  {
    r.(ratings := d.ratings.GetOr(r.ratings),
       description := if d.description.Some? then d.description else r.description,
       active := d.active.GetOr(r.active))
  }

  /** A valid update of a valid review leaves it within bounds. */
  lemma UpdatedReviewWithinBounds(r: Review, d: ReviewInput, partial: bool)
    requires ReviewWithinBounds(r) && ReviewErrors(d, partial) == map[]
    ensures ReviewWithinBounds(UpdatedReview(r, d))
  {
  }

  // ---- RegistrationSerializer ----

  /**
   * Field errors of a registration request, given the usernames in use:
   * username, password and password_2 are required; email may be absent or
   * blank (Django's User declares it blank=True); usernames are unique.
   */
  function RegistrationErrors(d: RegistrationInput, usernames: set<string>): (errs: map<string, string>)
    ensures errs.Keys <= {"username", "email", "password", "password_2"}
    ensures d.username.None? ==> "username" in errs && errs["username"] == RequiredMsg
    ensures d.password2.None? ==> "password_2" in errs && errs["password_2"] == RequiredMsg
    ensures errs == map[] <==>
      FilledWithin(d.username, UsernameMax) && d.username.value !in usernames &&
      (d.email.Some? ==> |d.email.value| <= EmailMax) &&
      FilledWithin(d.password, PasswordMax) &&
      d.password2.Some? && d.password2.value != []
  {
    var userErr :=
      if d.username.Some? && d.username.value in usernames && TextError(d.username, true, false, Some(UsernameMax)).None?
      then Some(UsernameTakenMsg)
      else TextError(d.username, true, false, Some(UsernameMax));
    var e1 := Note(map[], "username", userErr);
    var e2 := Note(e1, "email", TextError(d.email, false, true, Some(EmailMax)));
    var e3 := Note(e2, "password", TextError(d.password, true, false, Some(PasswordMax)));
    Note(e3, "password_2", TextError(d.password2, true, false, None))
  }
}
