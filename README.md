# movie_mate catalog model

A Dafny model of the business logic in the movie_mate REST backend. The
backend keeps:

- streaming platforms;
- watch-list titles, each on one platform and carrying a rating aggregate (`average_rating`, `number_of_ratings`);
- reviews, one per account and title;
- user accounts.

Each table maps an id to a record. The model keeps the four tables in
one class, `Store.Catalog`. Its methods are the view handlers, changing the tables in place:

- create, get, put and delete of titles and platforms;
- review submission, listing, update and delete;
- account registration;
- the cascades the data model declares.

The predicate `Catalog.Valid` holds after every handler. It states three things:

- ids lie below their auto-increment counters;
- every foreign key points at a live row;
- every platform, title and review is within the bounds watchlist/models.py declares, and every account within the username and email bounds of Django's `User`.

Modules:

- `Wrappers`: `Option` and `Result`.
- `Models`: the records, their declared bounds and defaults, and the string form of a review (title, rating and reviewer joined by a bar and a space), with a proved decimal rendering.
- `Ratings`: the rating aggregate and the update that review submission applies. The first rating is adopted as it is. Each later rating `r` sets the average to `(average + r) / 2`, a two-term recurrence and not a cumulative mean. The module proves:
  - the aggregate invariant ("no ratings ⇒ average 0", "rated ⇒ 1 ≤ average ≤ 5") over any run of valid ratings;
  - agreement with the mean for one or two ratings;
  - disagreement from three ratings on (5, 1, 1 averages 2, the mean is 7/3);
  - that submission order matters.
- `Serializers`: the field checks that `is_valid()` applies (presence, blankness, maximum length, the rating range 1..5, unique usernames), and the shaping done by `WatchListSerializer.create` and `.update` and by the review serializer.
- `Store`: the `Catalog` class and the table predicates its handlers preserve: one review per account and title, unique emails and usernames, and sound aggregates.
- `LegacyValidators`: `MovieSerializer.validate` and `validate_name` of the older `movie_mate/watchlist` application.
- `Scenario`: a client run of the catalog on the fixtures of the repository's tests (platform `netflix`, title `dummy-movie`, account `django`), plus a second account `flask`. The two accounts rate the fresh title 4 and 2, which leaves an average of 3 over two ratings. A second review by the first account is then refused as a duplicate and leaves the aggregate unchanged. In the running program the review-creation throttle (see "## Left out") answers an immediate repeat before the duplicate check is reached.

The model keeps these behaviours of the code:

- A review for a missing title raises a validation error "Movie does not exists !" (watchlist/api/views.py:179-182). It is not a not-found "Movie does not exist". The rating is validated before the title is looked up.
- The review serializer exposes `active`, so a client may create an inactive review. Only when the flag is absent does the model default of true apply.
- `WatchListSerializer` has `fields = "__all__"`, so a client creating a title may supply `average_rating` and `number_of_ratings`. Sound aggregates are therefore not a store invariant. Instead, `AggregatesSound` is preserved by every handler and established by creation when the client leaves both aggregates out.
- Platform names are not unique. A title whose platform name matches several platforms fails with the ORM's `MultipleObjectsReturned`, an uncaught exception (`Crash`).
- Django's `User.email` is `blank=True`, so registration without an email passes validation. `save()` then raises `KeyError` (`Crash`).
- Review update and delete do not recompute the title's aggregate. Deleting an account or a review therefore leaves the aggregate as it was.

## Model

| member | source | states |
|---|---|---|
| Models.NewWatchList | watchlist/models.py:25-27 | a title created without aggregates has no ratings, average 0 and is active |
| Models.NewReview | watchlist/models.py:45 | a review created without an active flag is active |
| Models.ReviewLabel | watchlist/models.py:49-50 | the string form is the title, a bar and a space, the decimal rating, a bar and a space, then the reviewer's name, each piece at its position |
| Models.DecimalRoundTrip | watchlist/models.py:50 | the decimal rendering of a rating reads back as the same number |
| Models.DecimalInjective | watchlist/models.py:50 | distinct ratings render differently |
| Models.ValidRatingLabel | watchlist/models.py:36-50 | a rating in 1..5 renders as one digit, so the label has a fixed length and the digit at a fixed place |
| Ratings.Submit | watchlist/api/views.py:191-198 | the count goes up by one; a first rating is adopted; a later one is the midpoint of old average and rating; a sound aggregate stays sound under a valid rating |
| Ratings.Rated | watchlist/api/views.py:191-199 | the saved title's aggregate is one `Submit` on its old aggregate; title, storyline, platform and active flag are kept |
| Ratings.ReplaySnoc | watchlist/api/views.py:191-198 | submitting one more rating after a run is one more `Submit` |
| Ratings.ReplaySound | watchlist/api/views.py:191-198 | over any run of valid ratings from a sound aggregate, the invariant "count 0 ⇒ average 0, count > 0 ⇒ 1 ≤ average ≤ 5" holds |
| Ratings.ReplayBetween | watchlist/api/views.py:191-198 | the average never leaves an interval holding the starting average and every rating |
| Ratings.ReplayCount | watchlist/api/views.py:198 | every submission counts exactly once |
| Ratings.LastWeighsHalf | watchlist/api/views.py:193-197 | the last rating always makes up half of the new average |
| Ratings.TwoReviews | watchlist/api/views.py:191-198 | a fresh title rated r1 has average r1; then rated r2, the mean of both, with count 2 |
| Ratings.AgreesWithMeanUpToTwo | watchlist/api/views.py:191-197 | with one or two ratings the average equals the cumulative mean |
| Ratings.NotCumulativeMean | watchlist/api/views.py:193-197 | ratings 5, 1, 1 give an average of 2 while their mean is 7/3 |
| Ratings.OrderMatters | watchlist/api/views.py:193-197 | ratings 1, 1, 5 give 3 and 5, 1, 1 give 2: the result depends on order |
| Serializers.TitleErrors | watchlist/api/serializers.py:14-19 | a title request is valid exactly when title (≤ 50) and storyline (≤ 200) are present and non-blank and a platform name is given; a missing title or storyline is reported as required |
| Serializers.CreatedTitle | watchlist/api/serializers.py:21-24 | the created title is on the looked-up platform, whatever the request named; each aggregate and the active flag take the request's value when sent, and independently of the others, an omitted average is 0, an omitted count is 0 and an omitted flag is true |
| Serializers.Merged | watchlist/api/serializers.py:26-33 | title, storyline and active take the request's value when present and keep the old one when absent; platform and aggregates never change |
| Serializers.MergedIdempotent | watchlist/api/serializers.py:26-33 | applying the same update twice equals applying it once |
| Serializers.MergedOverwrites | watchlist/api/serializers.py:26-31 | an update sending all three fields erases any earlier update |
| Serializers.PlatformErrors | watchlist/models.py:8-11 | a platform request is valid exactly when name (≤ 20), about (≤ 200) and website (≤ 200) are present and non-blank |
| Serializers.PlatformOf | watchlist/api/serializers.py:36-41 | the stored platform holds the request's fields and is within the declared bounds |
| Serializers.RatingError | watchlist/models.py:36-38 | a rating passes exactly when it lies in 1..5, or is absent on a partial update |
| Serializers.ReviewErrors | watchlist/models.py:36-39 | a review request is valid exactly when its rating passes and any description is non-blank and at most 2000 characters |
| Serializers.CreatedReview | watchlist/api/serializers.py:6-11 | the stored review has the view's reviewer and title, never the request's; it is within bounds; a sent active flag is stored as sent, an omitted one is true |
| Serializers.UpdatedReview | watchlist/api/serializers.py:6-11 | an update replaces the fields sent and never the reviewer or the title |
| Serializers.UpdatedReviewWithinBounds | watchlist/models.py:36-39 | a valid update of a valid review stays within bounds |
| Serializers.RegistrationErrors | movie_mate/user_app/api/serializers.py:7-17 | registration data is valid exactly when the username is present, non-blank, ≤ 150 and unused; any email is ≤ 254; the password is present, non-blank and ≤ 128; password_2 is present and non-blank; a missing username or password_2 is reported as required |
| Store.AddUserKeepsEmailsUnique | movie_mate/user_app/api/serializers.py:25-33 | adding an account whose email is not in use keeps emails unique |
| Store.AddUserKeepsUsernamesUnique | movie_mate/user_app/api/serializers.py:12-14 | adding an account whose username is not in use keeps usernames unique |
| Store.AddReviewKeepsOneEach | watchlist/api/views.py:184-201 | adding a review for a pair not yet reviewed keeps one review per account and title |
| Store.ReplaceReviewKeepsOneEach | watchlist/api/views.py:213-215 | replacing a review by one with the same reviewer and title keeps one review per pair |
| Store.ReplaceKeepsSound | watchlist/api/views.py:191-199 | saving a title with a sound aggregate keeps every aggregate sound |
| Store.Catalog.constructor | watchlist/models.py:8-50 | the catalog starts with empty tables and zero counters, valid |
| Store.Catalog.GetTitle | watchlist/api/views.py:60-70 | a stored title is returned; a missing id gives "Movie does not exist" |
| Store.Catalog.CreateTitle | watchlist/api/views.py:33-53 | a missing platform name gives "platform does not exist" and adds nothing; the name is looked up before the data is validated; success adds exactly the created title under the next id on the named platform, and only then |
| Store.Catalog.PutTitle | watchlist/api/views.py:72-88 | a missing id gives "Movie does not exist", invalid data its field errors, both changing nothing; success replaces only that title by the field merge |
| Store.Catalog.DeleteTitle | watchlist/api/views.py:90-100 | a missing id gives "Movie does not exist" and changes nothing; success removes that title and its reviews only |
| Store.Catalog.GetPlatform | watchlist/api/views.py:124-134 | a stored platform is returned; a missing id gives "Platform does not exist" |
| Store.Catalog.CreatePlatform | watchlist/api/views.py:112-117 | invalid data gives its field errors and adds nothing; valid data adds exactly that platform under the next id |
| Store.Catalog.PutPlatform | watchlist/api/views.py:136-154 | a missing id gives "Platform does not exist", invalid data its field errors, both changing nothing; success replaces only that platform, and its titles stay |
| Store.Catalog.DeletePlatform | watchlist/api/views.py:156-166 | a missing id changes nothing; success removes the platform, every title on it and every review of those titles, and nothing else |
| Store.Catalog.SubmitReview | watchlist/api/views.py:177-201 | no caller, invalid data, a missing title ("Movie does not exists !") and a repeated review ("You have already reviewed this movie") fail in that order and change nothing; success rates only that title, adds exactly one review with the caller as reviewer and that title, and keeps one review per pair and sound aggregates |
| Store.Catalog.Rate | watchlist/api/views.py:191-199 | the title is saved with its aggregate advanced by one rating; all other titles and tables are untouched |
| Store.Catalog.InsertReview | watchlist/api/views.py:201 | the review is added under the next id and nothing else changes |
| Store.Catalog.ReviewsOf | watchlist/api/views.py:208-210 | exactly the reviews on that title; none for a missing title |
| Store.Catalog.Label | watchlist/models.py:49-50 | the string form of a stored review is the name of the title it is on, a bar and a space, the review's one-digit rating, a bar and a space, then its author's username |
| Store.Catalog.GetReview | watchlist/api/views.py:213-215 | a stored review is returned; a missing id gives "Not found." |
| Store.Catalog.UpdateReview | watchlist/api/views.py:213-218 | a missing id or invalid data fails without change; success replaces only that review; titles, and so their aggregates, never change |
| Store.Catalog.DeleteReview | watchlist/api/views.py:213-218 | success removes only that review; titles and their aggregates never change |
| Store.Catalog.DeleteUser | watchlist/models.py:35 | the account goes, with every review it wrote and nothing else |
| Store.Catalog.Register | movie_mate/user_app/api/serializers.py:19-34 | invalid data, a missing email, a password mismatch ("Password didn't match", checked first) and a used email ("User with the given email already exists") fail and add no account; success adds exactly one account with the given username and email and the hashed password; emails and usernames stay unique |
| LegacyValidators.ValidateName | movie_mate/watchlist/api/validators.py:4-6 | raises "Name is too Short." exactly when the value is shorter than 2 |
| LegacyValidators.Validate | movie_mate/watchlist/api/serializers.py:13-16 | fails with "Name and Description can not be same." exactly when name equals description; otherwise returns the data unchanged |
| LegacyValidators.NameBoundary | movie_mate/watchlist/api/validators.py:5 | length 2 passes, lengths 1 and 0 are refused |
| LegacyValidators.CaseSensitive | movie_mate/watchlist/api/serializers.py:14 | "Dune" and "dune" differ, so that data is accepted |
| LegacyValidators.ShortNamePassesSerializer | movie_mate/watchlist/api/serializers.py:3-16 | a one-character name different from its description passes the serializer though `validate_name` alone refuses it |

## Left out

- Store.Catalog.CreateTitle: when the request has no platform key, or several platforms share the name, the contract states only that the request fails with an uncaught exception. The exception's kind (`KeyError`, `MultipleObjectsReturned`) is carried as text.
- Store.Catalog.Register: when the request has no email, the contract states only that registration fails with an uncaught exception.
- Store.Catalog.DeleteUser: requires an existing account. Accounts are removed through Django's auth machinery, which is not part of this model.
- HTTP status codes, response bodies, token issuance and lookup, and logout: these are framework and auth-token library calls. The platform POST answers field errors without a 400 status, and registration answers the serializer's default error messages; the model keeps only the outcome.
- Permission and throttle classes (admin-or-read-only, review owner, review-creation throttling): their modules are not part of this model, and throttling depends on a clock. The model's only authentication check is the caller being present for review submission.
- List views of all titles and platforms, pagination, filtering and search: these are library configuration over an ordered query.
- The `StreamPlatformAV` viewset, the route tables and the admin registrations: framework wiring.
- The legacy function views over the `Movie` model: `movie_mate/watchlist/models.py` is not part of this model.
- IEEE floating point: `average_rating` is an exact real.
- Concurrency: the check-then-insert race between concurrent review submissions is outside this sequential model.
- Rows written directly through the ORM or the admin site: the one-review-per-account rule holds only on the submission path.
- `created_at` and `updated_at` timestamps: clock values.
- Details of the framework's field validation that the model does not encode:
  - whitespace trimming of character fields;
  - HTML-form booleans;
  - URL, email and username format validators;
  - the database integer range;
  - the fact that a field reports only its first failing check.
- The difference between a description sent as null and one left out: both are `None` here.
- `set_password`: a parameter `hash` whose internals are not modelled.
