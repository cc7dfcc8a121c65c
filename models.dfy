/** The three stored entities (models/DiveCenter.js, models/Course.js,
    models/Review.js): their fields, the schema validators Mongoose runs on
    create and on validated updates, the documents a create or an update
    produces, and the aggregates the course and review hooks write back. */
module Models {
  import opened Shared
  import opened Collection

  /* ---------------------------------------------------------------- records */

  /** The first match the geocoder returns for an address. */
  datatype Place = Place(longitude: real, latitude: real, formattedAddress: string,
                         streetName: string, city: string, stateCode: string,
                         zipcode: string, countryCode: string)

  /** The GeoJSON point the pre-save hook stores. */
  datatype Location = Location(kind: string, coordinates: seq<real>, formattedAddress: string,
                               street: string, city: string, state: string,
                               zipcode: string, country: string)

  datatype DiveCenter = DiveCenter(
    name: string, slug: string, description: string,
    website: Option<string>, phone: Option<string>, email: Option<string>,
    address: Option<string>, location: Option<Location>, specialties: seq<string>,
    averageRating: Option<real>, averageCost: Option<int>, photo: string, user: Id)

  /** A request body for a dive center: every schema path a client can send,
      each possibly absent (`createdAt` aside, whose value the model does not
      keep). */
  datatype DiveCenterInput = DiveCenterInput(
    name: Option<string>, slug: Option<string>, description: Option<string>,
    website: Option<string>, phone: Option<string>, email: Option<string>,
    address: Option<string>, location: Option<Location>, specialties: Option<seq<string>>,
    averageRating: Option<real>, averageCost: Option<int>, photo: Option<string>,
    user: Option<Id>)

  datatype Course = Course(title: string, description: string, days: int, price: int,
                           minimumSkill: string, diveCenter: Id, user: Id)

  datatype CourseInput = CourseInput(
    title: Option<string>, description: Option<string>, days: Option<int>, price: Option<int>,
    minimumSkill: Option<string>, diveCenter: Option<Id>, user: Option<Id>)

  datatype Review = Review(title: string, text: string, rating: real, diveCenter: Id, user: Id)

  datatype ReviewInput = ReviewInput(
    title: Option<string>, text: Option<string>, rating: Option<real>,
    diveCenter: Option<Id>, user: Option<Id>)

  /** Library collaborators of the models: `slugify`, the geocoder, the two
      regular expressions of the dive-center schema, and JavaScript's
      rendering of a number as text (which Mongoose's range messages print). */
  datatype Services = Services(slugify: string -> string, geocode: string -> Option<Place>,
                               isUrl: string -> bool, isEmail: string -> bool,
                               numberText: real -> string)

  const NoPhoto := "no-photo.jpg"
  const Skills := ["beginner", "intermediate", "advanced"]

  /* --------------------------------------------------------- validation core */

  /** One path's message, if it fails, before the messages of the later paths. */
  function Then(problem: Option<string>, later: seq<string>): (r: seq<string>)
    ensures r == [] <==> problem.None? && later == []
  {
    if problem.Some? then [problem.value] + later else later
  }

  /** An update validates only the paths it sets. */
  function IfSet<T>(v: Option<T>, problem: Option<string>): (r: Option<string>)
    ensures r.None? <==> v.None? || problem.None?
  {
    if v.Some? then problem else None
  }

  /** Mongoose's `required` for a string: present and non-empty. */
  function RequiredString(v: Option<string>, message: string): (r: Option<string>)
    ensures r.None? <==> v.Some? && v.value != ""
  {
    if v.GetOr("") == "" then Some(message) else None
  }

  function MaxLength(v: Option<string>, limit: nat, message: string): (r: Option<string>)
    ensures r.None? <==> v.None? || |v.value| <= limit
  {
    if v.Some? && |v.value| > limit then Some(message) else None
  }

  /** `match`: an absent or empty string is not tested. */
  function Matches(v: Option<string>, test: string -> bool, message: string): (r: Option<string>)
    ensures r.None? <==> v.None? || v.value == "" || test(v.value)
  {
    if v.Some? && v.value != "" && !test(v.value) then Some(message) else None
  }

  function RequiredPath(v: Option<Id>, path: string): (r: Option<string>)
    ensures r.None? <==> v.Some?
  {
    if v.None? then Some("Path `" + path + "` is required.") else None
  }

  /* ----------------------------------------------------- dive center schema */

  function CenterName(v: Option<string>): (r: Option<string>)
    ensures r.None? <==> v.Some? && 0 < |Trim(v.value)| <= 50
  {
    var t := Trim(v.GetOr(""));
    if t == "" then Some("Please add a name")
    else if |t| > 50 then Some("Name can not be more than 50 characters")
    else None
  }

  function CenterDescription(v: Option<string>): (r: Option<string>)
    ensures r.None? <==> v.Some? && 0 < |v.value| <= 500
  {
    if v.GetOr("") == "" then Some("Please add a description")
    else MaxLength(v, 500, "Description can not be more than 500 characters")
  }

  /** The `enum: ['Point']` of `location.type`. */
  function CenterLocation(v: Option<Location>): (r: Option<string>)
    ensures r.None? <==> v.None? || v.value.kind == "Point"
  {
    if v.Some? && v.value.kind != "Point" then
      Some("`" + v.value.kind + "` is not a valid enum value for path `location.type`.")
    else None
  }

  function CenterRating(v: Option<real>): (r: Option<string>)
    ensures r.None? <==> v.None? || 1.0 <= v.value <= 10.0
  {
    if v.Some? && v.value < 1.0 then Some("Rating must be at least 1")
    else if v.Some? && v.value > 10.0 then Some("Rating can not be more than 1")
    else None
  }

  /** `user` is required and must name an existing user. */
  function CenterOwner(v: Option<Id>, users: set<Id>): (r: Option<string>)
    ensures r.None? <==> v.Some? && v.value in users
  {
    if v.None? then Some("Path `user` is required.")
    else if v.value !in users then Some("user not found with id of " + v.value)
    else None
  }

  /** What a stored dive center satisfies, stated field by field. */
  ghost predicate CenterFieldsValid(input: DiveCenterInput, users: set<Id>, svc: Services) {
    && (input.name.Some? ==> 0 < |Trim(input.name.value)| <= 50)
    && (input.description.Some? ==> 0 < |input.description.value| <= 500)
    && (input.website.Some? && input.website.value != "" ==> svc.isUrl(input.website.value))
    && (input.phone.Some? ==> |input.phone.value| <= 20)
    && (input.email.Some? && input.email.value != "" ==> svc.isEmail(input.email.value))
    && (input.address.Some? ==> input.address.value != "")
    && (input.location.Some? ==> input.location.value.kind == "Point")
    && (input.averageRating.Some? ==> 1.0 <= input.averageRating.value <= 10.0)
    && (input.user.Some? ==> input.user.value in users)
  }

  /** A dive-center body fit for creation: the required paths are present
      and every constraint holds. `specialties` is required too, but an
      absent array defaults to `[]`, which `required` lets through. */
  ghost predicate CenterComplete(input: DiveCenterInput, users: set<Id>, svc: Services) {
    && input.name.Some? && input.description.Some? && input.address.Some? && input.user.Some?
    && CenterFieldsValid(input, users, svc)
  }

  /** Validation on create: the messages of the failing paths in schema order;
      none exactly when the body is complete. */
  function CenterCreateErrors(input: DiveCenterInput, users: set<Id>, svc: Services): (r: seq<string>)
    ensures r == [] <==> CenterComplete(input, users, svc)
  {
    Then(CenterName(input.name),
    Then(CenterDescription(input.description),
    Then(Matches(input.website, svc.isUrl, "Please use a valid URL with HTTP or HTTPS"),
    Then(MaxLength(input.phone, 20, "Phone number can not be more than 20 characters"),
    Then(Matches(input.email, svc.isEmail, "Please add a valid email"),
    Then(RequiredString(input.address, "Please add an address"),
    Then(CenterLocation(input.location),
    Then(CenterRating(input.averageRating),
    Then(CenterOwner(input.user, users),
    [])))))))))
  }

  /** Validation on a validated update: the same checks, on the paths the body
      sets only. */
  function CenterUpdateErrors(input: DiveCenterInput, users: set<Id>, svc: Services): (r: seq<string>)
    ensures r == [] <==> CenterFieldsValid(input, users, svc)
  {
    Then(IfSet(input.name, CenterName(input.name)),
    Then(IfSet(input.description, CenterDescription(input.description)),
    Then(Matches(input.website, svc.isUrl, "Please use a valid URL with HTTP or HTTPS"),
    Then(MaxLength(input.phone, 20, "Phone number can not be more than 20 characters"),
    Then(Matches(input.email, svc.isEmail, "Please add a valid email"),
    Then(IfSet(input.address, RequiredString(input.address, "Please add an address")),
    Then(CenterLocation(input.location),
    Then(CenterRating(input.averageRating),
    Then(IfSet(input.user, CenterOwner(input.user, users)),
    [])))))))))
  }

  function PointAt(p: Place): Location {
    Location("Point", [p.longitude, p.latitude], p.formattedAddress, p.streetName,
             p.city, p.stateCode, p.zipcode, p.countryCode)
  }

  /** The document `save` stores for a new dive center: the name trimmed, the
      slug made from it, the location taken from the geocoder, the address
      dropped and the photo defaulted. */
  function NewCenter(input: DiveCenterInput, place: Place, svc: Services): (d: DiveCenter)
    ensures d.address.None? && d.location == Some(PointAt(place))
    ensures d.slug == svc.slugify(d.name)
    ensures d.photo == input.photo.GetOr(NoPhoto)
  {
    var name := Trim(input.name.GetOr(""));
    DiveCenter(name, svc.slugify(name), input.description.GetOr(""), input.website,
               input.phone, input.email, None, Some(PointAt(place)),
               input.specialties.GetOr([]), input.averageRating, input.averageCost,
               input.photo.GetOr(NoPhoto), input.user.GetOr(""))
  }

  function Pick<T>(v: Option<T>, current: T): T { v.GetOr(current) }

  function PickOption<T>(v: Option<T>, current: Option<T>): Option<T> {
    if v.Some? then v else current
  }

  /** The document a `findByIdAndUpdate` leaves: each path the body sets is
      replaced (the name trimmed); no save hook runs, so slug, location and
      the aggregates change only when the body sets them. */
  function UpdatedCenter(d: DiveCenter, input: DiveCenterInput): (r: DiveCenter)
    ensures input.name.None? ==> r.name == d.name
    ensures input.name.Some? ==> r.name == Trim(input.name.value)
    ensures input.location.None? ==> r.location == d.location
    ensures input.location.Some? ==> r.location == input.location
    ensures input.slug.None? ==> r.slug == d.slug
    ensures input.averageRating.None? ==> r.averageRating == d.averageRating
    ensures input.averageCost.None? ==> r.averageCost == d.averageCost
  {
    DiveCenter(if input.name.Some? then Trim(input.name.value) else d.name,
               Pick(input.slug, d.slug), Pick(input.description, d.description),
               PickOption(input.website, d.website), PickOption(input.phone, d.phone),
               PickOption(input.email, d.email), PickOption(input.address, d.address),
               PickOption(input.location, d.location), Pick(input.specialties, d.specialties),
               PickOption(input.averageRating, d.averageRating),
               PickOption(input.averageCost, d.averageCost), Pick(input.photo, d.photo),
               Pick(input.user, d.user))
  }

  /* ---------------------------------------------------------- course schema */

  function CourseTitle(v: Option<string>): (r: Option<string>)
    ensures r.None? <==> v.Some? && Trim(v.value) != ""
  {
    if Trim(v.GetOr("")) == "" then Some("Please add a course title") else None
  }

  function CourseSkill(v: Option<string>): (r: Option<string>)
    ensures r.None? <==> v.Some? && v.value in Skills
  {
    if v.GetOr("") == "" then Some("Please add a minimum skill")
    else if v.value !in Skills then Some("`" + v.value + "` is not a valid enum value for path `minimumSkill`.")
    else None
  }

  function RequiredNumber<T>(v: Option<T>, message: string): (r: Option<string>)
    ensures r.None? <==> v.Some?
  {
    if v.None? then Some(message) else None
  }

  ghost predicate CourseFieldsValid(input: CourseInput) {
    && (input.title.Some? ==> Trim(input.title.value) != "")
    && (input.description.Some? ==> input.description.value != "")
    && (input.minimumSkill.Some? ==> input.minimumSkill.value in Skills)
  }

  /** A course body fit for creation: every path is present and the skill
      is one of the three levels. */
  ghost predicate CourseComplete(input: CourseInput) {
    && input.title.Some? && input.description.Some? && input.days.Some?
    && input.price.Some? && input.minimumSkill.Some? && input.diveCenter.Some?
    && input.user.Some? && CourseFieldsValid(input)
  }

  function CourseCreateErrors(input: CourseInput): (r: seq<string>)
    ensures r == [] <==> CourseComplete(input)
  {
    Then(CourseTitle(input.title),
    Then(RequiredString(input.description, "Please add a description"),
    Then(RequiredNumber(input.days, "Please add number of days"),
    Then(RequiredNumber(input.price, "Please add a price"),
    Then(CourseSkill(input.minimumSkill),
    Then(RequiredPath(input.diveCenter, "diveCenter"),
    Then(RequiredPath(input.user, "user"),
    [])))))))
  }

  function CourseUpdateErrors(input: CourseInput): (r: seq<string>)
    ensures r == [] <==> CourseFieldsValid(input)
  {
    Then(IfSet(input.title, CourseTitle(input.title)),
    Then(IfSet(input.description, RequiredString(input.description, "Please add a description")),
    Then(IfSet(input.minimumSkill, CourseSkill(input.minimumSkill)),
    [])))
  }

  function NewCourse(input: CourseInput): Course {
    Course(Trim(input.title.GetOr("")), input.description.GetOr(""), input.days.GetOr(0),
           input.price.GetOr(0), input.minimumSkill.GetOr(""), input.diveCenter.GetOr(""),
           input.user.GetOr(""))
  }

  function UpdatedCourse(c: Course, input: CourseInput): Course {
    Course(if input.title.Some? then Trim(input.title.value) else c.title,
           Pick(input.description, c.description), Pick(input.days, c.days),
           Pick(input.price, c.price), Pick(input.minimumSkill, c.minimumSkill),
           Pick(input.diveCenter, c.diveCenter), Pick(input.user, c.user))
  }

  /* ---------------------------------------------------------- review schema */

  function ReviewTitle(v: Option<string>): (r: Option<string>)
    ensures r.None? <==> v.Some? && 0 < |Trim(v.value)| <= 100
  {
    var t := Trim(v.GetOr(""));
    if t == "" then Some("Please add a title or the review")
    else if |t| > 100 then Some("Path `title` (`" + t + "`) is longer than the maximum allowed length (100).")
    else None
  }

  /** `min: 1, max: 10` without messages of their own: Mongoose's defaults,
      which print the value as JavaScript renders it (`show`). */
  function ReviewRating(v: Option<real>, show: real -> string): (r: Option<string>)
    ensures r.None? <==> v.Some? && 1.0 <= v.value <= 10.0
    ensures v.Some? && v.value < 1.0 ==>
      r == Some("Path `rating` (" + show(v.value) + ") is less than minimum allowed value (1).")
    ensures v.Some? && v.value > 10.0 ==>
      r == Some("Path `rating` (" + show(v.value) + ") is more than maximum allowed value (10).")
  {
    if v.None? then Some("Please add a rating between 1 and 10")
    else if v.value < 1.0 then Some("Path `rating` (" + show(v.value) + ") is less than minimum allowed value (1).")
    else if v.value > 10.0 then Some("Path `rating` (" + show(v.value) + ") is more than maximum allowed value (10).")
    else None
  }

  ghost predicate ReviewFieldsValid(input: ReviewInput) {
    && (input.title.Some? ==> 0 < |Trim(input.title.value)| <= 100)
    && (input.text.Some? ==> input.text.value != "")
    && (input.rating.Some? ==> 1.0 <= input.rating.value <= 10.0)
  }

  /** A review body fit for creation: title (at most 100 characters once
      trimmed), text, a rating in [1, 10], the dive center and the user. */
  ghost predicate ReviewComplete(input: ReviewInput) {
    && input.title.Some? && input.text.Some? && input.rating.Some?
    && input.diveCenter.Some? && input.user.Some? && ReviewFieldsValid(input)
  }

  function ReviewCreateErrors(input: ReviewInput, show: real -> string): (r: seq<string>)
    ensures r == [] <==> ReviewComplete(input)
  {
    Then(ReviewTitle(input.title),
    Then(RequiredString(input.text, "Please add some text"),
    Then(ReviewRating(input.rating, show),
    Then(RequiredPath(input.diveCenter, "diveCenter"),
    Then(RequiredPath(input.user, "user"),
    [])))))
  }

  function ReviewUpdateErrors(input: ReviewInput, show: real -> string): (r: seq<string>)
    ensures r == [] <==> ReviewFieldsValid(input)
  {
    Then(IfSet(input.title, ReviewTitle(input.title)),
    Then(IfSet(input.text, RequiredString(input.text, "Please add some text")),
    Then(IfSet(input.rating, ReviewRating(input.rating, show)),
    [])))
  }

  function NewReview(input: ReviewInput): Review {
    Review(Trim(input.title.GetOr("")), input.text.GetOr(""), input.rating.GetOr(1.0),
           input.diveCenter.GetOr(""), input.user.GetOr(""))
  }

  function UpdatedReview(r: Review, input: ReviewInput): Review {
    Review(if input.title.Some? then Trim(input.title.value) else r.title,
           Pick(input.text, r.text), Pick(input.rating, r.rating),
           Pick(input.diveCenter, r.diveCenter), Pick(input.user, r.user))
  }

  /* ------------------------------------------------------------- aggregates */

  /** The `courses` virtual, and the `$match` stage of `getAverageCost`. */
  function CoursesOf(courses: seq<Doc<Course>>, center: Id): (r: seq<Doc<Course>>)
    ensures forall i :: 0 <= i < |r| ==> r[i] in courses && r[i].body.diveCenter == center
    ensures forall i :: 0 <= i < |courses| && courses[i].body.diveCenter == center ==> courses[i] in r
  {
    Where(courses, OfCenter(center))
  }

  function OfCenter(center: Id): Doc<Course> -> bool {
    (c: Doc<Course>) => c.body.diveCenter == center
  }

  function NotOfCenter(center: Id): Doc<Course> -> bool {
    (c: Doc<Course>) => c.body.diveCenter != center
  }

  /** The pre-remove cascade of a dive center, `deleteMany({diveCenter: id})`:
      the courses that survive are exactly those of other dive centers. */
  function CoursesAfterCascade(courses: seq<Doc<Course>>, center: Id): (r: seq<Doc<Course>>)
    ensures forall i :: 0 <= i < |r| ==> r[i] in courses && r[i].body.diveCenter != center
    ensures forall i :: 0 <= i < |courses| && courses[i].body.diveCenter != center ==> courses[i] in r
    ensures CoursesOf(r, center) == []
  {
    var r := Where(courses, NotOfCenter(center));
    WhereNone(r, OfCenter(center));
    r
  }

  /** The reviews of one dive center, the `$match` stage of `getAverageRating`. */
  function ReviewsOf(reviews: seq<Doc<Review>>, center: Id): (r: seq<Doc<Review>>)
    ensures forall i :: 0 <= i < |r| ==> r[i] in reviews && r[i].body.diveCenter == center
    ensures forall i :: 0 <= i < |reviews| && reviews[i].body.diveCenter == center ==> reviews[i] in r
  {
    Where(reviews, ReviewOfCenter(center))
  }

  function ReviewOfCenter(center: Id): Doc<Review> -> bool {
    (r: Doc<Review>) => r.body.diveCenter == center
  }

  function PriceTotal(cs: seq<Doc<Course>>): int {
    if cs == [] then 0 else cs[0].body.price + PriceTotal(cs[1..])
  }

  function RatingTotal(rs: seq<Doc<Review>>): real {
    if rs == [] then 0.0 else rs[0].body.rating + RatingTotal(rs[1..])
  }

  /** `Math.ceil(a / b)` for integers, `b` positive. */
  function CeilDiv(a: int, b: int): (q: int)
    requires b > 0
    ensures q * b >= a && (q - 1) * b < a
  {
    var f := (-a) / b;
    assert f * b <= -a < f * b + b;
    -f
  }

  /** `Math.ceil(mean / 10) * 10` for the mean `total / n`: the smallest
      multiple of ten that is not below the mean. */
  function CeilToTen(total: int, n: nat): (r: int)
    requires n > 0
    ensures r % 10 == 0
    ensures r as real >= total as real / n as real
    ensures (r - 10) as real < total as real / n as real
  {
    var q := CeilDiv(total, 10 * n);
    ScaleBelow(q * 10, total, n);
    ScaleAbove(q * 10 - 10, total, n);
    q * 10
  }

  lemma ScaleBelow(r: int, total: int, n: nat)
    requires n > 0 && r * n >= total
    ensures r as real >= total as real / n as real
  {
    var m := total as real / n as real;
    assert m * n as real == total as real;
    assert (r as real) * (n as real) == (r * n) as real;
    if r as real < m {
      assert (r as real) * (n as real) < m * (n as real);
    }
  }

  lemma ScaleAbove(r: int, total: int, n: nat)
    requires n > 0 && r * n < total
    ensures (r as real) < total as real / n as real
  {
    var m := total as real / n as real;
    assert m * n as real == total as real;
    assert (r as real) * (n as real) == (r * n) as real;
    if r as real >= m {
      assert (r as real) * (n as real) >= m * (n as real);
    }
  }

  /** The value `getAverageCost` writes for a dive center: none when it has no
      course, otherwise the mean price rounded up to a multiple of ten. */
  function AverageCost(courses: seq<Doc<Course>>, center: Id): (r: Option<int>)
    ensures r.None? <==> CoursesOf(courses, center) == []
    ensures r.Some? ==>
      var cs := CoursesOf(courses, center);
      var mean := PriceTotal(cs) as real / |cs| as real;
      r.value % 10 == 0 && mean <= r.value as real < mean + 10.0
  {
    var cs := CoursesOf(courses, center);
    if |cs| == 0 then None else Some(CeilToTen(PriceTotal(cs), |cs|))
  }

  /** The value `getAverageRating` writes: the exact mean rating of the dive
      center's reviews, none when it has no review. */
  function AverageRating(reviews: seq<Doc<Review>>, center: Id): (r: Option<real>)
    ensures r.None? <==> ReviewsOf(reviews, center) == []
    ensures r.Some? ==> r.value * |ReviewsOf(reviews, center)| as real == RatingTotal(ReviewsOf(reviews, center))
  {
    var rs := ReviewsOf(reviews, center);
    if |rs| == 0 then None else Some(RatingTotal(rs) / |rs| as real)
  }

  ghost predicate RatingsInRange(rs: seq<Doc<Review>>) {
    forall d :: d in rs ==> 1.0 <= d.body.rating <= 10.0
  }

  lemma {:induction false} RatingTotalBounds(rs: seq<Doc<Review>>)
    requires RatingsInRange(rs)
    ensures |rs| as real <= RatingTotal(rs) <= 10.0 * |rs| as real
  {
    if rs != [] {
      assert rs[0] in rs;
      RatingTotalBounds(rs[1..]);
    }
  }

  /** When every stored rating lies in [1, 10], so does the average the hook
      writes. */
  lemma AverageRatingInRange(reviews: seq<Doc<Review>>, center: Id)
    requires RatingsInRange(reviews)
    requires AverageRating(reviews, center).Some?
    ensures 1.0 <= AverageRating(reviews, center).value <= 10.0
  {
    var rs := ReviewsOf(reviews, center);
    assert RatingsInRange(rs) by {
      forall d | d in rs ensures 1.0 <= d.body.rating <= 10.0 {
        var i :| 0 <= i < |rs| && rs[i] == d;
        assert rs[i] in reviews;
      }
    }
    RatingTotalBounds(rs);
    MeanBetween(RatingTotal(rs), |rs| as real);
  }

  lemma MeanBetween(total: real, n: real)
    requires n > 0.0 && n <= total <= 10.0 * n
    ensures 1.0 <= total / n <= 10.0
  {
    var m := total / n;
    assert m * n == total;
    assert 1.0 <= m by {
      if m < 1.0 { ScaleStrict(m, 1.0, n); }
    }
    assert m <= 10.0 by {
      if m > 10.0 { ScaleStrict(10.0, m, n); }
    }
  }

  lemma ScaleStrict(a: real, b: real, n: real)
    requires a < b && n > 0.0
    ensures a * n < b * n
  {
    assert b * n - a * n == (b - a) * n;
  }
}
