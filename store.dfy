/** The three MongoDB collections behind the API and the Mongoose operations
    the controllers issue on them, with the hooks models/DiveCenter.js,
    models/Course.js and models/Review.js attach: validation before every
    save, the slug and geocoding pre-save hooks, the cascade of a dive
    center's removal, and the average recomputations after a save and before
    a removal. Hooks the code does not await run to completion, in order. */
module Store {
  import opened Shared
  import opened Collection
  import opened Models
  import opened ErrorMiddleware

  function NameOf(d: Doc<DiveCenter>): string { d.body.name }

  /** The key of the unique (diveCenter, user) index on reviews. */
  function PairOf(d: Doc<Review>): (Id, Id) { (d.body.diveCenter, d.body.user) }

  /** What validation guarantees of every stored dive center: a trimmed name
      of 1 to 50 characters and an average rating, when set, in [1, 10]. */
  predicate CenterOk(c: DiveCenter) {
    0 < |c.name| <= 50 && (c.averageRating.Some? ==> 1.0 <= c.averageRating.value <= 10.0)
  }

  predicate CourseOk(c: Course) {
    c.title != "" && c.minimumSkill in Skills
  }

  predicate ReviewOk(r: Review) {
    0 < |r.title| <= 100 && 1.0 <= r.rating <= 10.0
  }

  /** The unique indexes (ids in each collection, dive center names, one
      review per dive center and user) and the validated fields. */
  ghost predicate Consistent(centers: seq<Doc<DiveCenter>>, courses: seq<Doc<Course>>, reviews: seq<Doc<Review>>) {
    && DistinctBy(centers, IdOf) && DistinctBy(centers, NameOf)
    && DistinctBy(courses, IdOf)
    && DistinctBy(reviews, IdOf) && DistinctBy(reviews, PairOf)
    && (forall i :: 0 <= i < |centers| ==> CenterOk(centers[i].body))
    && (forall i :: 0 <= i < |courses| ==> CourseOk(courses[i].body))
    && (forall i :: 0 <= i < |reviews| ==> ReviewOk(reviews[i].body))
  }

  /** A field write issued with `findByIdAndUpdate` and no validators. */
  datatype CenterPatch = SetPhoto(photo: string) | SetCost(cost: int) | SetRating(rating: real)

  function Patched(c: DiveCenter, p: CenterPatch): DiveCenter {
    match p
    case SetPhoto(name) => c.(photo := name)
    case SetCost(v) => c.(averageCost := Some(v))
    case SetRating(v) => c.(averageRating := Some(v))
  }

  /** `findByIdAndUpdate(id, patch)`: the dive center with that id gets the
      patch, nothing else changes, and a missing id changes nothing. */
  function PatchCenter(centers: seq<Doc<DiveCenter>>, id: Id, p: CenterPatch): (r: seq<Doc<DiveCenter>>)
    ensures |r| == |centers|
    ensures forall i :: 0 <= i < |centers| ==> r[i].id == centers[i].id
    ensures forall i :: 0 <= i < |centers| && centers[i].id != id ==> r[i] == centers[i]
    ensures DistinctBy(centers, IdOf) ==>
      forall i :: 0 <= i < |centers| && centers[i].id == id ==> r[i].body == Patched(centers[i].body, p)
  {
    match Find(centers, id)
    case None => centers
    case Some(d) =>
      var r := Replace(centers, id, Doc(id, Patched(d.body, p)));
      assert DistinctBy(centers, IdOf) ==>
        forall i :: 0 <= i < |centers| && centers[i].id == id ==> r[i].body == Patched(centers[i].body, p) by {
        if DistinctBy(centers, IdOf) {
          forall i | 0 <= i < |centers| && centers[i].id == id
            ensures r[i].body == Patched(centers[i].body, p)
          {
            FindUnique(centers, i);
          }
        }
      }
      r
  }

  /** What `getAverageCost` leaves: the dive center's `averageCost` set to the
      rounded mean price of its courses, or nothing changed when it has none. */
  function CostRefreshed(centers: seq<Doc<DiveCenter>>, courses: seq<Doc<Course>>, center: Id): (r: seq<Doc<DiveCenter>>)
    ensures AverageCost(courses, center).None? ==> r == centers
    ensures AverageCost(courses, center).Some? ==> r == PatchCenter(centers, center, SetCost(AverageCost(courses, center).value))
  {
    match AverageCost(courses, center)
    case None => centers
    case Some(v) => PatchCenter(centers, center, SetCost(v))
  }

  /** What `getAverageRating` leaves: the exact mean rating written to the
      dive center, or nothing changed when it has no review. */
  function RatingRefreshed(centers: seq<Doc<DiveCenter>>, reviews: seq<Doc<Review>>, center: Id): (r: seq<Doc<DiveCenter>>)
    ensures AverageRating(reviews, center).None? ==> r == centers
    ensures AverageRating(reviews, center).Some? ==> r == PatchCenter(centers, center, SetRating(AverageRating(reviews, center).value))
  {
    match AverageRating(reviews, center)
    case None => centers
    case Some(v) => PatchCenter(centers, center, SetRating(v))
  }

  /** A new dive center breaks the `_id` or the `name` index. */
  predicate CenterTaken(centers: seq<Doc<DiveCenter>>, id: Id, name: string)
    ensures !CenterTaken(centers, id, name) <==>
      forall i :: 0 <= i < |centers| ==> centers[i].id != id && centers[i].body.name != name
  {
    exists i | 0 <= i < |centers| :: centers[i].id == id || centers[i].body.name == name
  }

  /** An update of dive center `id` to `name` breaks the `name` index. */
  predicate NameClash(centers: seq<Doc<DiveCenter>>, id: Id, name: string)
    ensures !NameClash(centers, id, name) <==>
      forall i :: 0 <= i < |centers| && centers[i].id != id ==> centers[i].body.name != name
  {
    exists i | 0 <= i < |centers| :: centers[i].id != id && centers[i].body.name == name
  }

  predicate IdTaken<T>(docs: seq<Doc<T>>, id: Id)
    ensures !IdTaken(docs, id) <==> forall i :: 0 <= i < |docs| ==> docs[i].id != id
  {
    exists i | 0 <= i < |docs| :: docs[i].id == id
  }

  /** A new review breaks the `_id` or the (diveCenter, user) index. */
  predicate ReviewTaken(reviews: seq<Doc<Review>>, id: Id, pair: (Id, Id))
    ensures !ReviewTaken(reviews, id, pair) <==>
      forall i :: 0 <= i < |reviews| ==> reviews[i].id != id && PairOf(reviews[i]) != pair
  {
    exists i | 0 <= i < |reviews| :: reviews[i].id == id || PairOf(reviews[i]) == pair
  }

  predicate PairClash(reviews: seq<Doc<Review>>, id: Id, pair: (Id, Id))
    ensures !PairClash(reviews, id, pair) <==>
      forall i :: 0 <= i < |reviews| && reviews[i].id != id ==> PairOf(reviews[i]) != pair
  {
    exists i | 0 <= i < |reviews| :: reviews[i].id != id && PairOf(reviews[i]) == pair
  }

  /** The dive center as `populate({path: 'diveCenter', select: 'name description'})` shows it. */
  datatype CenterSummary = CenterSummary(id: Id, name: string, description: string)

  function Summary(centers: seq<Doc<DiveCenter>>, id: Id): (r: Option<CenterSummary>)
    ensures r.None? <==> Find(centers, id).None?
    ensures r.Some? ==> r.value == CenterSummary(id, Find(centers, id).value.body.name, Find(centers, id).value.body.description)
  {
    match Find(centers, id)
    case None => None
    case Some(d) => Some(CenterSummary(d.id, d.body.name, d.body.description))
  }

  /** A patch keeps the store consistent when it keeps the average rating in
      range. */
  lemma PatchConsistent(centers: seq<Doc<DiveCenter>>, courses: seq<Doc<Course>>, reviews: seq<Doc<Review>>,
                        id: Id, p: CenterPatch)
    requires Consistent(centers, courses, reviews)
    requires p.SetRating? ==> 1.0 <= p.rating <= 10.0
    ensures Consistent(PatchCenter(centers, id, p), courses, reviews)
  {
    var r := PatchCenter(centers, id, p);
    forall i, j | 0 <= i < j < |r| ensures IdOf(r[i]) != IdOf(r[j]) && NameOf(r[i]) != NameOf(r[j]) {
      assert IdOf(centers[i]) != IdOf(centers[j]) && NameOf(centers[i]) != NameOf(centers[j]);
    }
  }

  /** The average-cost recomputation keeps the store consistent. */
  lemma CostRefreshedConsistent(centers: seq<Doc<DiveCenter>>, courses: seq<Doc<Course>>, reviews: seq<Doc<Review>>, center: Id)
    requires Consistent(centers, courses, reviews)
    ensures Consistent(CostRefreshed(centers, courses, center), courses, reviews)
  {
    if AverageCost(courses, center).Some? {
      PatchConsistent(centers, courses, reviews, center, SetCost(AverageCost(courses, center).value));
    }
  }

  /** The average-rating recomputation keeps the store consistent: every
      stored rating lies in [1, 10], hence so does their mean. */
  lemma RatingRefreshedConsistent(centers: seq<Doc<DiveCenter>>, courses: seq<Doc<Course>>, reviews: seq<Doc<Review>>, center: Id)
    requires Consistent(centers, courses, reviews)
    ensures Consistent(RatingRefreshed(centers, reviews, center), courses, reviews)
  {
    if AverageRating(reviews, center).Some? {
      assert RatingsInRange(reviews) by {
        forall d | d in reviews ensures 1.0 <= d.body.rating <= 10.0 {
          var i :| 0 <= i < |reviews| && reviews[i] == d;
          assert ReviewOk(reviews[i].body);
        }
      }
      AverageRatingInRange(reviews, center);
      PatchConsistent(centers, courses, reviews, center, SetRating(AverageRating(reviews, center).value));
    }
  }

  lemma AppendCenterConsistent(centers: seq<Doc<DiveCenter>>, courses: seq<Doc<Course>>, reviews: seq<Doc<Review>>,
                                doc: Doc<DiveCenter>)
    requires Consistent(centers, courses, reviews)
    requires !CenterTaken(centers, doc.id, doc.body.name) && CenterOk(doc.body)
    ensures Consistent(centers + [doc], courses, reviews)
  {
    DistinctAppend(centers, IdOf, doc);
    DistinctAppend(centers, NameOf, doc);
  }

  lemma ReplaceCenterConsistent(centers: seq<Doc<DiveCenter>>, courses: seq<Doc<Course>>, reviews: seq<Doc<Review>>,
                                 doc: Doc<DiveCenter>)
    requires Consistent(centers, courses, reviews)
    requires !NameClash(centers, doc.id, doc.body.name) && CenterOk(doc.body)
    ensures Consistent(Replace(centers, doc.id, doc), courses, reviews)
  {
    DistinctReplace(centers, IdOf, doc.id, doc);
    DistinctReplace(centers, NameOf, doc.id, doc);
  }

  lemma AppendCourseConsistent(centers: seq<Doc<DiveCenter>>, courses: seq<Doc<Course>>, reviews: seq<Doc<Review>>,
                                doc: Doc<Course>)
    requires Consistent(centers, courses, reviews)
    requires !IdTaken(courses, doc.id) && CourseOk(doc.body)
    ensures Consistent(centers, courses + [doc], reviews)
  {
    DistinctAppend(courses, IdOf, doc);
  }

  lemma ReplaceCourseConsistent(centers: seq<Doc<DiveCenter>>, courses: seq<Doc<Course>>, reviews: seq<Doc<Review>>,
                                 doc: Doc<Course>)
    requires Consistent(centers, courses, reviews)
    requires CourseOk(doc.body)
    ensures Consistent(centers, Replace(courses, doc.id, doc), reviews)
  {
    DistinctReplace(courses, IdOf, doc.id, doc);
  }

  lemma AppendReviewConsistent(centers: seq<Doc<DiveCenter>>, courses: seq<Doc<Course>>, reviews: seq<Doc<Review>>,
                                doc: Doc<Review>)
    requires Consistent(centers, courses, reviews)
    requires !ReviewTaken(reviews, doc.id, PairOf(doc)) && ReviewOk(doc.body)
    ensures Consistent(centers, courses, reviews + [doc])
  {
    DistinctAppend(reviews, IdOf, doc);
    DistinctAppend(reviews, PairOf, doc);
  }

  lemma ReplaceReviewConsistent(centers: seq<Doc<DiveCenter>>, courses: seq<Doc<Course>>, reviews: seq<Doc<Review>>,
                                 doc: Doc<Review>)
    requires Consistent(centers, courses, reviews)
    requires !PairClash(reviews, doc.id, PairOf(doc)) && ReviewOk(doc.body)
    ensures Consistent(centers, courses, Replace(reviews, doc.id, doc))
  {
    DistinctReplace(reviews, IdOf, doc.id, doc);
    DistinctReplace(reviews, PairOf, doc.id, doc);
  }

  /** Validation on create and on update guarantees the stored fields. */
  lemma NewCourseOk(input: CourseInput)
    requires CourseCreateErrors(input) == []
    ensures CourseOk(NewCourse(input))
  {
  }

  lemma UpdatedCourseOk(c: Course, input: CourseInput)
    requires CourseOk(c) && CourseUpdateErrors(input) == []
    ensures CourseOk(UpdatedCourse(c, input))
  {
  }

  lemma NewReviewOk(input: ReviewInput, show: real -> string)
    requires ReviewCreateErrors(input, show) == []
    ensures ReviewOk(NewReview(input))
  {
  }

  lemma UpdatedReviewOk(v: Review, input: ReviewInput, show: real -> string)
    requires ReviewOk(v) && ReviewUpdateErrors(input, show) == []
    ensures ReviewOk(UpdatedReview(v, input))
  {
  }

  lemma NewCenterOk(input: DiveCenterInput, users: set<Id>, svc: Services, place: Place)
    requires CenterCreateErrors(input, users, svc) == []
    ensures CenterOk(NewCenter(input, place, svc))
  {
  }

  lemma UpdatedCenterOk(c: DiveCenter, input: DiveCenterInput, users: set<Id>, svc: Services)
    requires CenterOk(c) && CenterUpdateErrors(input, users, svc) == []
    ensures CenterOk(UpdatedCenter(c, input))
  {
    assert CenterFieldsValid(input, users, svc);
    var u := UpdatedCenter(c, input);
    assert u.name == if input.name.Some? then Trim(input.name.value) else c.name;
    assert u.averageRating == if input.averageRating.Some? then input.averageRating else c.averageRating;
  }

  /* ------------------------------------------------ outcomes of the writes */

  /** `DiveCenter.create(body)`: validation first; then the pre-save hooks,
      the slug from the trimmed name and the geocoded location (no match
      makes the hook read `longitude` of `undefined`); then the insert, which
      the `_id` and `name` indexes may refuse. */
  function CenterCreation(centers: seq<Doc<DiveCenter>>, users: set<Id>, svc: Services, id: Id,
                          input: DiveCenterInput): (r: Result<Doc<DiveCenter>, ErrorValue>)
    ensures r.Ok? ==> r.value.id == id && CenterOk(r.value.body) && !CenterTaken(centers, id, r.value.body.name)
  {
    var errors := CenterCreateErrors(input, users, svc);
    if errors != [] then Err(ValidationFailure("DiveCenter", errors))
    else match svc.geocode(input.address.value)
      case None => Err(UndefinedRead("longitude"))
      case Some(place) =>
        var doc := Doc(id, NewCenter(input, place, svc));
        if CenterTaken(centers, id, doc.body.name) then Err(DuplicateKey())
        else
          NewCenterOk(input, users, svc, place);
          Ok(doc)
  }

  /** The outcomes of a create, each exactly when its step is the first to
      fail: validation (with every failing path's message) when the body is
      not complete; a read of `longitude` of `undefined` when the geocoder
      finds nothing; a duplicate key when the id or the trimmed name is
      taken; otherwise the geocoded document with the trimmed name. */
  lemma CenterCreationCases(centers: seq<Doc<DiveCenter>>, users: set<Id>, svc: Services, id: Id, input: DiveCenterInput)
    ensures var r := CenterCreation(centers, users, svc, id, input);
      && (r == Err(ValidationFailure("DiveCenter", CenterCreateErrors(input, users, svc))) <==>
            !CenterComplete(input, users, svc))
      && (r == Err(UndefinedRead("longitude")) <==>
            CenterComplete(input, users, svc) && svc.geocode(input.address.value).None?)
      && (r == Err(DuplicateKey()) <==>
            && CenterComplete(input, users, svc) && svc.geocode(input.address.value).Some?
            && CenterTaken(centers, id, Trim(input.name.value)))
      && (r.Ok? <==>
            && CenterComplete(input, users, svc) && svc.geocode(input.address.value).Some?
            && !CenterTaken(centers, id, Trim(input.name.value)))
      && (r.Ok? ==>
            && r.value.body.name == Trim(input.name.value)
            && r.value.body.location == Some(PointAt(svc.geocode(input.address.value).value))
            && r.value.body.user == input.user.value)
  {
  }

  /** A created dive center belongs to the user the body names. */
  lemma CenterCreationOwner(centers: seq<Doc<DiveCenter>>, users: set<Id>, svc: Services, id: Id, input: DiveCenterInput)
    requires CenterCreation(centers, users, svc, id, input).Ok?
    ensures input.user.Some? && input.user.value in users
    ensures CenterCreation(centers, users, svc, id, input).value.body.user == input.user.value
  {
  }

  /** `DiveCenter.findByIdAndUpdate(id, body, {new: true, runValidators: true})`:
      the validators of the paths the body sets, then the write, which the
      `name` index may refuse; no save hook runs, and a missing id yields
      `null`. */
  function CenterUpdate(centers: seq<Doc<DiveCenter>>, users: set<Id>, svc: Services, id: Id,
                        input: DiveCenterInput): (r: Result<Option<Doc<DiveCenter>>, ErrorValue>)
    ensures r.Ok? ==> (r.value.Some? <==> Find(centers, id).Some?)
    ensures r.Ok? && r.value.Some? ==>
      && Find(centers, id).Some? && r.value.value.id == id
      && !NameClash(centers, id, r.value.value.body.name)
      && (CenterOk(Find(centers, id).value.body) ==> CenterOk(r.value.value.body))
  {
    var errors := CenterUpdateErrors(input, users, svc);
    if errors != [] then Err(ValidationFailure("DiveCenter", errors))
    else match Find(centers, id)
      case None => Ok(None)
      case Some(d) =>
        var updated := Doc(id, UpdatedCenter(d.body, input));
        if NameClash(centers, id, updated.body.name) then Err(DuplicateKey())
        else
          (if CenterOk(d.body) then UpdatedCenterOk(d.body, input, users, svc); Ok(Some(updated)) else Ok(Some(updated)))
  }

  /** The outcomes of an update, each exactly when its step is the first to
      fail: validation when a set path breaks its constraint; `null` when
      the id is not stored; a duplicate key when another dive center has the
      name the document ends with; otherwise the document with each set path
      replaced. */
  lemma CenterUpdateCases(centers: seq<Doc<DiveCenter>>, users: set<Id>, svc: Services, id: Id, input: DiveCenterInput)
    ensures var r := CenterUpdate(centers, users, svc, id, input);
      && (r == Err(ValidationFailure("DiveCenter", CenterUpdateErrors(input, users, svc))) <==>
            !CenterFieldsValid(input, users, svc))
      && (r == Ok(None) <==> CenterFieldsValid(input, users, svc) && Find(centers, id).None?)
      && (r == Err(DuplicateKey()) <==>
            && CenterFieldsValid(input, users, svc) && Find(centers, id).Some?
            && NameClash(centers, id, if input.name.Some? then Trim(input.name.value)
                                      else Find(centers, id).value.body.name))
      && (r.Ok? && r.value.Some? ==>
            r.value.value == Doc(id, UpdatedCenter(Find(centers, id).value.body, input)))
  {
  }

  /** `Course.create(body)`: validation, then the insert under the `_id` index. */
  function CourseCreation(courses: seq<Doc<Course>>, id: Id, input: CourseInput): (r: Result<Doc<Course>, ErrorValue>)
    ensures r.Ok? ==> r.value.id == id && !IdTaken(courses, id) && CourseOk(r.value.body)
  {
    var errors := CourseCreateErrors(input);
    if errors != [] then Err(ValidationFailure("Course", errors))
    else if IdTaken(courses, id) then Err(DuplicateKey())
    else
      NewCourseOk(input);
      Ok(Doc(id, NewCourse(input)))
  }

  /** Validation fails exactly when the body is not complete; then a taken
      id is a duplicate key; otherwise the course holds the body's values,
      the title trimmed. */
  lemma CourseCreationCases(courses: seq<Doc<Course>>, id: Id, input: CourseInput)
    ensures var r := CourseCreation(courses, id, input);
      && (r == Err(ValidationFailure("Course", CourseCreateErrors(input))) <==> !CourseComplete(input))
      && (r == Err(DuplicateKey()) <==> CourseComplete(input) && IdTaken(courses, id))
      && (r.Ok? <==> CourseComplete(input) && !IdTaken(courses, id))
      && (r.Ok? ==>
            r.value == Doc(id, Course(Trim(input.title.value), input.description.value, input.days.value,
                                      input.price.value, input.minimumSkill.value,
                                      input.diveCenter.value, input.user.value)))
  {
  }

  /** A created course belongs to the dive center and the user the body names. */
  lemma CourseCreationOwner(courses: seq<Doc<Course>>, id: Id, input: CourseInput)
    requires CourseCreation(courses, id, input).Ok?
    ensures input.diveCenter.Some? && input.user.Some?
    ensures CourseCreation(courses, id, input).value.body.diveCenter == input.diveCenter.value
    ensures CourseCreation(courses, id, input).value.body.user == input.user.value
  {
  }

  /** `Course.findByIdAndUpdate(id, body, {new: true, runValidators: true})`. */
  function CourseUpdate(courses: seq<Doc<Course>>, id: Id, input: CourseInput): (r: Result<Option<Doc<Course>>, ErrorValue>)
    ensures r.Ok? ==> (r.value.Some? <==> Find(courses, id).Some?)
    ensures r.Ok? && r.value.Some? ==>
      && Find(courses, id).Some? && r.value.value.id == id
      && (CourseOk(Find(courses, id).value.body) ==> CourseOk(r.value.value.body))
  {
    var errors := CourseUpdateErrors(input);
    if errors != [] then Err(ValidationFailure("Course", errors))
    else match Find(courses, id)
      case None => Ok(None)
      case Some(c) =>
        (if CourseOk(c.body) then UpdatedCourseOk(c.body, input); Ok(Some(Doc(id, UpdatedCourse(c.body, input))))
         else Ok(Some(Doc(id, UpdatedCourse(c.body, input)))))
  }

  /** Validation fails exactly when a set path breaks its constraint; then
      a missing id yields `null`; otherwise each set path is replaced and
      every other one kept. */
  lemma CourseUpdateCases(courses: seq<Doc<Course>>, id: Id, input: CourseInput)
    ensures var r := CourseUpdate(courses, id, input);
      && (r == Err(ValidationFailure("Course", CourseUpdateErrors(input))) <==> !CourseFieldsValid(input))
      && (r == Ok(None) <==> CourseFieldsValid(input) && Find(courses, id).None?)
      && (r.Ok? && r.value.Some? ==>
            var c := Find(courses, id).value.body;
            var u := r.value.value.body;
            && r.value.value.id == id
            && u.title == (if input.title.Some? then Trim(input.title.value) else c.title)
            && u.description == input.description.GetOr(c.description)
            && u.days == input.days.GetOr(c.days)
            && u.price == input.price.GetOr(c.price)
            && u.minimumSkill == input.minimumSkill.GetOr(c.minimumSkill)
            && u.diveCenter == input.diveCenter.GetOr(c.diveCenter)
            && u.user == input.user.GetOr(c.user))
  {
  }

  /** `Review.create(body)`: validation, then the insert under the `_id` and
      (diveCenter, user) indexes. */
  function ReviewCreation(reviews: seq<Doc<Review>>, show: real -> string, id: Id, input: ReviewInput)
    : (r: Result<Doc<Review>, ErrorValue>)
    ensures r.Ok? ==> r.value.id == id && !ReviewTaken(reviews, id, PairOf(r.value)) && ReviewOk(r.value.body)
  {
    var errors := ReviewCreateErrors(input, show);
    if errors != [] then Err(ValidationFailure("Review", errors))
    else
      var doc := Doc(id, NewReview(input));
      if ReviewTaken(reviews, id, PairOf(doc)) then Err(DuplicateKey())
      else
        NewReviewOk(input, show);
        Ok(doc)
  }

  /** Validation fails exactly when the body is not complete; then a taken
      id or (diveCenter, user) pair is a duplicate key; otherwise the review
      holds the body's values, the title trimmed. */
  lemma ReviewCreationCases(reviews: seq<Doc<Review>>, show: real -> string, id: Id, input: ReviewInput)
    ensures var r := ReviewCreation(reviews, show, id, input);
      && (r == Err(ValidationFailure("Review", ReviewCreateErrors(input, show))) <==> !ReviewComplete(input))
      && (r == Err(DuplicateKey()) <==>
            ReviewComplete(input) && ReviewTaken(reviews, id, (input.diveCenter.value, input.user.value)))
      && (r.Ok? <==>
            ReviewComplete(input) && !ReviewTaken(reviews, id, (input.diveCenter.value, input.user.value)))
      && (r.Ok? ==>
            r.value == Doc(id, Review(Trim(input.title.value), input.text.value, input.rating.value,
                                      input.diveCenter.value, input.user.value)))
  {
  }

  /** A created review belongs to the dive center and the user the body names. */
  lemma ReviewCreationOwner(reviews: seq<Doc<Review>>, show: real -> string, id: Id, input: ReviewInput)
    requires ReviewCreation(reviews, show, id, input).Ok?
    ensures input.diveCenter.Some? && input.user.Some?
    ensures ReviewCreation(reviews, show, id, input).value.body.diveCenter == input.diveCenter.value
    ensures ReviewCreation(reviews, show, id, input).value.body.user == input.user.value
  {
  }

  /** `Review.findByIdAndUpdate(id, body, {new: true, runValidators: true})`,
      which the (diveCenter, user) index may refuse. */
  function ReviewUpdate(reviews: seq<Doc<Review>>, show: real -> string, id: Id, input: ReviewInput)
    : (r: Result<Option<Doc<Review>>, ErrorValue>)
    ensures r.Ok? ==> (r.value.Some? <==> Find(reviews, id).Some?)
    ensures r.Ok? && r.value.Some? ==>
      && Find(reviews, id).Some? && r.value.value.id == id
      && !PairClash(reviews, id, PairOf(r.value.value))
      && (ReviewOk(Find(reviews, id).value.body) ==> ReviewOk(r.value.value.body))
  {
    var errors := ReviewUpdateErrors(input, show);
    if errors != [] then Err(ValidationFailure("Review", errors))
    else match Find(reviews, id)
      case None => Ok(None)
      case Some(v) =>
        var updated := Doc(id, UpdatedReview(v.body, input));
        if PairClash(reviews, id, PairOf(updated)) then Err(DuplicateKey())
        else
          (if ReviewOk(v.body) then UpdatedReviewOk(v.body, input, show); Ok(Some(updated)) else Ok(Some(updated)))
  }

  /** Validation fails exactly when a set path breaks its constraint; then
      a missing id yields `null`; then a duplicate key exactly when another
      review has the (diveCenter, user) pair the document ends with;
      otherwise each set path is replaced and every other one kept. */
  lemma ReviewUpdateCases(reviews: seq<Doc<Review>>, show: real -> string, id: Id, input: ReviewInput)
    ensures var r := ReviewUpdate(reviews, show, id, input);
      && (r == Err(ValidationFailure("Review", ReviewUpdateErrors(input, show))) <==> !ReviewFieldsValid(input))
      && (r == Ok(None) <==> ReviewFieldsValid(input) && Find(reviews, id).None?)
      && (r == Err(DuplicateKey()) <==>
            && ReviewFieldsValid(input) && Find(reviews, id).Some?
            && PairClash(reviews, id, (input.diveCenter.GetOr(Find(reviews, id).value.body.diveCenter),
                                       input.user.GetOr(Find(reviews, id).value.body.user))))
      && (r.Ok? && r.value.Some? ==>
            var v := Find(reviews, id).value.body;
            var u := r.value.value.body;
            && r.value.value.id == id
            && u.title == (if input.title.Some? then Trim(input.title.value) else v.title)
            && u.text == input.text.GetOr(v.text)
            && u.rating == input.rating.GetOr(v.rating)
            && u.diveCenter == input.diveCenter.GetOr(v.diveCenter)
            && u.user == input.user.GetOr(v.user))
  {
  }

  /** A stored document satisfies what the store keeps of all of them. */
  lemma FoundCenterOk(centers: seq<Doc<DiveCenter>>, courses: seq<Doc<Course>>, reviews: seq<Doc<Review>>, id: Id)
    requires Consistent(centers, courses, reviews) && Find(centers, id).Some?
    ensures CenterOk(Find(centers, id).value.body)
  {
    var k :| 0 <= k < |centers| && centers[k] == Find(centers, id).value;
  }

  lemma FoundCourseOk(centers: seq<Doc<DiveCenter>>, courses: seq<Doc<Course>>, reviews: seq<Doc<Review>>, id: Id)
    requires Consistent(centers, courses, reviews) && Find(courses, id).Some?
    ensures CourseOk(Find(courses, id).value.body)
  {
    var k :| 0 <= k < |courses| && courses[k] == Find(courses, id).value;
  }

  lemma FoundReviewOk(centers: seq<Doc<DiveCenter>>, courses: seq<Doc<Course>>, reviews: seq<Doc<Review>>, id: Id)
    requires Consistent(centers, courses, reviews) && Find(reviews, id).Some?
    ensures ReviewOk(Find(reviews, id).value.body)
  {
    var k :| 0 <= k < |reviews| && reviews[k] == Find(reviews, id).value;
  }

  class Directory {
    var diveCenters: seq<Doc<DiveCenter>>
    var courses: seq<Doc<Course>>
    var reviews: seq<Doc<Review>>
    /** The ids of the registered users, which `checkIdExists` consults. */
    const users: set<Id>
    const svc: Services

    ghost predicate Valid()
      reads this
    {
      Consistent(diveCenters, courses, reviews)
    }

    constructor (users: set<Id>, svc: Services)
      ensures Valid()
      ensures diveCenters == [] && courses == [] && reviews == []
      ensures this.users == users && this.svc == svc
    {
      this.users := users;
      this.svc := svc;
      diveCenters := [];
      courses := [];
      reviews := [];
    }

    method CreateDiveCenter(id: Id, input: DiveCenterInput) returns (r: Result<Doc<DiveCenter>, ErrorValue>)
      requires Valid()
      modifies this
      ensures Valid()
      ensures r == CenterCreation(old(diveCenters), users, svc, id, input)
      ensures diveCenters == if r.Ok? then old(diveCenters) + [r.value] else old(diveCenters)
      ensures courses == old(courses) && reviews == old(reviews)
    {
      r := CenterCreation(diveCenters, users, svc, id, input);
      if r.Ok? {
        AppendCenterConsistent(diveCenters, courses, reviews, r.value);
        diveCenters := diveCenters + [r.value];
      }
    }

    method UpdateDiveCenter(id: Id, input: DiveCenterInput) returns (r: Result<Option<Doc<DiveCenter>>, ErrorValue>)
      requires Valid()
      modifies this
      ensures Valid()
      ensures r == CenterUpdate(old(diveCenters), users, svc, id, input)
      ensures diveCenters == if r.Ok? && r.value.Some? then Replace(old(diveCenters), id, r.value.value) else old(diveCenters)
      ensures courses == old(courses) && reviews == old(reviews)
    {
      r := CenterUpdate(diveCenters, users, svc, id, input);
      if r.Ok? && r.value.Some? {
        FoundCenterOk(diveCenters, courses, reviews, id);
        ReplaceCenterConsistent(diveCenters, courses, reviews, r.value.value);
        diveCenters := Replace(diveCenters, id, r.value.value);
      }
    }

    /** `findByIdAndUpdate(id, {photo: name})`, without validators. */
    method StorePhoto(id: Id, name: string)
      requires Valid()
      modifies this
      ensures Valid()
      ensures diveCenters == PatchCenter(old(diveCenters), id, SetPhoto(name))
      ensures courses == old(courses) && reviews == old(reviews)
    {
      PatchConsistent(diveCenters, courses, reviews, id, SetPhoto(name));
      diveCenters := PatchCenter(diveCenters, id, SetPhoto(name));
    }

    /** `getAverageCost(center)`: a failed read of the empty aggregate is
        caught and logged, so a dive center without courses is left alone. */
    method RefreshAverageCost(center: Id)
      requires Valid()
      modifies this
      ensures Valid()
      ensures diveCenters == CostRefreshed(old(diveCenters), courses, center)
      ensures courses == old(courses) && reviews == old(reviews)
    {
      CostRefreshedConsistent(diveCenters, courses, reviews, center);
      var average := AverageCost(courses, center);
      if average.Some? {
        diveCenters := PatchCenter(diveCenters, center, SetCost(average.value));
      }
    }

    /** `getAverageRating(center)`, with the same silent skip. */
    method RefreshAverageRating(center: Id)
      requires Valid()
      modifies this
      ensures Valid()
      ensures diveCenters == RatingRefreshed(old(diveCenters), reviews, center)
      ensures courses == old(courses) && reviews == old(reviews)
    {
      RatingRefreshedConsistent(diveCenters, courses, reviews, center);
      var average := AverageRating(reviews, center);
      if average.Some? {
        diveCenters := PatchCenter(diveCenters, center, SetRating(average.value));
      }
    }

    /** `diveCenter.remove()`: the pre-remove hook deletes the dive center's
        courses (its reviews stay), then the dive center goes. */
    method RemoveDiveCenter(id: Id)
      requires Valid()
      modifies this
      ensures Valid()
      ensures courses == CoursesAfterCascade(old(courses), id)
      ensures diveCenters == Without(old(diveCenters), id)
      ensures reviews == old(reviews)
    {
      DistinctWhere(courses, IdOf, NotOfCenter(id));
      courses := CoursesAfterCascade(courses, id);
      DistinctWithout(diveCenters, IdOf, id);
      DistinctWithout(diveCenters, NameOf, id);
      diveCenters := Without(diveCenters, id);
    }

    /** `Course.create`, then the post-save recomputation of the dive
        center's average cost. */
    method CreateCourse(id: Id, input: CourseInput) returns (r: Result<Doc<Course>, ErrorValue>)
      requires Valid()
      modifies this
      ensures Valid()
      ensures r == CourseCreation(old(courses), id, input)
      ensures r.Ok? ==>
        && courses == old(courses) + [r.value]
        && diveCenters == CostRefreshed(old(diveCenters), courses, r.value.body.diveCenter)
      ensures r.Err? ==> courses == old(courses) && diveCenters == old(diveCenters)
      ensures reviews == old(reviews)
    {
      r := CourseCreation(courses, id, input);
      if r.Ok? {
        AppendCourseConsistent(diveCenters, courses, reviews, r.value);
        courses := courses + [r.value];
        // post-save
        RefreshAverageCost(r.value.body.diveCenter);
      }
    }

    /** `Course.findByIdAndUpdate`; no hook runs, so the average cost is not
        recomputed. */
    method UpdateCourse(id: Id, input: CourseInput) returns (r: Result<Option<Doc<Course>>, ErrorValue>)
      requires Valid()
      modifies this
      ensures Valid()
      ensures r == CourseUpdate(old(courses), id, input)
      ensures courses == if r.Ok? && r.value.Some? then Replace(old(courses), id, r.value.value) else old(courses)
      ensures diveCenters == old(diveCenters) && reviews == old(reviews)
    {
      r := CourseUpdate(courses, id, input);
      if r.Ok? && r.value.Some? {
        FoundCourseOk(diveCenters, courses, reviews, id);
        ReplaceCourseConsistent(diveCenters, courses, reviews, r.value.value);
        courses := Replace(courses, id, r.value.value);
      }
    }

    /** `course.remove()`: the pre-remove hook recomputes the average cost
        while the course is still stored, then the course goes. */
    method RemoveCourse(id: Id)
      requires Valid()
      modifies this
      ensures Valid()
      ensures reviews == old(reviews)
      ensures Find(old(courses), id).None? ==> courses == old(courses) && diveCenters == old(diveCenters)
      ensures Find(old(courses), id).Some? ==>
        && diveCenters == CostRefreshed(old(diveCenters), old(courses), Find(old(courses), id).value.body.diveCenter)
        && courses == Without(old(courses), id)
    {
      var found := Find(courses, id);
      if found.Some? {
        // pre-remove
        RefreshAverageCost(found.value.body.diveCenter);
        DistinctWithout(courses, IdOf, id);
        courses := Without(courses, id);
      }
    }

    /** `Review.create`, then the post-save recomputation of the dive
        center's average rating. */
    method CreateReview(id: Id, input: ReviewInput) returns (r: Result<Doc<Review>, ErrorValue>)
      requires Valid()
      modifies this
      ensures Valid()
      ensures r == ReviewCreation(old(reviews), svc.numberText, id, input)
      ensures r.Ok? ==>
        && reviews == old(reviews) + [r.value]
        && diveCenters == RatingRefreshed(old(diveCenters), reviews, r.value.body.diveCenter)
      ensures r.Err? ==> reviews == old(reviews) && diveCenters == old(diveCenters)
      ensures courses == old(courses)
    {
      r := ReviewCreation(reviews, svc.numberText, id, input);
      if r.Ok? {
        AppendReviewConsistent(diveCenters, courses, reviews, r.value);
        reviews := reviews + [r.value];
        // post-save
        RefreshAverageRating(r.value.body.diveCenter);
      }
    }

    /** `Review.findByIdAndUpdate`; no hook runs. */
    method UpdateReview(id: Id, input: ReviewInput) returns (r: Result<Option<Doc<Review>>, ErrorValue>)
      requires Valid()
      modifies this
      ensures Valid()
      ensures r == ReviewUpdate(old(reviews), svc.numberText, id, input)
      ensures reviews == if r.Ok? && r.value.Some? then Replace(old(reviews), id, r.value.value) else old(reviews)
      ensures diveCenters == old(diveCenters) && courses == old(courses)
    {
      r := ReviewUpdate(reviews, svc.numberText, id, input);
      if r.Ok? && r.value.Some? {
        FoundReviewOk(diveCenters, courses, reviews, id);
        ReplaceReviewConsistent(diveCenters, courses, reviews, r.value.value);
        reviews := Replace(reviews, id, r.value.value);
      }
    }

    /** `review.remove()`: the pre-remove hook recomputes the average rating
        while the review is still stored, then the review goes. */
    method RemoveReview(id: Id)
      requires Valid()
      modifies this
      ensures Valid()
      ensures courses == old(courses)
      ensures Find(old(reviews), id).None? ==> reviews == old(reviews) && diveCenters == old(diveCenters)
      ensures Find(old(reviews), id).Some? ==>
        && diveCenters == RatingRefreshed(old(diveCenters), old(reviews), Find(old(reviews), id).value.body.diveCenter)
        && reviews == Without(old(reviews), id)
    {
      var found := Find(reviews, id);
      if found.Some? {
        // pre-remove
        RefreshAverageRating(found.value.body.diveCenter);
        DistinctWithout(reviews, IdOf, id);
        DistinctWithout(reviews, PairOf, id);
        reviews := Without(reviews, id);
      }
    }
  }
}
