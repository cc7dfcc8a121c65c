/** The course handlers of controllers/courses.js over the store. */
module Courses {
  import opened Shared
  import opened Collection
  import opened Models
  import opened ErrorMiddleware
  import opened Store

  /** What a course reply carries under `data`. */
  datatype CourseData =
    | CourseList(courses: seq<Doc<Course>>)
    | Populated(course: Doc<Course>, diveCenter: Option<CenterSummary>)
    | Created(course: Doc<Course>)
    | Updated(course: Doc<Course>)
    | Nothing

  type Outcome = Result<Reply<CourseData>, ErrorValue>

  function NotFoundError(id: Id): ErrorValue {
    AppError("Course not found with the id of " + id, 404)
  }

  /** `findById(undefined)` looks for `_id: null` and finds nothing; the
      message then prints `undefined`. */
  function ParamText(v: Option<Id>): string {
    if v.Some? then v.value else "undefined"
  }

  /** `getCourses` under `/diveCenters/:diveCenterId/courses`: the courses of
      that dive center, in stored order, with their number. */
  method GetCourses(db: Directory, diveCenterId: Id) returns (r: Outcome)
    ensures !IsObjectId(diveCenterId) ==> r == Err(CastFailure(diveCenterId))
    ensures IsObjectId(diveCenterId) ==>
      && r.Ok? && r.value.status == 200 && r.value.body.Data? && r.value.body.key == "success"
      && r.value.body.data == CourseList(CoursesOf(db.courses, diveCenterId))
      && r.value.body.count == Some(|CoursesOf(db.courses, diveCenterId)|)
  {
    if !IsObjectId(diveCenterId) {
      return Err(CastFailure(diveCenterId));
    }
    var courses := CoursesOf(db.courses, diveCenterId);
    r := Ok(Reply(200, Data("success", CourseList(courses), Some(|courses|))));
  }

  /** `getCourse`: the course with its dive center's name and description. */
  method GetCourse(db: Directory, id: Id) returns (r: Outcome)
    ensures !IsObjectId(id) ==> r == Err(CastFailure(id))
    ensures IsObjectId(id) && Find(db.courses, id).None? ==> r == Err(NotFoundError(id))
    ensures IsObjectId(id) && Find(db.courses, id).Some? ==>
      var c := Find(db.courses, id).value;
      r == Ok(Reply(200, Data("success", Populated(c, Summary(db.diveCenters, c.body.diveCenter)), None)))
  {
    if !IsObjectId(id) {
      return Err(CastFailure(id));
    }
    var found := Find(db.courses, id);
    if found.None? {
      return Err(NotFoundError(id));
    }
    var c := found.value;
    r := Ok(Reply(200, Data("success", Populated(c, Summary(db.diveCenters, c.body.diveCenter)), None)));
  }

  /** `addCourse`: the body's `diveCenter` becomes the route's dive center
      and its `user` the caller; the dive center must exist (404) and belong
      to the caller unless the caller is an admin (401); then the course is
      created and the dive center's average cost recomputed. */
  method AddCourse(db: Directory, actor: Actor, diveCenterId: Option<Id>, id: Id, body: CourseInput) returns (r: Outcome)
    requires db.Valid()
    modifies db
    ensures db.Valid()
    ensures diveCenterId.Some? && !IsObjectId(diveCenterId.value) ==> r == Err(CastFailure(diveCenterId.value))
    ensures (diveCenterId.None? || (IsObjectId(diveCenterId.value) && Find(old(db.diveCenters), diveCenterId.value).None?)) ==>
      r == Err(AppError("DiveCenter not found with the id of " + ParamText(diveCenterId), 404))
    ensures diveCenterId.Some? && IsObjectId(diveCenterId.value) && Find(old(db.diveCenters), diveCenterId.value).Some? ==>
      var center := Find(old(db.diveCenters), diveCenterId.value).value;
      && (!Authorized(center.body.user, actor) ==>
            r == Err(AppError("User " + actor.id + " is not authorized to add a course to diveCenter " + center.id, 401)))
      && (Authorized(center.body.user, actor) ==>
            var created := CourseCreation(old(db.courses), id, body.(diveCenter := diveCenterId, user := Some(actor.id)));
            && r == (if created.Ok? then Ok(Reply(201, Data("success", Created(created.value), None))) else Err(created.error))
            && (created.Ok? ==>
                  && db.courses == old(db.courses) + [created.value]
                  && db.diveCenters == CostRefreshed(old(db.diveCenters), db.courses, diveCenterId.value)))
    ensures r.Err? ==> db.courses == old(db.courses) && db.diveCenters == old(db.diveCenters)
    ensures r.Ok? ==>
      && r.value.body.data.Created? && r.value.body.data.course.body.user == actor.id
      && Some(r.value.body.data.course.body.diveCenter) == diveCenterId
    ensures db.reviews == old(db.reviews)
  {
    var input := body.(diveCenter := diveCenterId, user := Some(actor.id));
    if diveCenterId.Some? && !IsObjectId(diveCenterId.value) {
      return Err(CastFailure(diveCenterId.value));
    }
    var found := if diveCenterId.Some? then Find(db.diveCenters, diveCenterId.value) else None;
    if found.None? {
      return Err(AppError("DiveCenter not found with the id of " + ParamText(diveCenterId), 404));
    }
    var center := found.value;
    if !Authorized(center.body.user, actor) {
      return Err(AppError("User " + actor.id + " is not authorized to add a course to diveCenter " + center.id, 401));
    }
    var created := db.CreateCourse(id, input);
    if created.Err? {
      return Err(created.error);
    }
    CourseCreationOwner(old(db.courses), id, input);
    r := Ok(Reply(201, Data("success", Created(created.value), None)));
  }

  /** `updateCourse`: cast, 404, the course's own owner or an admin (401),
      then the validated update; no hook recomputes the average cost. */
  method UpdateCourse(db: Directory, actor: Actor, id: Id, body: CourseInput) returns (r: Outcome)
    requires db.Valid()
    modifies db
    ensures db.Valid()
    ensures !IsObjectId(id) ==> r == Err(CastFailure(id))
    ensures IsObjectId(id) && Find(old(db.courses), id).None? ==> r == Err(NotFoundError(id))
    ensures IsObjectId(id) && Find(old(db.courses), id).Some? && !Authorized(Find(old(db.courses), id).value.body.user, actor) ==>
      r == Err(AppError("User " + actor.id + " is not authorized to update course " + id, 401))
    ensures IsObjectId(id) && Find(old(db.courses), id).Some? && Authorized(Find(old(db.courses), id).value.body.user, actor) ==>
      var updated := CourseUpdate(old(db.courses), id, body);
      && (updated.Ok? ==> updated.value.Some?)
      && r == (if updated.Ok? then Ok(Reply(200, Data("success", Updated(updated.value.value), None))) else Err(updated.error))
      && db.courses == (if updated.Ok? then Replace(old(db.courses), id, updated.value.value) else old(db.courses))
    ensures r.Err? ==> db.courses == old(db.courses)
    ensures db.diveCenters == old(db.diveCenters) && db.reviews == old(db.reviews)
  {
    if !IsObjectId(id) {
      return Err(CastFailure(id));
    }
    var found := Find(db.courses, id);
    if found.None? {
      return Err(NotFoundError(id));
    }
    if !Authorized(found.value.body.user, actor) {
      return Err(AppError("User " + actor.id + " is not authorized to update course " + id, 401));
    }
    var updated := db.UpdateCourse(id, body);
    if updated.Err? {
      return Err(updated.error);
    }
    r := Ok(Reply(200, Data("success", Updated(updated.value.value), None)));
  }

  /** `deleteCourse`: cast, 404, ownership (401); then the pre-remove
      recomputation and the removal of that one course. */
  method DeleteCourse(db: Directory, actor: Actor, id: Id) returns (r: Outcome)
    requires db.Valid()
    modifies db
    ensures db.Valid()
    ensures !IsObjectId(id) ==> r == Err(CastFailure(id))
    ensures IsObjectId(id) && Find(old(db.courses), id).None? ==> r == Err(NotFoundError(id))
    ensures IsObjectId(id) && Find(old(db.courses), id).Some? && !Authorized(Find(old(db.courses), id).value.body.user, actor) ==>
      r == Err(AppError("User " + actor.id + " is not authorized to delete course " + id, 401))
    ensures r.Err? ==> db.courses == old(db.courses) && db.diveCenters == old(db.diveCenters)
    ensures IsObjectId(id) && Find(old(db.courses), id).Some? && Authorized(Find(old(db.courses), id).value.body.user, actor) ==>
      && r == Ok(Reply(200, Data("success", Nothing, None)))
      && db.courses == Without(old(db.courses), id)
      && db.diveCenters == CostRefreshed(old(db.diveCenters), old(db.courses), Find(old(db.courses), id).value.body.diveCenter)
    ensures db.reviews == old(db.reviews)
  {
    if !IsObjectId(id) {
      return Err(CastFailure(id));
    }
    var found := Find(db.courses, id);
    if found.None? {
      return Err(NotFoundError(id));
    }
    if !Authorized(found.value.body.user, actor) {
      return Err(AppError("User " + actor.id + " is not authorized to delete course " + id, 401));
    }
    db.RemoveCourse(id);
    r := Ok(Reply(200, Data("success", Nothing, None)));
  }
}
