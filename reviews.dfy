/** The review handlers of controllers/reviews.js over the store. */
module Reviews {
  import opened Shared
  import opened Collection
  import opened Models
  import opened ErrorMiddleware
  import opened Store

  /** What a review reply carries under `data`. */
  datatype ReviewData =
    | ReviewList(reviews: seq<Doc<Review>>)
    | Populated(review: Doc<Review>, diveCenter: Option<CenterSummary>)
    | Created(review: Doc<Review>)
    | Updated(review: Doc<Review>)
    | Nothing

  type Outcome = Result<Reply<ReviewData>, ErrorValue>

  function NotFoundError(id: Id): ErrorValue {
    AppError("Review not found with the id of " + id, 404)
  }

  /** The one refusal of both `updateReview` and `deleteReview`. */
  function OwnerError(): ErrorValue {
    AppError("Not authorized to update review", 401)
  }

  function ParamText(v: Option<Id>): string {
    if v.Some? then v.value else "undefined"
  }

  /** `getReviews` under `/diveCenters/:diveCenterId/reviews`: the reviews of
      that dive center, in stored order, with their number. */
  method GetReviews(db: Directory, diveCenterId: Id) returns (r: Outcome)
    ensures !IsObjectId(diveCenterId) ==> r == Err(CastFailure(diveCenterId))
    ensures IsObjectId(diveCenterId) ==>
      && r.Ok? && r.value.status == 200 && r.value.body.Data? && r.value.body.key == "success"
      && r.value.body.data == ReviewList(ReviewsOf(db.reviews, diveCenterId))
      && r.value.body.count == Some(|ReviewsOf(db.reviews, diveCenterId)|)
  {
    if !IsObjectId(diveCenterId) {
      return Err(CastFailure(diveCenterId));
    }
    var reviews := ReviewsOf(db.reviews, diveCenterId);
    r := Ok(Reply(200, Data("success", ReviewList(reviews), Some(|reviews|))));
  }

  /** `getReview`: the review with its dive center's name and description. */
  method GetReview(db: Directory, id: Id) returns (r: Outcome)
    ensures !IsObjectId(id) ==> r == Err(CastFailure(id))
    ensures IsObjectId(id) && Find(db.reviews, id).None? ==> r == Err(NotFoundError(id))
    ensures IsObjectId(id) && Find(db.reviews, id).Some? ==>
      var v := Find(db.reviews, id).value;
      r == Ok(Reply(200, Data("success", Populated(v, Summary(db.diveCenters, v.body.diveCenter)), None)))
  {
    if !IsObjectId(id) {
      return Err(CastFailure(id));
    }
    var found := Find(db.reviews, id);
    if found.None? {
      return Err(NotFoundError(id));
    }
    var v := found.value;
    r := Ok(Reply(200, Data("success", Populated(v, Summary(db.diveCenters, v.body.diveCenter)), None)));
  }

  /** `addReview`: the body's `diveCenter` becomes the route's dive center
      and its `user` the caller; the dive center must exist (404), but need
      not belong to the caller; then the review is created and the dive
      center's average rating recomputed. */
  method AddReview(db: Directory, actor: Actor, diveCenterId: Option<Id>, id: Id, body: ReviewInput) returns (r: Outcome)
    requires db.Valid()
    modifies db
    ensures db.Valid()
    ensures diveCenterId.Some? && !IsObjectId(diveCenterId.value) ==> r == Err(CastFailure(diveCenterId.value))
    ensures (diveCenterId.None? || (IsObjectId(diveCenterId.value) && Find(old(db.diveCenters), diveCenterId.value).None?)) ==>
      r == Err(AppError("diveCenter not found with the id of " + ParamText(diveCenterId), 404))
    ensures diveCenterId.Some? && IsObjectId(diveCenterId.value) && Find(old(db.diveCenters), diveCenterId.value).Some? ==>
      var created := ReviewCreation(old(db.reviews), db.svc.numberText, id, body.(diveCenter := diveCenterId, user := Some(actor.id)));
      && r == (if created.Ok? then Ok(Reply(201, Data("success", Created(created.value), None))) else Err(created.error))
      && (created.Ok? ==>
            && db.reviews == old(db.reviews) + [created.value]
            && db.diveCenters == RatingRefreshed(old(db.diveCenters), db.reviews, diveCenterId.value))
    ensures r.Err? ==> db.reviews == old(db.reviews) && db.diveCenters == old(db.diveCenters)
    ensures r.Ok? ==>
      && r.value.body.data.Created? && r.value.body.data.review.body.user == actor.id
      && Some(r.value.body.data.review.body.diveCenter) == diveCenterId
    ensures db.courses == old(db.courses)
  {
    var input := body.(diveCenter := diveCenterId, user := Some(actor.id));
    if diveCenterId.Some? && !IsObjectId(diveCenterId.value) {
      return Err(CastFailure(diveCenterId.value));
    }
    var found := if diveCenterId.Some? then Find(db.diveCenters, diveCenterId.value) else None;
    if found.None? {
      return Err(AppError("diveCenter not found with the id of " + ParamText(diveCenterId), 404));
    }
    var created := db.CreateReview(id, input);
    if created.Err? {
      return Err(created.error);
    }
    ReviewCreationOwner(old(db.reviews), db.svc.numberText, id, input);
    r := Ok(Reply(201, Data("success", Created(created.value), None)));
  }

  /** `updateReview`: cast, 404, the review's author or an admin (401), then
      the validated update; no hook recomputes the average rating. */
  method UpdateReview(db: Directory, actor: Actor, id: Id, body: ReviewInput) returns (r: Outcome)
    requires db.Valid()
    modifies db
    ensures db.Valid()
    ensures !IsObjectId(id) ==> r == Err(CastFailure(id))
    ensures IsObjectId(id) && Find(old(db.reviews), id).None? ==> r == Err(NotFoundError(id))
    ensures IsObjectId(id) && Find(old(db.reviews), id).Some? && !Authorized(Find(old(db.reviews), id).value.body.user, actor) ==>
      r == Err(OwnerError())
    ensures IsObjectId(id) && Find(old(db.reviews), id).Some? && Authorized(Find(old(db.reviews), id).value.body.user, actor) ==>
      var updated := ReviewUpdate(old(db.reviews), db.svc.numberText, id, body);
      && (updated.Ok? ==> updated.value.Some?)
      && r == (if updated.Ok? then Ok(Reply(200, Data("success", Updated(updated.value.value), None))) else Err(updated.error))
      && db.reviews == (if updated.Ok? then Replace(old(db.reviews), id, updated.value.value) else old(db.reviews))
    ensures r.Err? ==> db.reviews == old(db.reviews)
    ensures db.diveCenters == old(db.diveCenters) && db.courses == old(db.courses)
  {
    if !IsObjectId(id) {
      return Err(CastFailure(id));
    }
    var found := Find(db.reviews, id);
    if found.None? {
      return Err(NotFoundError(id));
    }
    if !Authorized(found.value.body.user, actor) {
      return Err(OwnerError());
    }
    var updated := db.UpdateReview(id, body);
    if updated.Err? {
      return Err(updated.error);
    }
    r := Ok(Reply(200, Data("success", Updated(updated.value.value), None)));
  }

  /** `deleteReview`: cast, 404, ownership (401, with the update message);
      then the pre-remove recomputation and the removal of that review. */
  method DeleteReview(db: Directory, actor: Actor, id: Id) returns (r: Outcome)
    requires db.Valid()
    modifies db
    ensures db.Valid()
    ensures !IsObjectId(id) ==> r == Err(CastFailure(id))
    ensures IsObjectId(id) && Find(old(db.reviews), id).None? ==> r == Err(NotFoundError(id))
    ensures IsObjectId(id) && Find(old(db.reviews), id).Some? && !Authorized(Find(old(db.reviews), id).value.body.user, actor) ==>
      r == Err(OwnerError())
    ensures r.Err? ==> db.reviews == old(db.reviews) && db.diveCenters == old(db.diveCenters)
    ensures IsObjectId(id) && Find(old(db.reviews), id).Some? && Authorized(Find(old(db.reviews), id).value.body.user, actor) ==>
      && r == Ok(Reply(200, Data("success", Nothing, None)))
      && db.reviews == Without(old(db.reviews), id)
      && db.diveCenters == RatingRefreshed(old(db.diveCenters), old(db.reviews), Find(old(db.reviews), id).value.body.diveCenter)
    ensures db.courses == old(db.courses)
  {
    if !IsObjectId(id) {
      return Err(CastFailure(id));
    }
    var found := Find(db.reviews, id);
    if found.None? {
      return Err(NotFoundError(id));
    }
    if !Authorized(found.value.body.user, actor) {
      return Err(OwnerError());
    }
    db.RemoveReview(id);
    r := Ok(Reply(200, Data("success", Nothing, None)));
  }
}
