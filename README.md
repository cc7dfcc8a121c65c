# Dive-Centers-API in Dafny

A model of the request-handling core of the Dive-Centers-API. This is an
Express/Mongoose REST service for a directory of dive centers: publishers
list dive centers and their courses, and users review the dive centers.
The model covers:

- **The three stored collections** (`Store`, store.dfy). They are
  dive centers, courses and reviews, each a sequence of documents in
  insertion (natural) order. They sit inside the class `Store.Directory`,
  whose invariant `Valid` is the store's unique indexes (`_id`, dive-center
  `name`, review `(diveCenter, user)`) plus the field constraints validation
  guarantees. The Mongoose operations the controllers issue are its
  methods, with the hooks the model files attach:
  - create: validation, slug, geocoding, then the unique indexes;
  - `findByIdAndUpdate`: the validators of the paths the body sets, and no hook;
  - remove: the course cascade, and the average recomputation before a child goes;
  - the average recomputations after a child is saved.
- **The schemas of the three models** (`Models`, models.dfy). This covers:
  - the validator messages in schema order;
  - the document a create or an update produces;
  - the `courses` virtual and the cascade;
  - the two aggregates: the mean course price rounded up to a multiple of
    ten, and the exact mean rating.
- **The handlers** of controllers/diveCenters.js, controllers/courses.js
  and controllers/reviews.js (`DiveCenters`, `Courses`, `Reviews`). They are
  methods over a `Directory`. Each contract gives the reply or error for
  every branch, in the order the handler checks them: cast, 404, ownership
  401, request rules. It also gives the exact new contents of every
  collection.
- **The error middleware** (`ErrorMiddleware`, errors.dfy): `errorHandler`'s
  override chain and `notFound`.
- **The routers** (`Routes`, routes.dfy). They are pure functions from a
  method, a path and the caller to the handler reached or the refusal:
  - 401 without a caller, 403 for a role the route does not allow;
  - the nested course and review routes;
  - `notFound`;
  - the user router's admin gate and its choice of Joi schema for POST and PUT.
- **The Joi request schemas** (`Validation`, validation.dfy). The schemas
  are data. A first-failure validator is proved equal to a direct statement
  of acceptance. Each schema's guarantees are proved from it.

The collaborators the code calls into are parameters:

- `slugify`, the geocoder, the two regular expressions and JavaScript's
  rendering of a number as text are fields of `Models.Services`.
- What Joi's regular expressions accept, its string-to-number conversion
  and its date parsing are fields of `Validation.Oracles`.
- The upload size limit (`MAX_FILE_UPLOAD`) and the outcome of moving the
  uploaded file are parameters of `DiveCenters.PhotoUpload`.
- The users who exist (what `checkIdExists` consults) are the constant
  `Store.Directory.users`.
- A new document's id is a parameter of each create.

The code and the repository's descriptions differ in a few places. Where
they do, the model follows the code:

- **The JavaScript does not await the hooks.** The model runs them to
  completion, in the order they are issued. The pre-remove recomputation
  of a course or review therefore still sees the child being removed. After
  deleting one of two reviews rated 5 and 6, the stored average stays 5.5,
  not the remaining rating (`Store.Directory.RemoveReview`,
  `Store.Directory.RemoveCourse`).
- **The routes apply Joi only to the user router** (routes/users.js:29, 34).
  The repository's integration tests expect Joi messages such as
  `"title" is required` for dive-center, course and review bodies. In the
  routes as written, those bodies reach Mongoose, so the model gives them
  Mongoose's messages (`Models.CenterCreateErrors` and its siblings). The
  Joi schemas of those three resources are modelled and proved on their own
  (`Validation`).
- **Some replies spell the success key `sucess`.** The error replies do
  (middleware/error.js:31), and so do the replies of `getDiveCenter`,
  `updateDiveCenter`, `deleteDiveCenter` and the photo upload. The model
  keeps each spelling where it appears.
- **The upper-bound message of `averageRating` is kept as written:**
  "Rating can not be more than 1" (models/DiveCenter.js:69).

## Model

| member | source | states |
|---|---|---|
| Models.CenterCreateErrors | models/DiveCenter.js:8-92 | No message exactly when name, description, address and user are present and each field constraint holds: trimmed name 1-50 characters, description 1-500, URL and email patterns, phone at most 20, non-empty address, `location.type` equal to `Point` when given, rating in [1, 10], user exists. An absent `specialties` defaults to an empty array, which `required` accepts |
| Models.CenterLocation | models/DiveCenter.js:44-49 | A given location passes exactly when its `type` is `Point` |
| Models.CenterUpdateErrors | models/DiveCenter.js:8-92 | A validated update passes exactly when every path the body sets meets its schema constraint; absent paths are not checked |
| Models.CourseCreateErrors | models/Course.js:3-40 | No message exactly when all seven paths are present, the trimmed title and the description are non-empty, and the skill is beginner, intermediate or advanced |
| Models.CourseUpdateErrors | models/Course.js:3-40 | An update passes exactly when each set title, description and skill meets its constraint |
| Models.ReviewCreateErrors | models/Review.js:3-34 | No message exactly when title, text, rating, dive center and user are present, the trimmed title has 1-100 characters, the text is non-empty and the rating lies in [1, 10] |
| Models.ReviewUpdateErrors | models/Review.js:3-34 | An update passes exactly when each set title, text and rating meets its constraint |
| Models.ReviewRating | models/Review.js:14-19 | A rating passes exactly when it is given and lies in [1, 10]. Below 1 and above 10 yield Mongoose's default min and max messages, which print the value |
| Models.NewCenter | models/DiveCenter.js:95-118 | A saved dive center has its slug made from its (trimmed) name, its location the geocoded point, no address, and photo `no-photo.jpg` unless one was given |
| Models.UpdatedCenter | controllers/diveCenters.js:59-62 | An update replaces the name (trimmed) and the location only when the body sets them, and keeps the slug and the two averages unless the body sets them |
| Models.CoursesOf | models/DiveCenter.js:127-132 | The `courses` virtual holds exactly the stored courses whose `diveCenter` is the given id |
| Models.CoursesAfterCascade | models/DiveCenter.js:121-124 | After the cascade, exactly the courses of other dive centers remain, and none of the removed center's |
| Models.ReviewsOf | models/Review.js:42-52 | The `$match` stage keeps exactly the reviews of the given dive center |
| Models.CeilToTen | models/Course.js:59 | `Math.ceil(mean / 10) * 10` is a multiple of ten, at least the mean and less than the mean plus ten |
| Models.AverageCost | models/Course.js:43-64 | None exactly when the dive center has no course; otherwise a multiple of ten in [mean price, mean price + 10) |
| Models.AverageRating | models/Review.js:40-61 | None exactly when the dive center has no review; otherwise the exact mean: times the count, it equals the sum of the ratings |
| Models.AverageRatingInRange | models/Review.js:40-61 | When every stored rating lies in [1, 10], so does the average written back |
| ErrorMiddleware.ErrorHandler | middleware/error.js:3-32 | ValidationError gives 400 with the joined path messages. Otherwise code 11000 gives 400 "Duplicate field value entered". Otherwise CastError gives 404 "Resource not found". Otherwise the reply uses `statusCode` or 500, and the message or 'Server Error'. Every body is a failure under the key `sucess` |
| ErrorMiddleware.AppErrorReply | middleware/error.js:31 | An `ErrorResponse` with a message and a status reaches the client with exactly that status and message |
| ErrorMiddleware.ValidationReply | middleware/error.js:25-29 | A validation failure answers 400 with the per-path messages joined by commas |
| ErrorMiddleware.NotFound | middleware/error.js:34-36 | Unmatched routes answer 404 with `success` false and 'Route not found' |
| Store.PatchCenter | models/Course.js:58-60 | A hook's `findByIdAndUpdate` changes only the dive center with that id, in only the written field; a missing id changes nothing |
| Store.CostRefreshed | models/Course.js:43-64 | The recomputation writes the rounded mean price to that one dive center, and leaves everything unchanged when it has no course (the failed read is caught) |
| Store.RatingRefreshed | models/Review.js:40-61 | The recomputation writes the exact mean rating to that one dive center, and leaves everything unchanged when it has no review |
| Store.RatingRefreshedConsistent | models/Review.js:40-61 | Writing the mean rating keeps every store invariant, the dive-center rating range included |
| Store.AppendReviewConsistent | models/Review.js:37 | Inserting a review whose id and (diveCenter, user) pair are both unused keeps both unique indexes |
| Store.CenterCreation | models/DiveCenter.js:8-118 | A created dive center carries the given id, satisfies the field constraints, and breaks neither the `_id` nor the `name` index |
| Store.CenterCreationCases | models/DiveCenter.js:95-118 | Each outcome holds exactly when its step is the first to fail. A validation error comes exactly when the body is incomplete. A `longitude` read of undefined comes exactly when the body is complete but the geocoder finds nothing. A duplicate key comes exactly when the id or the trimmed name is taken. Otherwise the result is the document with the trimmed name, the geocoded point and the body's user |
| Store.CenterCreationOwner | controllers/diveCenters.js:30-40 | A created dive center belongs to the user the body names, and that user exists |
| Store.CenterUpdate | controllers/diveCenters.js:59-62 | A successful update returns a document exactly when the id is stored, keeps the name index, and keeps the field constraints |
| Store.CenterUpdateCases | controllers/diveCenters.js:59-62 | A validation error comes exactly when a set path breaks its constraint. Null comes exactly when the body is valid and the id is missing. A duplicate key comes exactly when another dive center holds the name the document ends with |
| Store.CourseCreation | models/Course.js:3-40 | A created course has the given id, an unused one, and satisfies the course constraints |
| Store.CourseCreationCases | models/Course.js:3-40 | A validation error comes exactly when the body is incomplete, and a duplicate key exactly when the body is complete and the id is taken. Otherwise the course holds the body's values, with the title trimmed |
| Store.CourseCreationOwner | controllers/courses.js:42-43 | A created course belongs to the dive center and the user the body names |
| Store.CourseUpdate | controllers/courses.js:78 | A validated course update returns a document exactly when the id is stored, and keeps the constraints |
| Store.CourseUpdateCases | controllers/courses.js:78 | A validation error comes exactly when a set path breaks its constraint, and null exactly when the body is valid and the id is missing. Otherwise each set path is replaced and every other path is kept |
| Store.ReviewCreation | models/Review.js:3-37 | A created review has the given id, and neither its id nor its (diveCenter, user) pair is taken |
| Store.ReviewCreationCases | models/Review.js:37 | A validation error comes exactly when the body is incomplete. A duplicate key comes exactly when the body is complete and the id or the (diveCenter, user) pair is taken. Otherwise the review holds the body's values, with the title trimmed |
| Store.ReviewCreationOwner | controllers/reviews.js:39-40 | A created review belongs to the dive center and the user the body names |
| Store.ReviewUpdate | controllers/reviews.js:68-71 | A validated review update returns a document exactly when the id is stored, never duplicates a pair, and keeps the constraints |
| Store.ReviewUpdateCases | controllers/reviews.js:68-71 | A validation error comes exactly when a set path breaks its constraint. Null comes exactly when the body is valid and the id is missing. A duplicate key comes exactly when another review holds the pair the document ends with. Otherwise each set path is replaced and every other path is kept |
| Store.Directory.CreateDiveCenter | controllers/diveCenters.js:40 | Appends exactly the created document, or nothing on failure, keeps the invariant, and touches no course or review |
| Store.Directory.UpdateDiveCenter | controllers/diveCenters.js:59-62 | Replaces exactly the target document on success, keeps the invariant, and changes nothing else |
| Store.Directory.StorePhoto | controllers/diveCenters.js:150 | Writes only the photo of that dive center |
| Store.Directory.RefreshAverageCost | models/Course.js:43-64 | The dive centers become the cost-refreshed ones; courses and reviews are unchanged; the invariant holds |
| Store.Directory.RefreshAverageRating | models/Review.js:40-61 | The dive centers become the rating-refreshed ones, and the rating range survives |
| Store.Directory.RemoveDiveCenter | models/DiveCenter.js:121-124 | The dive center goes, its courses go with it, its reviews stay |
| Store.Directory.CreateCourse | models/Course.js:67-69 | On success the course is appended, and then the average cost of its dive center is recomputed with it included |
| Store.Directory.UpdateCourse | controllers/courses.js:78 | The course is replaced and no average is recomputed |
| Store.Directory.RemoveCourse | models/Course.js:72-75 | The average cost is recomputed while the course is still stored, then only that course goes |
| Store.Directory.CreateReview | models/Review.js:64-66 | On success the review is appended, then the average rating is recomputed with it included |
| Store.Directory.UpdateReview | controllers/reviews.js:68-71 | The review is replaced and no average is recomputed |
| Store.Directory.RemoveReview | models/Review.js:69-72 | The average rating is recomputed while the review is still stored, then only that review goes |
| DiveCenters.Published | controllers/diveCenters.js:33 | `findOne({user})` finds nothing exactly when no stored dive center belongs to that user |
| DiveCenters.GetDiveCenter | controllers/diveCenters.js:17-23 | A malformed id is a cast error, an unknown one a 404 "DiveCenter not found with id of …", a stored one 200 with that document; nothing changes |
| DiveCenters.CreateDiveCenter | controllers/diveCenters.js:28-42 | A non-admin who already owns a dive center gets 400 "already published" and nothing changes. Otherwise the creation runs with the caller as owner, whatever the body says. On success: 201 and exactly one new dive center |
| DiveCenters.UpdateDiveCenter | controllers/diveCenters.js:47-65 | Checks run cast, then existence (404), then owner-or-admin (401), each leaving the store unchanged. Then the validated update replaces only that record and the reply is 200 with it |
| DiveCenters.DeleteDiveCenter | controllers/diveCenters.js:70-84 | Cast, 404, 401 leave everything unchanged; otherwise 200 with empty data, the dive center and its courses removed, reviews kept |
| DiveCenters.Ext | controllers/diveCenters.js:142 | The extension is the suffix of the name from its last dot, with no further dot and shorter than the name. It is empty exactly when the name is `..` or has no dot after its first character |
| DiveCenters.PhotoName | controllers/diveCenters.js:142 | The stored file name starts with `photo_` and the dive center's id |
| DiveCenters.UploadCheck | controllers/diveCenters.js:125-139 | Accepts exactly a present `file` whose type starts with `image` and whose size is within the ceiling. The failures come in the handler's order: no files gives 400 "Please upload a file"; no `file` field gives a `mimetype` read of undefined; a non-image gives 400 "Please upload an image file"; an oversized image gives 400 with the ceiling in the message |
| DiveCenters.PhotoUpload | controllers/diveCenters.js:114-154 | Cast, 404 and 401 come first. The four upload failures follow, each with its own error and in the handler's order. A failed move gives 500 with the photo unchanged. Only a successful move stores `photo_<id><ext>` and answers 200 with it |
| Courses.GetCourses | controllers/courses.js:11-18 | The nested list is exactly the dive center's courses in stored order, with their count |
| Courses.GetCourse | controllers/courses.js:24-35 | Cast error, or 404 "Course not found with the id of …", or 200 with the course and its dive center's name and description |
| Courses.AddCourse | controllers/courses.js:41-59 | The body gets the route's dive center and the caller as user. A missing dive center is a 404, checked before ownership. The caller must own the dive center or be an admin (401). On success: 201, one new course, the average cost refreshed |
| Courses.UpdateCourse | controllers/courses.js:65-81 | Cast, 404, then the course's own owner or an admin (401), then the validated update of that course only; dive centers unchanged |
| Courses.DeleteCourse | controllers/courses.js:87-103 | Cast, 404, 401; otherwise 200 with empty data, only that course removed, the average recomputed before the removal |
| Reviews.GetReviews | controllers/reviews.js:10-17 | The nested list is exactly the dive center's reviews in stored order, with their count |
| Reviews.GetReview | controllers/reviews.js:22-33 | Cast error, or 404, or 200 with the review and its dive center's name and description |
| Reviews.AddReview | controllers/reviews.js:38-51 | The body gets the route's dive center and the caller as user. The only check is that the dive center exists (404); there is no ownership check. On success: 201, one new review, the average rating refreshed |
| Reviews.UpdateReview | controllers/reviews.js:56-74 | Cast, 404, then the author or an admin ("Not authorized to update review", 401), then the validated update of that review only |
| Reviews.DeleteReview | controllers/reviews.js:79-94 | Cast, 404, the same 401 message as update; otherwise 200 with empty data, only that review removed |
| Validation.ValidateAccepts | validationSchemas/diveCenters.js:4-17 | The first-failure validator passes a body exactly when every declared key conforms or is absent but optional, and no undeclared key appears |
| Validation.FirstMissingReported | validationSchemas/courses.js:4-13 | When all keys before a required key pass and that key is absent, "\"key\" is required" is the reported message |
| Validation.RelaxedAccepts | validationSchemas/diveCenters.js:20-33 | A schema that declares every key of another with the same kinds and requires no more accepts every body the other accepts |
| Validation.DiveCenterCreateFields | validationSchemas/diveCenters.js:5-11 | A dive-center body accepted for creation has a name, a description, an address and specialties |
| Validation.DiveCenterUpdateFields | validationSchemas/diveCenters.js:20-33 | In an accepted body, each given name has at most 50 characters, description at most 500 and phone at most 20. A given address is a non-empty string, specialties a non-empty list of non-empty strings, and averageRating a number in [1, 10] |
| Validation.DiveCenterCreateAcceptedForUpdate | validationSchemas/diveCenters.js:4-33 | Whatever the creation schema accepts, the update schema accepts |
| Validation.DateOutOfRange | validationSchemas/diveCenters.js:15 | A number for `createdAt` beyond 8.64e15 milliseconds is refused as "\"createdAt\" must be a valid date", and one at the edge of the range is accepted |
| Validation.DiveCenterEmptyBody | validationSchemas/diveCenters.js:5 | An empty body is refused with "\"name\" is required" |
| Validation.CourseCreateFields | validationSchemas/courses.js:4-13 | A course body accepted for creation has title, description, days, price and minimumSkill |
| Validation.CourseUpdateFields | validationSchemas/courses.js:16-25 | Given title and description are non-empty strings, days and price are numbers, minimumSkill is one of the three levels |
| Validation.CourseCreateAcceptedForUpdate | validationSchemas/courses.js:4-25 | Whatever the course creation schema accepts, the update schema accepts |
| Validation.CourseMissingOrder | validationSchemas/courses.js:5-6 | `{}` is refused for its title, `{title}` for its description |
| Validation.CourseMissingDays | validationSchemas/courses.js:5-7 | With title and description given, the missing days are reported |
| Validation.ReviewCreateFields | validationSchemas/reviews.js:4-11 | A review body accepted for creation has a title, a text and a rating |
| Validation.ReviewUpdateFields | validationSchemas/reviews.js:14-21 | A given title has at most 100 characters, a given text is non-empty, a given rating is a number in [1, 10] |
| Validation.ReviewCreateAcceptedForUpdate | validationSchemas/reviews.js:4-21 | Whatever the review creation schema accepts, the update schema accepts |
| Validation.ReviewMissingOrder | validationSchemas/reviews.js:5-6 | `{}` is refused for its title, `{title}` for its text |
| Validation.ReviewMissingRating | validationSchemas/reviews.js:5-7 | With title and text given, the missing rating is reported |
| Validation.UserCreateFields | validationSchemas/users.js:4-12 | A user body accepted for creation has a name, an email and a password of at least 6 characters, and a role, if given, of user or publisher |
| Validation.UserUpdateFields | validationSchemas/users.js:15-25 | A given role is user or publisher; a given password, currentPassword or newPassword has at least 6 characters |
| Validation.UserUpdateAcceptsEmpty | validationSchemas/users.js:15-25 | The update schema requires nothing: the empty body passes |
| Validation.UserMissingOrder | validationSchemas/users.js:5-6 | `{}` is refused for its name, `{name}` for its email |
| Validation.UserMissingPassword | validationSchemas/users.js:5-8 | With a name and a valid email, the missing password is reported |
| Validation.AdminRoleRefused | validationSchemas/users.js:7 | A body asking for the admin role fails both user schemas |
| Routes.Gate | routes/courses.js:20 | `protect` then `authorize`: the handler exactly when there is a caller with an allowed role; 401 exactly without a caller; 403 exactly for a caller with another role |
| Routes.Validated | routes/users.js:29 | `validate(schema)` reaches the handler exactly when the body passes, and answers the validation message otherwise |
| Routes.CoursesRoleTable | routes/courses.js:17-28 | Every route reaches a handler or `notFound`; the lists and single reads are public, and POST, PUT and DELETE admit only publishers and admins |
| Routes.ReviewsRoleTable | routes/reviews.js:17-28 | The same shape, with POST, PUT and DELETE admitting only users and admins |
| Routes.DiveCentersRoleTable | routes/diveCenters.js:24-48 | Every dive-center route, nested ones included, gates as the role table says: reads public, writes and the photo upload for publishers and admins, reviews for users and admins |
| Routes.NestedRouting | routes/diveCenters.js:25-26 | `/:id/courses/...` and `/:id/reviews/...` are answered by the course and review routers with the id merged in as `diveCenterId` |
| Routes.WrongRoleForbidden | routes/diveCenters.js:25-39 | A user-role caller gets 403 creating a dive center or adding a course; a publisher gets 403 adding a review |
| Collection.WhereAppend | controllers/courses.js:13 | Filtering keeps insertion order: a document appended at the end is listed at the end when it matches |
| Routes.UnknownRoute | routes/diveCenters.js:24-48 | Every method and path outside the router's table answers 'Route not found'. Every route of the table other than the nested prefixes reaches its handler or the gate in front of it |
| Routes.UsersAdminOnly | routes/users.js:23-24 | Every request to the user router gets 401 exactly without a caller, 403 exactly for a non-admin, and otherwise comes from an admin |
| Routes.UsersValidation | routes/users.js:26-35 | POST is validated with the creation schema and PUT with the update schema; an accepted body reaches its handler |
| Routes.NoAdminByRequest | routes/users.js:29-34 | No request whose body asks for the admin role reaches the create or update user handler |

## Left out

- `getDiveCenters`, `getCourses` and `getReviews` without a dive center, and `getUsers`: their payload is built by `middleware/advancedResults.js` (filtering, sorting, paging, population). That file is not part of this model. The routers still dispatch to these handlers.
- `getDiveCentersInRadius`: a geocoder call, floating-point `distance / 3963` and a `$geoWithin` query. The router dispatches to it; the handler is not modelled.
- The slug algorithm, the geocoder, the URL and email regular expressions, and Joi's number and date parsing: library behaviour, entered as functions. Only the ObjectId pattern (24 hex digits) is written out.
- Files and environment: moving the upload and reading `MAX_FILE_UPLOAD` are parameters. A missing setting is an absent ceiling; a comparison with a non-numeric setting is not modelled.
- Timing: hooks the code does not await run to completion, in order. Interleavings of concurrent requests and of an un-awaited hook with the reply are not modelled.
- `createdAt` (a clock read) and `Date` values are not stored. Numbers are exact: prices are integers, ratings are rationals, and floating-point rounding is not modelled.
- String lengths count characters, not UTF-16 code units.
- Ids are strings; a 12-byte ObjectId given as a non-hex string, and case differences between hex ids, are not modelled.
- Paths are given as segments after the router's mount point. URL decoding, trailing slashes, query strings and the mounting in routes/load.js are not modelled, nor is routes/auth.js.
- middleware/auth.js is not part of this model: token verification is reduced to "a caller or none", and the bodies of its 401/403 replies are not modelled.
- middleware/validate.js is not part of this model: the 400 body it sends for a Joi failure is not modelled, only the message (`Routes.Dispatch.Invalid`).
- utils/errorResponse.js is not part of this model. An `ErrorResponse` is taken to carry its message and status. A `ValidationError`'s message array is rendered as the messages joined with commas, as JavaScript converts an array to a string.
- models/validate.js is not part of this model: `checkIdExists` is membership in `Store.Directory.users`.
- Joi's checks for infinite and unsafe numbers, its string conversion of non-string values, and its ordering of asynchronous validators are not modelled.
- The user handlers themselves (controllers/users.js) and the User model are not part of this model; the user router is modelled only up to the handler it reaches.
- Models.UpdatedCenter: its contract states the name, location, slug and the two averages. The other paths replace the stored value when the body sets them, which is shown in its body but not stated field by field.
- Models.CenterCreateErrors: the `required` of `specialties` follows Mongoose 5 and later, where an array fails only when it is null or undefined and an absent array defaults to `[]`. An explicit `null` for `specialties` cannot be written in the model's input, so that failure is not modelled.
- Models.CenterLocation: `location.coordinates` is cast to numbers and the address parts are free strings; those casts are not modelled. A location without a `type`, which the enum lets through, cannot be written in the model's input.
- ErrorMiddleware.UndefinedRead: the message follows the wording of Node 15 and earlier ("Cannot read property 'x' of undefined"). Node 16 and later word it differently, which changes the 500 body.
- Models.CenterCreateErrors: when several paths fail, the messages are listed in schema order. Mongoose lists the unset required paths first and then the set paths in body key order (and an update in its key order); that order is not modelled. The same holds for Models.CenterUpdateErrors, Models.CourseCreateErrors, Models.CourseUpdateErrors, Models.ReviewCreateErrors and Models.ReviewUpdateErrors.
- Models.CourseCreateErrors: the input holds values already cast to their schema types (`days: '1'` arrives as 1). A value Mongoose cannot cast is not modelled: on create its cast message inside the `ValidationError`, on `findByIdAndUpdate` the `CastError` that the middleware answers with 404. The same holds for Models.CenterCreateErrors, Models.CenterUpdateErrors, Models.CourseUpdateErrors, Models.ReviewCreateErrors and Models.ReviewUpdateErrors.
- Validation.Conforms: a number given for a date is accepted exactly when it lies within the time range of 8.64e15 milliseconds. A JSON number that `JSON.parse` reads as Infinity (such as `1e400`) cannot be written in the model's `Json`, so its rejection is not modelled.
- Validation.Lookup: a JSON body with a repeated key is not modelled faithfully. The model takes the first occurrence, while `JSON.parse` keeps the last.
- Validation.UnknownError: unknown keys are reported in body order. `Object.keys` lists integer-like keys first in ascending order, which is not modelled.
