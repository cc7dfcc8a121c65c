/** The routers: which handler a method and a path reach, and the
    authentication and role gates (`protect`, `authorize`) in front of each
    handler. A path is given as its segments after the router's mount point;
    literal segments match without regard to ASCII case and a parameter
    matches any non-empty segment. */
module Routes {
  import opened Shared
  import opened Validation

  datatype Method = GET | POST | PUT | DELETE

  /** The handlers of the four routers, with the route parameters they receive.
      `diveCenterId` is the merged parameter of a nested route, absent when the
      router is reached directly. */
  datatype Endpoint =
    | GetDiveCenters | GetDiveCentersInRadius(address: string, distance: string)
    | CreateDiveCenter | GetDiveCenter(id: Id) | UpdateDiveCenter(id: Id)
    | DeleteDiveCenter(id: Id) | DiveCenterPhotoUpload(id: Id)
    | GetCourses(diveCenterId: Option<Id>) | AddCourse(diveCenterId: Option<Id>)
    | GetCourse(id: Id) | UpdateCourse(id: Id) | DeleteCourse(id: Id)
    | GetReviews(diveCenterId: Option<Id>) | AddReview(diveCenterId: Option<Id>)
    | GetReview(id: Id) | UpdateReview(id: Id) | DeleteReview(id: Id)
    | GetUsers | CreateUser | GetUser(id: Id) | UpdateUser(id: Id) | DeleteUser(id: Id)

  /** Where a request ends up: in a handler; refused by a gate with 401 (no
      authenticated caller) or 403 (a role the route does not allow); refused
      by request validation with its message (answered 400); answered by the
      router's `notFound`; or passed out of a router that has no fallback. */
  datatype Dispatch = Handler(endpoint: Endpoint) | Denied(status: int) | Invalid(message: string)
                    | RouteNotFound | Unhandled

  /** `protect` followed by `authorize(...roles)`. */
  function Gate(caller: Option<Actor>, roles: set<Role>, e: Endpoint): (r: Dispatch)
    ensures r == Handler(e) <==> caller.Some? && caller.value.role in roles
    ensures r == Denied(401) <==> caller.None?
    ensures r == Denied(403) <==> caller.Some? && caller.value.role !in roles
  {
    if caller.None? then Denied(401)
    else if caller.value.role !in roles then Denied(403)
    else Handler(e)
  }

  function PublisherOrAdmin(): set<Role> { {Publisher, Admin} }

  function UserOrAdmin(): set<Role> { {User, Admin} }

  /** A route parameter: any non-empty segment. */
  predicate Param(segment: string) { segment != "" }

  /** The course router, mounted at `/api/v1/courses` and under
      `/api/v1/diveCenters/:diveCenterId/courses`. */
  function CoursesRouter(m: Method, path: seq<string>, diveCenterId: Option<Id>, caller: Option<Actor>): (r: Dispatch)
  {
    if path == [] then
      match m
      case GET => Handler(GetCourses(diveCenterId))
      case POST => Gate(caller, PublisherOrAdmin(), AddCourse(diveCenterId))
      case _ => RouteNotFound
    else if |path| == 1 && Param(path[0]) then
      match m
      case GET => Handler(GetCourse(path[0]))
      case PUT => Gate(caller, PublisherOrAdmin(), UpdateCourse(path[0]))
      case DELETE => Gate(caller, PublisherOrAdmin(), DeleteCourse(path[0]))
      case POST => RouteNotFound
    else RouteNotFound
  }

  /** The review router, mounted at `/api/v1/reviews` and under
      `/api/v1/diveCenters/:diveCenterId/reviews`. */
  function ReviewsRouter(m: Method, path: seq<string>, diveCenterId: Option<Id>, caller: Option<Actor>): (r: Dispatch)
  {
    if path == [] then
      match m
      case GET => Handler(GetReviews(diveCenterId))
      case POST => Gate(caller, UserOrAdmin(), AddReview(diveCenterId))
      case _ => RouteNotFound
    else if |path| == 1 && Param(path[0]) then
      match m
      case GET => Handler(GetReview(path[0]))
      case PUT => Gate(caller, UserOrAdmin(), UpdateReview(path[0]))
      case DELETE => Gate(caller, UserOrAdmin(), DeleteReview(path[0]))
      case POST => RouteNotFound
    else RouteNotFound
  }

  /** The dive-center router, mounted at `/api/v1/diveCenters`: the nested
      routers first, then its routes in the order they are declared. */
  function DiveCentersRouter(m: Method, path: seq<string>, caller: Option<Actor>): (r: Dispatch)
  {
    if |path| >= 2 && Param(path[0]) && SameWord(path[1], "courses") then
      CoursesRouter(m, path[2..], Some(path[0]), caller)
    else if |path| >= 2 && Param(path[0]) && SameWord(path[1], "reviews") then
      ReviewsRouter(m, path[2..], Some(path[0]), caller)
    else if m == GET && |path| == 3 && SameWord(path[0], "radius") && Param(path[1]) && Param(path[2]) then
      Handler(GetDiveCentersInRadius(path[1], path[2]))
    else if m == PUT && |path| == 2 && Param(path[0]) && SameWord(path[1], "photo") then
      Gate(caller, PublisherOrAdmin(), DiveCenterPhotoUpload(path[0]))
    else if path == [] then
      match m
      case GET => Handler(GetDiveCenters)
      case POST => Gate(caller, PublisherOrAdmin(), CreateDiveCenter)
      case _ => RouteNotFound
    else if |path| == 1 && Param(path[0]) then
      match m
      case GET => Handler(GetDiveCenter(path[0]))
      case PUT => Gate(caller, PublisherOrAdmin(), UpdateDiveCenter(path[0]))
      case DELETE => Gate(caller, PublisherOrAdmin(), DeleteDiveCenter(path[0]))
      case POST => RouteNotFound
    else RouteNotFound
  }

  /** `validate(schema)`: the handler, or the first validation message. */
  function Validated(s: Schema, body: Body, o: Oracles, e: Endpoint): (r: Dispatch)
    ensures r == Handler(e) <==> Validate(s, body, o).None?
    ensures r.Invalid? <==> Validate(s, body, o).Some?
  {
    match Validate(s, body, o)
    case Some(message) => Invalid(message)
    case None => Handler(e)
  }

  /** The user router, mounted at `/api/v1/users`: authentication and the
      admin role are required for everything that enters it, and the bodies
      of POST and PUT are validated. It has no `notFound` of its own. */
  function UsersRouter(m: Method, path: seq<string>, caller: Option<Actor>, body: Body, o: Oracles): (r: Dispatch)
  {
    if caller.None? then Denied(401)
    else if caller.value.role != Admin then Denied(403)
    else if path == [] then
      match m
      case GET => Handler(GetUsers)
      case POST => Validated(UserSchema(), body, o, CreateUser)
      case _ => Unhandled
    else if |path| == 1 && Param(path[0]) then
      match m
      case GET => Handler(GetUser(path[0]))
      case PUT => Validated(UserOptionalSchema(), body, o, UpdateUser(path[0]))
      case DELETE => Handler(DeleteUser(path[0]))
      case POST => Unhandled
    else Unhandled
  }

  // ---------------------------------------------------------------------------
  // The role table, stated on its own

  /** The handlers that read and need no caller. */
  predicate Public(e: Endpoint) {
    e.GetDiveCenters? || e.GetDiveCentersInRadius? || e.GetDiveCenter?
    || e.GetCourses? || e.GetCourse? || e.GetReviews? || e.GetReview?
  }

  /** Who may reach each handler that is not public: publishers and admins
      write dive centers and courses, users and admins write reviews, and only
      admins touch users. */
  function Roles(e: Endpoint): set<Role> {
    if e.CreateDiveCenter? || e.UpdateDiveCenter? || e.DeleteDiveCenter? || e.DiveCenterPhotoUpload?
       || e.AddCourse? || e.UpdateCourse? || e.DeleteCourse? then {Publisher, Admin}
    else if e.AddReview? || e.UpdateReview? || e.DeleteReview? then {User, Admin}
    else if Public(e) then {User, Publisher, Admin}
    else {Admin}
  }

  /** An administrator, the caller no gate refuses. */
  function Root(): Actor { Actor("", Admin) }

  /** The answer of the handler-level routers for any caller, from the handler
      an administrator reaches: public handlers answer everyone, the others go
      through the gate of their role set. */
  predicate GatedAsTable(admin: Dispatch, r: Dispatch, caller: Option<Actor>) {
    && (admin == RouteNotFound ==> r == RouteNotFound)
    && (admin.Handler? ==>
          r == if Public(admin.endpoint) then admin else Gate(caller, Roles(admin.endpoint), admin.endpoint))
  }

  lemma CoursesRoleTable(m: Method, path: seq<string>, diveCenterId: Option<Id>, caller: Option<Actor>)
    ensures CoursesRouter(m, path, diveCenterId, Some(Root())).Handler?
            || CoursesRouter(m, path, diveCenterId, Some(Root())) == RouteNotFound
    ensures GatedAsTable(CoursesRouter(m, path, diveCenterId, Some(Root())),
                         CoursesRouter(m, path, diveCenterId, caller), caller)
  {
  }

  lemma ReviewsRoleTable(m: Method, path: seq<string>, diveCenterId: Option<Id>, caller: Option<Actor>)
    ensures ReviewsRouter(m, path, diveCenterId, Some(Root())).Handler?
            || ReviewsRouter(m, path, diveCenterId, Some(Root())) == RouteNotFound
    ensures GatedAsTable(ReviewsRouter(m, path, diveCenterId, Some(Root())),
                         ReviewsRouter(m, path, diveCenterId, caller), caller)
  {
  }

  /** Every route of the dive-center router, nested ones included, gates as
      the role table says. */
  lemma DiveCentersRoleTable(m: Method, path: seq<string>, caller: Option<Actor>)
    ensures DiveCentersRouter(m, path, Some(Root())).Handler?
            || DiveCentersRouter(m, path, Some(Root())) == RouteNotFound
    ensures GatedAsTable(DiveCentersRouter(m, path, Some(Root())), DiveCentersRouter(m, path, caller), caller)
  {
    if |path| >= 2 && Param(path[0]) && SameWord(path[1], "courses") {
      CoursesRoleTable(m, path[2..], Some(path[0]), caller);
    } else if |path| >= 2 && Param(path[0]) && SameWord(path[1], "reviews") {
      ReviewsRoleTable(m, path[2..], Some(path[0]), caller);
    }
  }

  /** Every request into the user router that is not refused by its gate
      comes from an administrator; the others get 401 or 403. */
  lemma UsersAdminOnly(m: Method, path: seq<string>, caller: Option<Actor>, body: Body, o: Oracles)
    ensures UsersRouter(m, path, caller, body, o) == Denied(401) <==> caller.None?
    ensures UsersRouter(m, path, caller, body, o) == Denied(403) <==> caller.Some? && caller.value.role != Admin
    ensures !UsersRouter(m, path, caller, body, o).Denied? ==> caller == Some(Actor(caller.value.id, Admin))
  {
  }

  /** POST to the user router is validated with the creation schema, PUT with
      the update schema; an accepted body reaches the handler. */
  lemma UsersValidation(id: Id, caller: Actor, body: Body, o: Oracles)
    requires caller.role == Admin && id != ""
    ensures UsersRouter(POST, [], Some(caller), body, o)
            == if Validate(UserSchema(), body, o).Some? then Invalid(Validate(UserSchema(), body, o).value)
               else Handler(CreateUser)
    ensures UsersRouter(PUT, [id], Some(caller), body, o)
            == if Validate(UserOptionalSchema(), body, o).Some? then Invalid(Validate(UserOptionalSchema(), body, o).value)
               else Handler(UpdateUser(id))
  {
  }

  /** A user cannot be created or updated with the admin role through the
      user router. */
  lemma NoAdminByRequest(m: Method, path: seq<string>, caller: Option<Actor>, body: Body, o: Oracles)
    requires Lookup(body, "role") == Some(JStr("admin"))
    requires UsersRouter(m, path, caller, body, o).Handler?
    ensures !UsersRouter(m, path, caller, body, o).endpoint.CreateUser?
    ensures !UsersRouter(m, path, caller, body, o).endpoint.UpdateUser?
  {
    AdminRoleRefused(body, o);
  }

  // ---------------------------------------------------------------------------
  // Particular routes

  /** The nested routes reach the course and review routers with the dive
      center's id merged in. */
  lemma NestedRouting(m: Method, diveCenterId: Id, rest: seq<string>, caller: Option<Actor>)
    requires Param(diveCenterId)
    ensures DiveCentersRouter(m, [diveCenterId, "courses"] + rest, caller)
            == CoursesRouter(m, rest, Some(diveCenterId), caller)
    ensures DiveCentersRouter(m, [diveCenterId, "reviews"] + rest, caller)
            == ReviewsRouter(m, rest, Some(diveCenterId), caller)
  {
    assert ([diveCenterId, "courses"] + rest)[2..] == rest;
    assert ([diveCenterId, "reviews"] + rest)[2..] == rest;
    assert !SameWord("reviews", "courses") by {
      assert LowerAscii("reviews"[0]) != LowerAscii("courses"[0]);
    }
  }

  /** A caller with the user role cannot create a dive center or add a course,
      and a publisher cannot add a review. */
  lemma WrongRoleForbidden(id: Id, diveCenterId: Id)
    requires Param(diveCenterId)
    ensures DiveCentersRouter(POST, [], Some(Actor(id, User))) == Denied(403)
    ensures DiveCentersRouter(POST, [diveCenterId, "courses"], Some(Actor(id, User))) == Denied(403)
    ensures DiveCentersRouter(POST, [diveCenterId, "reviews"], Some(Actor(id, Publisher))) == Denied(403)
  {
    NestedRouting(POST, diveCenterId, [], Some(Actor(id, User)));
    NestedRouting(POST, diveCenterId, [], Some(Actor(id, Publisher)));
  }

  /** The paths the dive-center router hands to the nested routers. */
  predicate Nested(path: seq<string>) {
    |path| >= 2 && Param(path[0]) && (SameWord(path[1], "courses") || SameWord(path[1], "reviews"))
  }

  /** The routes the dive-center router declares, as a table: `/`, `/:id`,
      `/:id/photo` and `/radius/:zipcode/:distance`, with their methods,
      and the nested prefixes. */
  predicate DiveCenterRoute(m: Method, path: seq<string>) {
    || Nested(path)
    || (path == [] && (m == GET || m == POST))
    || (|path| == 1 && Param(path[0]) && m != POST)
    || (m == PUT && |path| == 2 && Param(path[0]) && SameWord(path[1], "photo"))
    || (m == GET && |path| == 3 && SameWord(path[0], "radius") && Param(path[1]) && Param(path[2]))
  }

  /** A method and path outside the table answer 'Route not found', and
      every route of the table other than the nested ones reaches a handler
      or the gate in front of it. */
  lemma UnknownRoute(m: Method, path: seq<string>, caller: Option<Actor>)
    ensures !DiveCenterRoute(m, path) ==> DiveCentersRouter(m, path, caller) == RouteNotFound
    ensures DiveCenterRoute(m, path) && !Nested(path) ==> DiveCentersRouter(m, path, caller) != RouteNotFound
    ensures DiveCentersRouter(GET, ["notfound", "notfound"], caller) == RouteNotFound
  {
  }
}
