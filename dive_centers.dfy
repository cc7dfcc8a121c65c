/** The dive-center handlers of controllers/diveCenters.js over the store:
    each looks its target up, checks ownership, applies its own rules and
    only then writes. A handler either replies or passes an error on to the
    error middleware. */
module DiveCenters {
  import opened Shared
  import opened Collection
  import opened Models
  import opened ErrorMiddleware
  import opened Store

  /** What a dive-center reply carries under `data`. */
  datatype CenterData = Center(doc: Doc<DiveCenter>) | Nothing | FileName(name: string)

  type Outcome = Result<Reply<CenterData>, ErrorValue>

  function NotFoundError(id: Id): ErrorValue {
    AppError("DiveCenter not found with id of " + id, 404)
  }

  function OwnerError(actor: Actor, action: string): ErrorValue {
    AppError("User " + actor.id + " is not authorized to " + action + " this diveCenter", 401)
  }

  /** `DiveCenter.findOne({user})` finds something. */
  predicate Published(centers: seq<Doc<DiveCenter>>, user: Id)
    ensures !Published(centers, user) <==> forall i :: 0 <= i < |centers| ==> centers[i].body.user != user
  {
    exists i | 0 <= i < |centers| :: centers[i].body.user == user
  }

  /** `getDiveCenter`: a parameter that is no ObjectId fails the cast; an
      unknown id is a 404; a stored one is returned, and nothing changes. */
  method GetDiveCenter(db: Directory, id: Id) returns (r: Outcome)
    ensures !IsObjectId(id) ==> r == Err(CastFailure(id))
    ensures IsObjectId(id) && Find(db.diveCenters, id).None? ==> r == Err(NotFoundError(id))
    ensures IsObjectId(id) && Find(db.diveCenters, id).Some? ==>
      r == Ok(Reply(200, Data("sucess", Center(Find(db.diveCenters, id).value), None)))
  {
    if !IsObjectId(id) {
      return Err(CastFailure(id));
    }
    var found := Find(db.diveCenters, id);
    if found.None? {
      return Err(NotFoundError(id));
    }
    r := Ok(Reply(200, Data("sucess", Center(found.value), None)));
  }

  /** `createDiveCenter`: the body's `user` becomes the caller; a caller who
      is no admin and already owns a dive center is refused before anything
      is written; otherwise the dive center is created as the store decides. */
  method CreateDiveCenter(db: Directory, actor: Actor, id: Id, body: DiveCenterInput) returns (r: Outcome)
    requires db.Valid()
    modifies db
    ensures db.Valid()
    ensures Published(old(db.diveCenters), actor.id) && actor.role != Admin ==>
      && r == Err(AppError("The user with ID " + actor.id + " has already published a diveCenter", 400))
      && db.diveCenters == old(db.diveCenters)
    ensures !Published(old(db.diveCenters), actor.id) || actor.role == Admin ==>
      var created := CenterCreation(old(db.diveCenters), db.users, db.svc, id, body.(user := Some(actor.id)));
      && r == (if created.Ok? then Ok(Reply(201, Data("success", Center(created.value), None))) else Err(created.error))
      && db.diveCenters == (if created.Ok? then old(db.diveCenters) + [created.value] else old(db.diveCenters))
    ensures r.Ok? ==> r.value.body.data.Center? && r.value.body.data.doc.body.user == actor.id
    ensures db.courses == old(db.courses) && db.reviews == old(db.reviews)
  {
    var input := body.(user := Some(actor.id));
    if Published(db.diveCenters, actor.id) && actor.role != Admin {
      return Err(AppError("The user with ID " + actor.id + " has already published a diveCenter", 400));
    }
    var created := db.CreateDiveCenter(id, input);
    if created.Err? {
      return Err(created.error);
    }
    CenterCreationOwner(old(db.diveCenters), db.users, db.svc, id, input);
    r := Ok(Reply(201, Data("success", Center(created.value), None)));
  }

  /** `updateDiveCenter`: cast, 404, then ownership (401), then the validated
      update; the reply carries the updated document. */
  method UpdateDiveCenter(db: Directory, actor: Actor, id: Id, body: DiveCenterInput) returns (r: Outcome)
    requires db.Valid()
    modifies db
    ensures db.Valid()
    ensures !IsObjectId(id) ==> r == Err(CastFailure(id)) && db.diveCenters == old(db.diveCenters)
    ensures IsObjectId(id) && Find(old(db.diveCenters), id).None? ==>
      r == Err(NotFoundError(id)) && db.diveCenters == old(db.diveCenters)
    ensures IsObjectId(id) && Find(old(db.diveCenters), id).Some? && !Authorized(Find(old(db.diveCenters), id).value.body.user, actor) ==>
      r == Err(OwnerError(actor, "update")) && db.diveCenters == old(db.diveCenters)
    ensures IsObjectId(id) && Find(old(db.diveCenters), id).Some? && Authorized(Find(old(db.diveCenters), id).value.body.user, actor) ==>
      var updated := CenterUpdate(old(db.diveCenters), db.users, db.svc, id, body);
      && (updated.Ok? ==> updated.value.Some?)
      && r == (if updated.Ok? then Ok(Reply(200, Data("sucess", Center(updated.value.value), None))) else Err(updated.error))
      && db.diveCenters == (if updated.Ok? then Replace(old(db.diveCenters), id, updated.value.value) else old(db.diveCenters))
    ensures db.courses == old(db.courses) && db.reviews == old(db.reviews)
  {
    if !IsObjectId(id) {
      return Err(CastFailure(id));
    }
    var found := Find(db.diveCenters, id);
    if found.None? {
      return Err(NotFoundError(id));
    }
    if !Authorized(found.value.body.user, actor) {
      return Err(OwnerError(actor, "update"));
    }
    var updated := db.UpdateDiveCenter(id, body);
    if updated.Err? {
      return Err(updated.error);
    }
    r := Ok(Reply(200, Data("sucess", Center(updated.value.value), None)));
  }

  /** `deleteDiveCenter`: cast, 404, ownership (401); then the dive center
      goes together with its courses and the reply carries an empty object. */
  method DeleteDiveCenter(db: Directory, actor: Actor, id: Id) returns (r: Outcome)
    requires db.Valid()
    modifies db
    ensures db.Valid()
    ensures !IsObjectId(id) ==> r == Err(CastFailure(id))
    ensures IsObjectId(id) && Find(old(db.diveCenters), id).None? ==> r == Err(NotFoundError(id))
    ensures IsObjectId(id) && Find(old(db.diveCenters), id).Some? && !Authorized(Find(old(db.diveCenters), id).value.body.user, actor) ==>
      r == Err(OwnerError(actor, "delete"))
    ensures r.Err? ==> db.diveCenters == old(db.diveCenters) && db.courses == old(db.courses)
    ensures IsObjectId(id) && Find(old(db.diveCenters), id).Some? && Authorized(Find(old(db.diveCenters), id).value.body.user, actor) ==>
      && r == Ok(Reply(200, Data("sucess", Nothing, None)))
      && db.diveCenters == Without(old(db.diveCenters), id)
      && db.courses == CoursesAfterCascade(old(db.courses), id)
    ensures db.reviews == old(db.reviews)
  {
    if !IsObjectId(id) {
      return Err(CastFailure(id));
    }
    var found := Find(db.diveCenters, id);
    if found.None? {
      return Err(NotFoundError(id));
    }
    if !Authorized(found.value.body.user, actor) {
      return Err(OwnerError(actor, "delete"));
    }
    db.RemoveDiveCenter(id);
    r := Ok(Reply(200, Data("sucess", Nothing, None)));
  }

  /* ----------------------------------------------------------- photo upload */

  /** An uploaded file as `express-fileupload` describes it. */
  datatype Upload = Upload(name: string, mimetype: string, size: nat)

  /** `req.files`: present when the request carried files, with the one
      under the field `file` if there is one. */
  datatype Files = Files(file: Option<Upload>)

  /** The index of the last `.` in `s`. */
  function LastDot(s: string): (r: Option<nat>)
    ensures r.Some? ==> r.value < |s| && s[r.value] == '.' && forall i :: r.value < i < |s| ==> s[i] != '.'
    ensures r.None? ==> forall i :: 0 <= i < |s| ==> s[i] != '.'
  {
    if s == [] then None
    else if s[|s| - 1] == '.' then Some(|s| - 1)
    else LastDot(s[..|s| - 1])
  }

  /** `path.parse(name).ext` for a bare file name: from the last `.` on,
      except when that dot opens the name or the name is `..`. */
  function Ext(name: string): (e: string)
    ensures e == [] || (e[0] == '.' && 0 < |e| < |name| && e == name[|name| - |e|..])
    ensures forall i :: 0 < i < |e| ==> e[i] != '.'
    ensures e == [] <==> name == ".." || forall i :: 0 < i < |name| ==> name[i] != '.'
  {
    match LastDot(name)
    case None => ""
    case Some(k) => if k == 0 || name == ".." then "" else name[k..]
  }

  /** The stored file name: `photo_`, the dive center's id, the extension. */
  function PhotoName(id: Id, name: string): (r: string)
    ensures StartsWith(r, "photo_" + id)
    ensures |r| <= |"photo_" + id| + |name|
  {
    "photo_" + id + Ext(name)
  }

  /** The checks on the upload, in the order the handler makes them: no
      files at all, then no `file` field (reading its `mimetype` throws),
      then a type other than an image, then a size above the configured
      ceiling (none when the setting is absent). */
  function UploadCheck(files: Option<Files>, maxUpload: Option<nat>): (r: Result<Upload, ErrorValue>)
    ensures r.Ok? <==>
      && files.Some? && files.value.file.Some?
      && StartsWith(files.value.file.value.mimetype, "image")
      && (maxUpload.Some? ==> files.value.file.value.size <= maxUpload.value)
    ensures r.Ok? ==> r.value == files.value.file.value
    ensures files.None? ==> r == Err(AppError("Please upload a file", 400))
    ensures files.Some? && files.value.file.None? ==> r == Err(UndefinedRead("mimetype"))
    ensures files.Some? && files.value.file.Some? && !StartsWith(files.value.file.value.mimetype, "image") ==>
      r == Err(AppError("Please upload an image file", 400))
    ensures && files.Some? && files.value.file.Some? && StartsWith(files.value.file.value.mimetype, "image")
            && maxUpload.Some? && files.value.file.value.size > maxUpload.value ==>
      r == Err(AppError("Please upload an imagen less than " + NatToString(maxUpload.value), 400))
  {
    if files.None? then Err(AppError("Please upload a file", 400))
    else if files.value.file.None? then Err(UndefinedRead("mimetype"))
    else
      var file := files.value.file.value;
      if !StartsWith(file.mimetype, "image") then Err(AppError("Please upload an image file", 400))
      else if maxUpload.Some? && file.size > maxUpload.value then
        Err(AppError("Please upload an imagen less than " + NatToString(maxUpload.value), 400))
      else Ok(file)
  }

  /** `diveCenterPhotoUpload`: cast, 404, ownership (401), the upload checks;
      then the file is moved (`moveOk` is the outcome of the move) and only a
      successful move stores the new name as the dive center's photo. */
  method PhotoUpload(db: Directory, actor: Actor, id: Id, files: Option<Files>, maxUpload: Option<nat>, moveOk: bool)
    returns (r: Outcome)
    requires db.Valid()
    modifies db
    ensures db.Valid()
    ensures !IsObjectId(id) ==> r == Err(CastFailure(id))
    ensures IsObjectId(id) && Find(old(db.diveCenters), id).None? ==> r == Err(NotFoundError(id))
    ensures IsObjectId(id) && Find(old(db.diveCenters), id).Some? && !Authorized(Find(old(db.diveCenters), id).value.body.user, actor) ==>
      r == Err(OwnerError(actor, "update"))
    ensures IsObjectId(id) && Find(old(db.diveCenters), id).Some? && Authorized(Find(old(db.diveCenters), id).value.body.user, actor) ==>
      var checked := UploadCheck(files, maxUpload);
      && (files.None? ==> r == Err(AppError("Please upload a file", 400)))
      && (files.Some? && files.value.file.None? ==> r == Err(UndefinedRead("mimetype")))
      && (files.Some? && files.value.file.Some? && !StartsWith(files.value.file.value.mimetype, "image") ==>
            r == Err(AppError("Please upload an image file", 400)))
      && (&& files.Some? && files.value.file.Some? && StartsWith(files.value.file.value.mimetype, "image")
          && maxUpload.Some? && files.value.file.value.size > maxUpload.value ==>
            r == Err(AppError("Please upload an imagen less than " + NatToString(maxUpload.value), 400)))
      && (checked.Err? ==> r == Err(checked.error))
      && (checked.Ok? && !moveOk ==> r == Err(AppError("Problem with file upload", 500)))
      && (checked.Ok? && moveOk ==>
            && r == Ok(Reply(200, Data("sucess", FileName(PhotoName(id, checked.value.name)), None)))
            && db.diveCenters == PatchCenter(old(db.diveCenters), id, SetPhoto(PhotoName(id, checked.value.name))))
    ensures r.Err? ==> db.diveCenters == old(db.diveCenters)
    ensures db.courses == old(db.courses) && db.reviews == old(db.reviews)
  {
    if !IsObjectId(id) {
      return Err(CastFailure(id));
    }
    var found := Find(db.diveCenters, id);
    if found.None? {
      return Err(NotFoundError(id));
    }
    if !Authorized(found.value.body.user, actor) {
      return Err(OwnerError(actor, "update"));
    }
    var checked := UploadCheck(files, maxUpload);
    if checked.Err? {
      return Err(checked.error);
    }
    var name := PhotoName(id, checked.value.name);
    if !moveOk {
      return Err(AppError("Problem with file upload", 500));
    }
    db.StorePhoto(id, name);
    r := Ok(Reply(200, Data("sucess", FileName(name), None)));
  }
}
