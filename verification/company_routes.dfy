/**
  The mutating company routes: create, update, delete, and the photo and
  licence uploads. Each one sits behind the role gate for "companyuser" and
  "admin". Creation then only applies the one-company rule; the other routes
  check that the company exists and that the caller owns it or is an admin,
  then (for uploads) check the file.
 */
module CompanyRoutes {
  import opened Store

  const CompanyRoles: set<Role> := {CompanyUserRole, AdminRole}

  /** Some company in the store names `uid` as its owner. */
  predicate OwnsCompany(db: Db, uid: Id) {
    exists k | k in db.companies :: db.companies[k].user == uid
  }

  /** Company `id` exists and `caller` owns it or is an admin. */
  predicate MayEdit(db: Db, caller: Caller, id: Id) {
    id in db.companies && (db.companies[id].user == caller.id || caller.role == AdminRole)
  }

  /** The fields a request body may carry; absent fields are `None`. */
  datatype CompanyBody = CompanyBody(
    user: Option<Id>,
    isVerified: Option<bool>,
    photo: Option<string>,
    license: Option<string>,
    details: map<string, string>)

  /** The company the store creates from `body` once the owner field has been
      overwritten with `owner`; absent fields take empty defaults. */
  function FromBody(owner: Id, body: CompanyBody): Company {
    Company(owner, body.isVerified.GetOr(false), body.photo.GetOr(""), body.license.GetOr(""), body.details)
  }

  /** What an update with `body` does to a stored company: every field the body
      carries replaces the stored one. */
  function Patch(c: Company, body: CompanyBody): Company {
    Company(
      body.user.GetOr(c.user),
      body.isVerified.GetOr(c.isVerified),
      body.photo.GetOr(c.photo),
      body.license.GetOr(c.license),
      c.details + body.details)
  }

  /** The role gate and the two record guards every route on `/:id` runs, in
      order; `None` when the caller may go on. */
  function Guard(db: Db, caller: Caller, id: Id): Option<Outcome> {
    if !Authorized(caller, CompanyRoles) then Some(RoleDenied)
    else if id !in db.companies then Some(NotFound)
    else if !MayEdit(db, caller, id) then Some(NotOwner)
    else None
  }

  /** POST `/`: register a company owned by the caller. `newId` is the id the
      store would assign; a clash makes the create throw. */
  function Create(db: Db, caller: Caller, body: CompanyBody, newId: Id): (r: Reply)
    ensures !Authorized(caller, CompanyRoles) ==> r == Reply(RoleDenied, db)
    ensures Authorized(caller, CompanyRoles) && caller.role != AdminRole && OwnsCompany(db, caller.id) ==>
              r == Reply(AlreadyRegistered, db)
    ensures r.outcome == Done <==>
              && Authorized(caller, CompanyRoles)
              && (caller.role == AdminRole || !OwnsCompany(db, caller.id))
              && newId !in db.companies
    ensures Authorized(caller, CompanyRoles) && (caller.role == AdminRole || !OwnsCompany(db, caller.id)) &&
              newId in db.companies ==>
              r == Reply(ServerError, db)
    ensures r.outcome != Done ==> r.db == db
    ensures r.outcome == Done ==>
              && r.db.users == db.users && r.db.jobs == db.jobs
              && r.db.companies.Keys == db.companies.Keys + {newId}
              && (forall k | k in db.companies :: r.db.companies[k] == db.companies[k])
              && r.db.companies[newId].user == caller.id
              && r.db.companies[newId].details == body.details
              && r.db.companies[newId].isVerified == body.isVerified.GetOr(false)
              && r.db.companies[newId].photo == body.photo.GetOr("")
              && r.db.companies[newId].license == body.license.GetOr("")
  {
    if !Authorized(caller, CompanyRoles) then Reply(RoleDenied, db)
    else if OwnsCompany(db, caller.id) && caller.role != AdminRole then Reply(AlreadyRegistered, db)
    else if newId in db.companies then Reply(ServerError, db)
    else Reply(Done, db.(companies := db.companies[newId := FromBody(caller.id, body)]))
  }

  /** PUT `/:id` as written: the whole request body, including any `user`
      field, is written over the stored company. */
  function Update(db: Db, caller: Caller, id: Id, body: CompanyBody): (r: Reply)
    ensures r.outcome == RoleDenied <==> !Authorized(caller, CompanyRoles)
    ensures r.outcome == NotFound <==> Authorized(caller, CompanyRoles) && id !in db.companies
    ensures r.outcome == NotOwner <==>
              Authorized(caller, CompanyRoles) && id in db.companies && !MayEdit(db, caller, id)
    ensures r.outcome == Done <==> Authorized(caller, CompanyRoles) && MayEdit(db, caller, id)
    ensures r.outcome != Done ==> r.db == db
    ensures r.outcome == Done ==>
              && OnlyCompanyChanged(db, r.db, id)
              && r.db.companies[id].user == body.user.GetOr(db.companies[id].user)
              && r.db.companies[id].isVerified == body.isVerified.GetOr(db.companies[id].isVerified)
              && r.db.companies[id].photo == body.photo.GetOr(db.companies[id].photo)
              && r.db.companies[id].license == body.license.GetOr(db.companies[id].license)
              && r.db.companies[id].details == db.companies[id].details + body.details
  {
    match Guard(db, caller, id)
    case Some(o) => Reply(o, db)
    case None => Reply(Done, db.(companies := db.companies[id := Patch(db.companies[id], body)]))
  }

  /** PUT `/:id` with the owner field kept out of the update, as company
      creation already does; the rest of the body is applied as before. */
  function UpdateCorrected(db: Db, caller: Caller, id: Id, body: CompanyBody): (r: Reply)
    ensures r.outcome == RoleDenied <==> !Authorized(caller, CompanyRoles)
    ensures r.outcome == NotFound <==> Authorized(caller, CompanyRoles) && id !in db.companies
    ensures r.outcome == NotOwner <==>
              Authorized(caller, CompanyRoles) && id in db.companies && !MayEdit(db, caller, id)
    ensures r.outcome == Done <==> Authorized(caller, CompanyRoles) && MayEdit(db, caller, id)
    ensures r.outcome != Done ==> r.db == db
    ensures r.outcome == Done ==>
              && OnlyCompanyChanged(db, r.db, id)
              && r.db.companies[id].user == db.companies[id].user
              && r.db.companies[id].isVerified == body.isVerified.GetOr(db.companies[id].isVerified)
              && r.db.companies[id].photo == body.photo.GetOr(db.companies[id].photo)
              && r.db.companies[id].license == body.license.GetOr(db.companies[id].license)
              && r.db.companies[id].details == db.companies[id].details + body.details
  {
    match Guard(db, caller, id)
    case Some(o) => Reply(o, db)
    case None => Reply(Done, db.(companies := db.companies[id := Patch(db.companies[id], body.(user := None))]))
  }

  /** DELETE `/:id` as written: after the guards pass, the remove is issued on
      the whole collection with no filter, so every company goes. */
  function Delete(db: Db, caller: Caller, id: Id): (r: Reply)
    ensures r.outcome == RoleDenied <==> !Authorized(caller, CompanyRoles)
    ensures r.outcome == NotFound <==> Authorized(caller, CompanyRoles) && id !in db.companies
    ensures r.outcome == NotOwner <==>
              Authorized(caller, CompanyRoles) && id in db.companies && !MayEdit(db, caller, id)
    ensures r.outcome == Done <==> Authorized(caller, CompanyRoles) && MayEdit(db, caller, id)
    ensures r.outcome != Done ==> r.db == db
    ensures r.outcome == Done ==> r.db == db.(companies := map[])
  {
    match Guard(db, caller, id)
    case Some(o) => Reply(o, db)
    case None => Reply(Done, db.(companies := map[]))
  }

  /** DELETE `/:id` removing only the company that was found and checked. */
  function DeleteCorrected(db: Db, caller: Caller, id: Id): (r: Reply)
    ensures r.outcome == RoleDenied <==> !Authorized(caller, CompanyRoles)
    ensures r.outcome == NotFound <==> Authorized(caller, CompanyRoles) && id !in db.companies
    ensures r.outcome == NotOwner <==>
              Authorized(caller, CompanyRoles) && id in db.companies && !MayEdit(db, caller, id)
    ensures r.outcome == Done <==> Authorized(caller, CompanyRoles) && MayEdit(db, caller, id)
    ensures r.outcome != Done ==> r.db == db
    ensures r.outcome == Done ==>
              && r.db.users == db.users && r.db.jobs == db.jobs
              && r.db.companies.Keys == db.companies.Keys - {id}
              && forall k | k in r.db.companies :: r.db.companies[k] == db.companies[k]
  {
    match Guard(db, caller, id)
    case Some(o) => Reply(o, db)
    case None => Reply(Done, db.(companies := db.companies - {id}))
  }

  /** The two company documents a file can be uploaded for. */
  datatype Document = Photo | License

  /** The MIME prefix each document must have. */
  function Kind(doc: Document): string {
    match doc
    case Photo => "image"
    case License => "application"
  }

  /** The name the uploaded file is stored under. */
  function FileName(doc: Document, id: Id, ext: string): string {
    match doc
    case Photo => "photo_" + id + ext
    case License => "license_" + id + ext
  }

  /** `c` with the field for `doc` set to `name`. */
  function SetDocument(c: Company, doc: Document, name: string): Company {
    match doc
    case Photo => c.(photo := name)
    case License => c.(license := name)
  }

  /** The shared body of PUT `/:id/c_photo` and PUT `/:id/license`. */
  function UploadDocument(db: Db, caller: Caller, id: Id, files: Option<Upload>, maxSize: nat, doc: Document): Reply {
    match Guard(db, caller, id)
    case Some(o) => Reply(o, db)
    case None =>
      match CheckUpload(files, Kind(doc), maxSize)
      case Some(o) => Reply(o, db)
      case None =>
        var name := FileName(doc, id, files.value.ext);
        Reply(Uploaded(name), db.(companies := db.companies[id := SetDocument(db.companies[id], doc, name)]))
  }

  /** PUT `/:id/c_photo`. */
  function UploadPhoto(db: Db, caller: Caller, id: Id, files: Option<Upload>, maxSize: nat): (r: Reply)
    ensures !Authorized(caller, CompanyRoles) ==> r == Reply(RoleDenied, db)
    ensures Authorized(caller, CompanyRoles) && id !in db.companies ==> r == Reply(NotFound, db)
    ensures Authorized(caller, CompanyRoles) && id in db.companies && !MayEdit(db, caller, id) ==>
              r == Reply(NotOwner, db)
    ensures Authorized(caller, CompanyRoles) && MayEdit(db, caller, id) ==>
              && (files.None? ==> r == Reply(NoFile, db))
              && (files.Some? && !("image" <= files.value.mimetype) ==> r == Reply(WrongType, db))
              && (files.Some? && "image" <= files.value.mimetype && files.value.size > maxSize ==>
                    r == Reply(TooLarge, db))
    ensures r.outcome.Uploaded? <==>
              Authorized(caller, CompanyRoles) && MayEdit(db, caller, id) && Acceptable(files, "image", maxSize)
    ensures !r.outcome.Uploaded? ==> r.db == db
    ensures r.outcome.Uploaded? ==>
              && r.outcome.fileName == "photo_" + id + files.value.ext
              && OnlyCompanyChanged(db, r.db, id)
              && r.db.companies[id] == db.companies[id].(photo := r.outcome.fileName)
  {
    UploadDocument(db, caller, id, files, maxSize, Photo)
  }

  /** PUT `/:id/license`. */
  function UploadLicense(db: Db, caller: Caller, id: Id, files: Option<Upload>, maxSize: nat): (r: Reply)
    ensures !Authorized(caller, CompanyRoles) ==> r == Reply(RoleDenied, db)
    ensures Authorized(caller, CompanyRoles) && id !in db.companies ==> r == Reply(NotFound, db)
    ensures Authorized(caller, CompanyRoles) && id in db.companies && !MayEdit(db, caller, id) ==>
              r == Reply(NotOwner, db)
    ensures Authorized(caller, CompanyRoles) && MayEdit(db, caller, id) ==>
              && (files.None? ==> r == Reply(NoFile, db))
              && (files.Some? && !("application" <= files.value.mimetype) ==> r == Reply(WrongType, db))
              && (files.Some? && "application" <= files.value.mimetype && files.value.size > maxSize ==>
                    r == Reply(TooLarge, db))
    ensures r.outcome.Uploaded? <==>
              Authorized(caller, CompanyRoles) && MayEdit(db, caller, id) && Acceptable(files, "application", maxSize)
    ensures !r.outcome.Uploaded? ==> r.db == db
    ensures r.outcome.Uploaded? ==>
              && r.outcome.fileName == "license_" + id + files.value.ext
              && OnlyCompanyChanged(db, r.db, id)
              && r.db.companies[id] == db.companies[id].(license := r.outcome.fileName)
  {
    UploadDocument(db, caller, id, files, maxSize, License)
  }

  /** A file whose size equals the ceiling passes the size guard: the
      handlers reject only sizes strictly greater than it. */
  lemma CeilingIsInclusive(db: Db, caller: Caller, id: Id, mimetype: string, ext: string, maxSize: nat)
    requires Authorized(caller, CompanyRoles) && MayEdit(db, caller, id)
    ensures "image" <= mimetype ==>
              UploadPhoto(db, caller, id, Some(Upload(mimetype, maxSize, ext)), maxSize).outcome
              == Uploaded("photo_" + id + ext)
    ensures "application" <= mimetype ==>
              UploadLicense(db, caller, id, Some(Upload(mimetype, maxSize, ext)), maxSize).outcome
              == Uploaded("license_" + id + ext)
    ensures UploadPhoto(db, caller, id, Some(Upload(mimetype, maxSize + 1, ext)), maxSize).outcome != Uploaded("photo_" + id + ext)
    ensures UploadLicense(db, caller, id, Some(Upload(mimetype, maxSize + 1, ext)), maxSize).outcome != Uploaded("license_" + id + ext)
  {
  }

  /** The MIME check of the photo route precedes its size check: a file that is
      not an image is refused as such whatever its size. */
  lemma NonImageRefusedWhateverSize(db: Db, caller: Caller, id: Id, f: Upload, maxSize: nat)
    requires Authorized(caller, CompanyRoles) && MayEdit(db, caller, id)
    requires !("image" <= f.mimetype)
    ensures UploadPhoto(db, caller, id, Some(f), maxSize) == Reply(WrongType, db)
  {
  }

  /** The existence check of every `/:id` route precedes the ownership check:
      on an unknown id every caller who passes the role gate is told
      not-found, whoever owns what. */
  lemma UnknownIdBeforeOwnership(db: Db, caller: Caller, id: Id, body: CompanyBody, files: Option<Upload>, maxSize: nat)
    requires Authorized(caller, CompanyRoles) && id !in db.companies
    ensures Update(db, caller, id, body) == Reply(NotFound, db)
    ensures UpdateCorrected(db, caller, id, body) == Reply(NotFound, db)
    ensures Delete(db, caller, id) == Reply(NotFound, db)
    ensures DeleteCorrected(db, caller, id) == Reply(NotFound, db)
    ensures UploadPhoto(db, caller, id, files, maxSize) == Reply(NotFound, db)
    ensures UploadLicense(db, caller, id, files, maxSize) == Reply(NotFound, db)
  {
  }

  /** Uploading the same file twice leaves the store as one upload does. */
  lemma UploadIdempotent(db: Db, caller: Caller, id: Id, files: Option<Upload>, maxSize: nat, doc: Document)
    ensures var r := UploadDocument(db, caller, id, files, maxSize, doc);
            UploadDocument(r.db, caller, id, files, maxSize, doc) == r
  {
  }

  /** The verification flag is an ordinary body field: an owner who is not an
      admin can create a company already verified, or set the flag on their
      own company through the update, without the admin-only verify route. */
  lemma OwnerCanSelfVerify(db: Db, owner: Caller, id: Id, newId: Id, details: map<string, string>)
    requires owner.role == CompanyUserRole
    requires id in db.companies && db.companies[id].user == owner.id
    ensures var body := CompanyBody(None, Some(true), None, None, details);
            && Update(db, owner, id, body).db.companies[id].isVerified
            && UpdateCorrected(db, owner, id, body).db.companies[id].isVerified
    ensures var body := CompanyBody(None, Some(true), None, None, details);
            var noCompanies := Db(db.users, map[], db.jobs);
            && Create(noCompanies, owner, body, newId).outcome == Done
            && Create(noCompanies, owner, body, newId).db.companies[newId].isVerified
  {
  }

  /** The as-written delete reaches companies the caller has no right to: an
      owner deleting their own company also removes another owner's. */
  lemma DeleteRemovesOtherOwnersCompany()
    ensures var a := Caller("u1", CompanyUserRole);
            var mine := Company("u1", false, "", "", map[]);
            var theirs := Company("u2", false, "", "", map[]);
            var db := Db(map[], map["c1" := mine, "c2" := theirs], map[]);
            var r := Delete(db, a, "c1");
            && r.outcome == Done
            && "c2" in db.companies && db.companies["c2"].user != a.id
            && "c2" !in r.db.companies
  {
  }

  /** The as-written update lets an owner hand their company to a user who
      already owns one, so a non-admin ends up owning two companies; the
      corrected update keeps the owner. */
  lemma UpdateTransfersOwnership()
    ensures var a := Caller("u1", CompanyUserRole);
            var mine := Company("u1", false, "", "", map[]);
            var theirs := Company("u2", false, "", "", map[]);
            var db := Db(map[], map["c1" := mine, "c2" := theirs], map[]);
            var body := CompanyBody(Some("u2"), None, None, None, map[]);
            var r := Update(db, a, "c1", body);
            && r.outcome == Done
            && r.db.companies["c1"].user == "u2" && r.db.companies["c2"].user == "u2"
            && UpdateCorrected(db, a, "c1", body).db.companies["c1"].user == "u1"
  {
  }
}
