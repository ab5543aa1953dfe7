/**
  The routes put together: a request names one mutating route and its
  parameters, `Step` answers it, and `Run` answers a sequence of requests one
  after another. The lemmas here state what holds of the store across any
  sequence of requests: who may change which record, that emails stay unique,
  that a non-admin never owns two companies, and that every application names
  an existing job.

  Where a route has a corrected counterpart (company update and delete,
  registration), `Step` uses the corrected one; the as-written versions are
  kept beside them in their modules.
 */
module Server {
  import opened Store
  import CompanyRoutes
  import UserRoutes
  import AdminRoutes

  datatype Request =
    | CreateCompany(caller: Caller, body: CompanyRoutes.CompanyBody, newId: Id)
    | UpdateCompany(caller: Caller, id: Id, body: CompanyRoutes.CompanyBody)
    | DeleteCompany(caller: Caller, id: Id)
    | CompanyPhoto(caller: Caller, id: Id, files: Option<Upload>)
    | CompanyLicense(caller: Caller, id: Id, files: Option<Upload>)
    | Register(name: string, email: string, hashed: string, newId: Id)
    | UserPhoto(caller: Caller, id: Id, files: Option<Upload>)
    | UserCertificate(caller: Caller, id: Id, files: Option<Upload>)
    | Apply(caller: Caller, id: Id, jobId: Id)
    | VerifyUser(caller: Caller, id: Id)
    | VerifyCompany(caller: Caller, id: Id)
    | AdminDeleteCompany(caller: Caller, id: Id)
    | AdminDeleteUser(caller: Caller, id: Id)

  /** `maxSize` is the configured upload ceiling. */
  function Step(db: Db, req: Request, maxSize: nat): Reply {
    match req
    case CreateCompany(c, body, newId) => CompanyRoutes.Create(db, c, body, newId)
    case UpdateCompany(c, id, body) => CompanyRoutes.UpdateCorrected(db, c, id, body)
    case DeleteCompany(c, id) => CompanyRoutes.DeleteCorrected(db, c, id)
    case CompanyPhoto(c, id, files) => CompanyRoutes.UploadPhoto(db, c, id, files, maxSize)
    case CompanyLicense(c, id, files) => CompanyRoutes.UploadLicense(db, c, id, files, maxSize)
    case Register(name, email, hashed, newId) => UserRoutes.Register(db, name, email, hashed, newId)
    case UserPhoto(c, id, files) => UserRoutes.UploadPhoto(db, c, id, files, maxSize)
    case UserCertificate(c, id, files) => UserRoutes.UploadCertificate(db, c, id, files, maxSize)
    case Apply(c, id, jobId) => UserRoutes.Apply(db, c, id, jobId)
    case VerifyUser(c, id) => AdminRoutes.VerifyUser(db, c, id)
    case VerifyCompany(c, id) => AdminRoutes.VerifyCompany(db, c, id)
    case AdminDeleteCompany(c, id) => AdminRoutes.DeleteCompany(db, c, id)
    case AdminDeleteUser(c, id) => AdminRoutes.DeleteUser(db, c, id)
  }

  /** The store after answering `reqs` in order. No modelled route touches
      the job collection. */
  function Run(db: Db, reqs: seq<Request>, maxSize: nat): (r: Db)
    ensures r.jobs == db.jobs
    decreases |reqs|
  {
    if reqs == [] then db
    else Run(Step(db, reqs[0], maxSize).db, reqs[1..], maxSize)
  }

  /** Every request is answered; a request that does not succeed leaves the
      store exactly as it was. */
  lemma FailedStepChangesNothing(db: Db, req: Request, maxSize: nat)
    ensures !Succeeded(Step(db, req, maxSize).outcome) ==> Step(db, req, maxSize).db == db
  {
  }

  // ---------------------------------------------------------------------
  // Who may change what

  /** Every company that was in `db` and is changed or gone in `db'` is owned
      by `caller`, or `caller` is an admin. */
  ghost predicate CompanyChangesAllowed(db: Db, db': Db, caller: Caller) {
    forall k | k in db.companies && (k !in db'.companies || db'.companies[k] != db.companies[k]) ::
      caller.role == AdminRole || db.companies[k].user == caller.id
  }

  /** Every user that was in `db` and is changed or gone in `db'` is `caller`
      itself, or `caller` is an admin. */
  ghost predicate UserChangesAllowed(db: Db, db': Db, caller: Caller) {
    forall k | k in db.users && (k !in db'.users || db'.users[k] != db.users[k]) ::
      caller.role == AdminRole || k == caller.id
  }

  /** Registration, the one request made without a caller, only adds. */
  ghost predicate OnlyAdds(db: Db, db': Db) {
    && db.users.Keys <= db'.users.Keys
    && (forall k | k in db.users :: db'.users[k] == db.users[k])
    && db'.companies == db.companies
  }

  /** A request changes or removes an existing user or company only when its
      caller owns that record or is an admin; registration only adds. */
  lemma StepRespectsOwnership(db: Db, req: Request, maxSize: nat)
    ensures var db' := Step(db, req, maxSize).db;
            if req.Register? then OnlyAdds(db, db')
            else CompanyChangesAllowed(db, db', req.caller) && UserChangesAllowed(db, db', req.caller)
  {
  }

  /** The as-written company delete breaks the ownership rule above: an owner
      deleting their own company also removes another owner's. */
  lemma DeleteAsWrittenBreaksOwnership()
    ensures var a := Caller("u1", CompanyUserRole);
            var db := Db(map[], map["c1" := Company("u1", false, "", "", map[]),
                                    "c2" := Company("u2", false, "", "", map[])], map[]);
            !CompanyChangesAllowed(db, CompanyRoutes.Delete(db, a, "c1").db, a)
  {
    var a := Caller("u1", CompanyUserRole);
    var db := Db(map[], map["c1" := Company("u1", false, "", "", map[]),
                            "c2" := Company("u2", false, "", "", map[])], map[]);
    CompanyRoutes.DeleteRemovesOtherOwnersCompany();
    assert "c2" in db.companies && "c2" !in CompanyRoutes.Delete(db, a, "c1").db.companies;
  }

  // ---------------------------------------------------------------------
  // Store invariants

  /** No two stored users share an email. */
  ghost predicate EmailsUnique(users: map<Id, User>) {
    forall a, b | a in users && b in users && users[a].email == users[b].email :: a == b
  }

  /** An identity whose role is not admin owns at most one company.
      `roleOf` gives each identity's role. */
  ghost predicate OneCompanyPerOwner(companies: map<Id, Company>, roleOf: Id -> Role) {
    forall a, b | a in companies && b in companies && companies[a].user == companies[b].user ::
      roleOf(companies[a].user) != AdminRole ==> a == b
  }

  /** Every entry of every `applied` list names a stored job. */
  ghost predicate ApplicationsNameJobs(db: Db) {
    forall u, i | u in db.users && 0 <= i < |db.users[u].applied| :: db.users[u].applied[i].job in db.jobs
  }

  ghost predicate Invariant(db: Db, roleOf: Id -> Role) {
    EmailsUnique(db.users) && OneCompanyPerOwner(db.companies, roleOf) && ApplicationsNameJobs(db)
  }

  /** The request's caller, if it has one, presents the role `roleOf` gives
      its identity. */
  ghost predicate RoleMatches(req: Request, roleOf: Id -> Role) {
    !req.Register? ==> req.caller.role == roleOf(req.caller.id)
  }

  /** A non-admin who already owns a company cannot create a second, so
      creation keeps the one-company rule. */
  lemma CreateKeepsOneCompanyPerOwner(db: Db, c: Caller, body: CompanyRoutes.CompanyBody, newId: Id, roleOf: Id -> Role)
    requires OneCompanyPerOwner(db.companies, roleOf)
    requires c.role == roleOf(c.id)
    ensures OneCompanyPerOwner(CompanyRoutes.Create(db, c, body, newId).db.companies, roleOf)
  {
  }

  /** Apply checks the job exists before it appends, so every entry names a
      stored job. */
  lemma ApplyKeepsApplicationsNamingJobs(db: Db, c: Caller, id: Id, jobId: Id)
    requires ApplicationsNameJobs(db)
    ensures ApplicationsNameJobs(UserRoutes.Apply(db, c, id, jobId).db)
  {
  }

  /** Registration refuses a known email, so emails stay unique. */
  lemma RegisterKeepsEmailsUnique(db: Db, name: string, email: string, hashed: string, newId: Id)
    requires EmailsUnique(db.users)
    ensures EmailsUnique(UserRoutes.Register(db, name, email, hashed, newId).db.users)
  {
  }

  lemma UserPhotoKeepsInvariant(db: Db, c: Caller, id: Id, files: Option<Upload>, maxSize: nat, roleOf: Id -> Role)
    requires Invariant(db, roleOf)
    ensures Invariant(UserRoutes.UploadPhoto(db, c, id, files, maxSize).db, roleOf)
  {
  }

  lemma UserCertificateKeepsInvariant(db: Db, c: Caller, id: Id, files: Option<Upload>, maxSize: nat, roleOf: Id -> Role)
    requires Invariant(db, roleOf)
    ensures Invariant(UserRoutes.UploadCertificate(db, c, id, files, maxSize).db, roleOf)
  {
  }

  lemma VerifyUserKeepsInvariant(db: Db, c: Caller, id: Id, roleOf: Id -> Role)
    requires Invariant(db, roleOf)
    ensures Invariant(AdminRoutes.VerifyUser(db, c, id).db, roleOf)
  {
  }

  lemma UpdateCompanyKeepsInvariant(db: Db, c: Caller, id: Id, body: CompanyRoutes.CompanyBody, roleOf: Id -> Role)
    requires Invariant(db, roleOf)
    ensures Invariant(CompanyRoutes.UpdateCorrected(db, c, id, body).db, roleOf)
  {
  }

  lemma CompanyPhotoKeepsInvariant(db: Db, c: Caller, id: Id, files: Option<Upload>, maxSize: nat, roleOf: Id -> Role)
    requires Invariant(db, roleOf)
    ensures Invariant(CompanyRoutes.UploadPhoto(db, c, id, files, maxSize).db, roleOf)
  {
  }

  lemma CompanyLicenseKeepsInvariant(db: Db, c: Caller, id: Id, files: Option<Upload>, maxSize: nat, roleOf: Id -> Role)
    requires Invariant(db, roleOf)
    ensures Invariant(CompanyRoutes.UploadLicense(db, c, id, files, maxSize).db, roleOf)
  {
  }

  lemma VerifyCompanyKeepsInvariant(db: Db, c: Caller, id: Id, roleOf: Id -> Role)
    requires Invariant(db, roleOf)
    ensures Invariant(AdminRoutes.VerifyCompany(db, c, id).db, roleOf)
  {
  }

  lemma DeleteCompanyKeepsInvariant(db: Db, c: Caller, id: Id, roleOf: Id -> Role)
    requires Invariant(db, roleOf)
    ensures Invariant(CompanyRoutes.DeleteCorrected(db, c, id).db, roleOf)
  {
  }

  lemma AdminDeleteCompanyKeepsInvariant(db: Db, c: Caller, id: Id, roleOf: Id -> Role)
    requires Invariant(db, roleOf)
    ensures Invariant(AdminRoutes.DeleteCompany(db, c, id).db, roleOf)
  {
  }

  lemma AdminDeleteUserKeepsInvariant(db: Db, c: Caller, id: Id, roleOf: Id -> Role)
    requires Invariant(db, roleOf)
    ensures Invariant(AdminRoutes.DeleteUser(db, c, id).db, roleOf)
  {
  }

  lemma CreateCompanyKeepsInvariant(db: Db, c: Caller, body: CompanyRoutes.CompanyBody, newId: Id, roleOf: Id -> Role)
    requires Invariant(db, roleOf) && c.role == roleOf(c.id)
    ensures Invariant(CompanyRoutes.Create(db, c, body, newId).db, roleOf)
  {
    CreateKeepsOneCompanyPerOwner(db, c, body, newId, roleOf);
  }

  lemma RegisterKeepsInvariant(db: Db, name: string, email: string, hashed: string, newId: Id, roleOf: Id -> Role)
    requires Invariant(db, roleOf)
    ensures Invariant(UserRoutes.Register(db, name, email, hashed, newId).db, roleOf)
  {
    RegisterKeepsEmailsUnique(db, name, email, hashed, newId);
  }

  lemma ApplyKeepsInvariant(db: Db, c: Caller, id: Id, jobId: Id, roleOf: Id -> Role)
    requires Invariant(db, roleOf)
    ensures Invariant(UserRoutes.Apply(db, c, id, jobId).db, roleOf)
  {
    ApplyKeepsApplicationsNamingJobs(db, c, id, jobId);
  }

  /** Every request whose caller presents their own role keeps the invariant. */
  lemma StepKeepsInvariant(db: Db, req: Request, maxSize: nat, roleOf: Id -> Role)
    requires Invariant(db, roleOf) && RoleMatches(req, roleOf)
    ensures Invariant(Step(db, req, maxSize).db, roleOf)
  {
    match req
    case CreateCompany(c, body, newId) => CreateCompanyKeepsInvariant(db, c, body, newId, roleOf);
    case Apply(c, id, jobId) => ApplyKeepsInvariant(db, c, id, jobId, roleOf);
    case Register(name, email, hashed, newId) => RegisterKeepsInvariant(db, name, email, hashed, newId, roleOf);
    case UserPhoto(c, id, files) => UserPhotoKeepsInvariant(db, c, id, files, maxSize, roleOf);
    case UserCertificate(c, id, files) => UserCertificateKeepsInvariant(db, c, id, files, maxSize, roleOf);
    case VerifyUser(c, id) => VerifyUserKeepsInvariant(db, c, id, roleOf);
    case UpdateCompany(c, id, body) => UpdateCompanyKeepsInvariant(db, c, id, body, roleOf);
    case CompanyPhoto(c, id, files) => CompanyPhotoKeepsInvariant(db, c, id, files, maxSize, roleOf);
    case CompanyLicense(c, id, files) => CompanyLicenseKeepsInvariant(db, c, id, files, maxSize, roleOf);
    case VerifyCompany(c, id) => VerifyCompanyKeepsInvariant(db, c, id, roleOf);
    case DeleteCompany(c, id) => DeleteCompanyKeepsInvariant(db, c, id, roleOf);
    case AdminDeleteCompany(c, id) => AdminDeleteCompanyKeepsInvariant(db, c, id, roleOf);
    case AdminDeleteUser(c, id) => AdminDeleteUserKeepsInvariant(db, c, id, roleOf);
  }

  /** The invariant holds after any sequence of requests whose callers present
      their own roles. */
  lemma {:induction false} RunKeepsInvariant(db: Db, reqs: seq<Request>, maxSize: nat, roleOf: Id -> Role)
    requires Invariant(db, roleOf)
    requires forall i | 0 <= i < |reqs| :: RoleMatches(reqs[i], roleOf)
    ensures Invariant(Run(db, reqs, maxSize), roleOf)
    decreases |reqs|
  {
    if reqs != [] {
      StepKeepsInvariant(db, reqs[0], maxSize, roleOf);
      RunKeepsInvariant(Step(db, reqs[0], maxSize).db, reqs[1..], maxSize, roleOf);
    }
  }

  /** With the as-written update in place of the corrected one, a single
      request by a non-admin owner breaks the one-company rule. */
  lemma UpdateAsWrittenBreaksOneCompanyPerOwner()
    ensures var roleOf := (i: Id) => CompanyUserRole;
            var a := Caller("u1", CompanyUserRole);
            var db := Db(map[], map["c1" := Company("u1", false, "", "", map[]),
                                    "c2" := Company("u2", false, "", "", map[])], map[]);
            var body := CompanyRoutes.CompanyBody(Some("u2"), None, None, None, map[]);
            && Invariant(db, roleOf)
            && a.role == roleOf(a.id)
            && !Invariant(CompanyRoutes.Update(db, a, "c1", body).db, roleOf)
  {
    var roleOf := (i: Id) => CompanyUserRole;
    var a := Caller("u1", CompanyUserRole);
    var db := Db(map[], map["c1" := Company("u1", false, "", "", map[]),
                            "c2" := Company("u2", false, "", "", map[])], map[]);
    var body := CompanyRoutes.CompanyBody(Some("u2"), None, None, None, map[]);
    var cs := CompanyRoutes.Update(db, a, "c1", body).db.companies;
    assert cs["c1"].user == cs["c2"].user && "c1" != "c2";
  }
}
