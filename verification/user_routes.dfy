/**
  The mutating user routes: registration, the photo and certificate uploads,
  and applying to a job. None of them sits behind the role gate; the upload
  and apply routes only require that the path id be the caller's own id.
 */
module UserRoutes {
  import opened Store

  /** Some stored user has `email`. */
  predicate EmailTaken(db: Db, email: string) {
    exists k | k in db.users :: db.users[k].email == email
  }

  /** The record registration stores: the given name, email and hashed
      password, the "user" role and empty defaults elsewhere. */
  function NewUser(name: string, email: string, hashed: string): User {
    User(name, email, hashed, UserRole, false, "", "", [])
  }

  /** POST `/register` as written. The lookup by email yields no user for a
      new address, and reading its `email` then throws; the handler catches
      that and reports an error. A found user always carries the email it was
      found by, so the duplicate branch is taken whenever the address is
      known. Either way nothing is stored. */
  function RegisterAsWritten(db: Db, name: string, email: string, hashed: string, newId: Id): (r: Reply)
    ensures r.db == db
    ensures r.outcome == AlreadyRegistered <==> EmailTaken(db, email)
    ensures r.outcome == ServerError <==> !EmailTaken(db, email)
  {
    if !EmailTaken(db, email) then Reply(ServerError, db)
    else Reply(AlreadyRegistered, db)
  }

  /** POST `/register` with the missing-user case treated as "address is
      free". `newId` is the id the store would assign; a clash makes the save
      throw. */
  function Register(db: Db, name: string, email: string, hashed: string, newId: Id): (r: Reply)
    ensures r.outcome == AlreadyRegistered <==> EmailTaken(db, email)
    ensures r.outcome == Done <==> !EmailTaken(db, email) && newId !in db.users
    ensures !EmailTaken(db, email) && newId in db.users ==> r == Reply(ServerError, db)
    ensures r.outcome != Done ==> r.db == db
    ensures r.outcome == Done ==>
              && r.db.companies == db.companies && r.db.jobs == db.jobs
              && r.db.users.Keys == db.users.Keys + {newId}
              && (forall k | k in db.users :: r.db.users[k] == db.users[k])
              && r.db.users[newId] == NewUser(name, email, hashed)
  {
    if EmailTaken(db, email) then Reply(AlreadyRegistered, db)
    else if newId in db.users then Reply(ServerError, db)
    else Reply(Done, db.(users := db.users[newId := NewUser(name, email, hashed)]))
  }

  /** A fresh address shows the difference: the as-written route reports an
      error and stores nothing, where the corrected one stores the user. */
  lemma RegisterFreshEmail(name: string, email: string, hashed: string, newId: Id)
    ensures var db := Db(map[], map[], map[]);
            && RegisterAsWritten(db, name, email, hashed, newId) == Reply(ServerError, db)
            && Register(db, name, email, hashed, newId).outcome == Done
            && Register(db, name, email, hashed, newId).db.users == map[newId := NewUser(name, email, hashed)]
  {
  }

  /** The two user documents a file can be uploaded for. */
  datatype Document = Photo | Certificate

  /** The MIME prefix each document must have. */
  function Kind(doc: Document): string {
    match doc
    case Photo => "image"
    case Certificate => "application"
  }

  /** The name the uploaded file is stored under; the certificate name has no
      underscore after its prefix. */
  function FileName(doc: Document, id: Id, ext: string): string {
    match doc
    case Photo => "photo_" + id + ext
    case Certificate => "certificate" + id + ext
  }

  function SetDocument(u: User, doc: Document, name: string): User {
    match doc
    case Photo => u.(photo := name)
    case Certificate => u.(certificate := name)
  }

  /** The lookup and ownership guards of PUT `/:id/photo` and
      PUT `/:id/certificate`, in order; `None` when the caller may go on. */
  function Guard(db: Db, caller: Caller, id: Id): Option<Outcome> {
    if id !in db.users then Some(NotFound)
    else if id != caller.id then Some(NotOwner)
    else None
  }

  /** The shared body of the two user upload routes. */
  function UploadDocument(db: Db, caller: Caller, id: Id, files: Option<Upload>, maxSize: nat, doc: Document): Reply {
    match Guard(db, caller, id)
    case Some(o) => Reply(o, db)
    case None =>
      match CheckUpload(files, Kind(doc), maxSize)
      case Some(o) => Reply(o, db)
      case None =>
        var name := FileName(doc, id, files.value.ext);
        Reply(Uploaded(name), db.(users := db.users[id := SetDocument(db.users[id], doc, name)]))
  }

  /** PUT `/:id/photo`. */
  function UploadPhoto(db: Db, caller: Caller, id: Id, files: Option<Upload>, maxSize: nat): (r: Reply)
    ensures id !in db.users ==> r == Reply(NotFound, db)
    ensures id in db.users && id != caller.id ==> r == Reply(NotOwner, db)
    ensures id in db.users && id == caller.id ==>
              && (files.None? ==> r == Reply(NoFile, db))
              && (files.Some? && !("image" <= files.value.mimetype) ==> r == Reply(WrongType, db))
              && (files.Some? && "image" <= files.value.mimetype && files.value.size > maxSize ==>
                    r == Reply(TooLarge, db))
    ensures r.outcome.Uploaded? <==> id in db.users && id == caller.id && Acceptable(files, "image", maxSize)
    ensures !r.outcome.Uploaded? ==> r.db == db
    ensures r.outcome.Uploaded? ==>
              && r.outcome.fileName == "photo_" + id + files.value.ext
              && OnlyUserChanged(db, r.db, id)
              && r.db.users[id] == db.users[id].(photo := r.outcome.fileName)
  {
    UploadDocument(db, caller, id, files, maxSize, Photo)
  }

  /** PUT `/:id/certificate`. */
  function UploadCertificate(db: Db, caller: Caller, id: Id, files: Option<Upload>, maxSize: nat): (r: Reply)
    ensures id !in db.users ==> r == Reply(NotFound, db)
    ensures id in db.users && id != caller.id ==> r == Reply(NotOwner, db)
    ensures id in db.users && id == caller.id ==>
              && (files.None? ==> r == Reply(NoFile, db))
              && (files.Some? && !("application" <= files.value.mimetype) ==> r == Reply(WrongType, db))
              && (files.Some? && "application" <= files.value.mimetype && files.value.size > maxSize ==>
                    r == Reply(TooLarge, db))
    ensures r.outcome.Uploaded? <==> id in db.users && id == caller.id && Acceptable(files, "application", maxSize)
    ensures !r.outcome.Uploaded? ==> r.db == db
    ensures r.outcome.Uploaded? ==>
              && r.outcome.fileName == "certificate" + id + files.value.ext
              && OnlyUserChanged(db, r.db, id)
              && r.db.users[id] == db.users[id].(certificate := r.outcome.fileName)
  {
    UploadDocument(db, caller, id, files, maxSize, Certificate)
  }

  /** No role lifts the ownership check on the user upload routes: an admin
      uploading for another user is refused like anyone else. */
  lemma NoAdminOverride(db: Db, admin: Caller, id: Id, files: Option<Upload>, maxSize: nat)
    requires admin.role == AdminRole && id in db.users && id != admin.id
    ensures UploadPhoto(db, admin, id, files, maxSize) == Reply(NotOwner, db)
    ensures UploadCertificate(db, admin, id, files, maxSize) == Reply(NotOwner, db)
  {
  }

  /** PUT `/:id/apply/:jobid`: the job is looked up first, then the user, then
      ownership is checked; on success one entry naming the job is pushed onto
      the user's `applied` list. */
  function Apply(db: Db, caller: Caller, id: Id, jobId: Id): (r: Reply)
    ensures jobId !in db.jobs ==> r == Reply(NotFound, db)
    ensures jobId in db.jobs && id !in db.users ==> r == Reply(NotFound, db)
    ensures jobId in db.jobs && id in db.users && id != caller.id ==> r == Reply(NotOwner, db)
    ensures r.outcome == Done <==> jobId in db.jobs && id in db.users && id == caller.id
    ensures r.outcome == Done ==>
              && OnlyUserChanged(db, r.db, id)
              && r.db.users[id] == db.users[id].(applied := db.users[id].applied + [Application(jobId)])
  {
    if jobId !in db.jobs then Reply(NotFound, db)
    else if id !in db.users then Reply(NotFound, db)
    else if id != caller.id then Reply(NotOwner, db)
    else
      var u := db.users[id];
      Reply(Done, db.(users := db.users[id := u.(applied := u.applied + [Application(jobId)])]))
  }

  /** How many entries of `applied` name `job`. */
  function Applications(applied: seq<Application>, job: Id): nat {
    if applied == [] then 0
    else (if applied[0].job == job then 1 else 0) + Applications(applied[1..], job)
  }

  /** Appending an entry adds one to the count of its job and nothing to any
      other job's count. */
  lemma {:induction false} ApplicationsAppend(applied: seq<Application>, e: Application, job: Id)
    ensures Applications(applied + [e], job) == Applications(applied, job) + (if e.job == job then 1 else 0)
  {
    if applied != [] {
      assert (applied + [e])[1..] == applied[1..] + [e];
      ApplicationsAppend(applied[1..], e, job);
    }
  }

  /** A successful apply raises the user's count for that job by exactly one
      and leaves every other job's count alone: there is no duplicate check. */
  lemma ApplyCountsOnce(db: Db, caller: Caller, id: Id, jobId: Id, other: Id)
    requires jobId in db.jobs && id in db.users && id == caller.id
    ensures var r := Apply(db, caller, id, jobId);
            && Applications(r.db.users[id].applied, jobId) == Applications(db.users[id].applied, jobId) + 1
            && (other != jobId ==>
                  Applications(r.db.users[id].applied, other) == Applications(db.users[id].applied, other))
  {
    ApplicationsAppend(db.users[id].applied, Application(jobId), jobId);
    ApplicationsAppend(db.users[id].applied, Application(jobId), other);
  }

  /** Applying twice to the same job succeeds both times and leaves two
      entries for it. */
  lemma ApplyTwice(db: Db, caller: Caller, jobId: Id)
    requires jobId in db.jobs && caller.id in db.users
    ensures var r1 := Apply(db, caller, caller.id, jobId);
            var r2 := Apply(r1.db, caller, caller.id, jobId);
            && r1.outcome == Done && r2.outcome == Done
            && r2.db.users[caller.id].applied
               == db.users[caller.id].applied + [Application(jobId), Application(jobId)]
            && Applications(r2.db.users[caller.id].applied, jobId)
               == Applications(db.users[caller.id].applied, jobId) + 2
  {
    var r1 := Apply(db, caller, caller.id, jobId);
    ApplyCountsOnce(db, caller, caller.id, jobId, jobId);
    ApplyCountsOnce(r1.db, caller, caller.id, jobId, jobId);
  }
}
