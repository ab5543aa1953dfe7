/**
  The document store the route handlers work on, reduced to three finite maps
  from document id to record, together with the request-side values every
  handler receives: the authenticated caller, the uploaded file and the reply.

  Every handler in this project is a pure function from a `Db` and its request
  parameters to a `Reply`, which carries what the client is told and the store
  after the request.
 */
module Store {

  /** Document ids in their canonical form (lower-case hex object ids), so
      that a path id, a stored id and `_id` rendered in a file name agree. */
  type Id = string

  datatype Option<T> = None | Some(value: T) {
    function GetOr(default: T): T {
      match this
      case Some(v) => v
      case None => default
    }
  }

  /** The closed set of roles a user may hold ("user", "companyuser", "admin"). */
  datatype Role = UserRole | CompanyUserRole | AdminRole

  /** The identity the authentication middleware attaches to a request. */
  datatype Caller = Caller(id: Id, role: Role)

  /** One entry of a user's `applied` list. */
  datatype Application = Application(job: Id)

  datatype User = User(
    name: string,
    email: string,
    password: string,     // already hashed; the hash function is not modelled
    role: Role,
    isVerified: bool,
    photo: string,
    certificate: string,
    applied: seq<Application>)

  /** A company; `details` stands for the schema fields no handler inspects
      (name, address, location, ...). The handlers call the flag, photo and
      licence fields `c_isVerified`, `c_photo` and `c_license`. */
  datatype Company = Company(
    user: Id,
    isVerified: bool,
    photo: string,
    license: string,
    details: map<string, string>)

  datatype Job = Job(company: Id)

  datatype Db = Db(users: map<Id, User>, companies: map<Id, Company>, jobs: map<Id, Job>)

  /** The metadata of the single file uploaded under the field `file`: its
      MIME type, its size in bytes and the extension of its original name. */
  datatype Upload = Upload(mimetype: string, size: nat, ext: string)

  /** What the client is told. The handlers report every failure with a
      free-text message; the constructors keep apart the cases they
      distinguish. */
  datatype Outcome =
    | Done                      // 200 / 201
    | Uploaded(fileName: string) // 200 with the stored file name
    | RoleDenied                // the role gate refused the caller
    | NotFound
    | NotOwner                  // the caller may not touch this record
    | AlreadyRegistered
    | NoFile
    | WrongType                 // MIME type has the wrong prefix
    | TooLarge
    | ServerError               // an exception caught by the handler

  datatype Reply = Reply(outcome: Outcome, db: Db)

  predicate Succeeded(o: Outcome) {
    o.Done? || o.Uploaded?
  }

  /** The role gate: the caller's role is one of those the route lists. */
  predicate Authorized(caller: Caller, allowed: set<Role>) {
    caller.role in allowed
  }

  /** True when a file was uploaded, its MIME type starts with `kind` and its
      size does not exceed `maxSize`. */
  predicate Acceptable(files: Option<Upload>, kind: string, maxSize: nat) {
    files.Some? && kind <= files.value.mimetype && files.value.size <= maxSize
  }

  /** The three file guards shared by every upload route, in the order they
      run: a file is present, its MIME type starts with `kind`, and it is not
      larger than `maxSize`. `None` means the file passed all three. */
  function CheckUpload(files: Option<Upload>, kind: string, maxSize: nat): (r: Option<Outcome>)
    ensures r.None? <==> Acceptable(files, kind, maxSize)
    ensures files.None? ==> r == Some(NoFile)
    ensures files.Some? && !(kind <= files.value.mimetype) ==> r == Some(WrongType)
    ensures files.Some? && kind <= files.value.mimetype && files.value.size > maxSize ==> r == Some(TooLarge)
  {
    if files.None? then Some(NoFile)
    else if !(kind <= files.value.mimetype) then Some(WrongType)
    else if files.value.size > maxSize then Some(TooLarge)
    else None
  }

  /** `db'` differs from `db` at most in the record of company `id`, which is
      present in both. */
  ghost predicate OnlyCompanyChanged(db: Db, db': Db, id: Id) {
    && db'.users == db.users
    && db'.jobs == db.jobs
    && id in db.companies
    && db'.companies.Keys == db.companies.Keys
    && forall k | k in db.companies && k != id :: db'.companies[k] == db.companies[k]
  }

  /** `db'` differs from `db` at most in the record of user `id`, which is
      present in both. */
  ghost predicate OnlyUserChanged(db: Db, db': Db, id: Id) {
    && db'.companies == db.companies
    && db'.jobs == db.jobs
    && id in db.users
    && db'.users.Keys == db.users.Keys
    && forall k | k in db.users && k != id :: db'.users[k] == db.users[k]
  }
}
