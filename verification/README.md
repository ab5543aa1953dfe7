# Job-board route handlers, modelled in Dafny

This project models the decision logic of the mutating REST routes of a job
board: companies (create, update, delete, photo and licence upload), users
(register, photo and certificate upload, apply to a job) and the admin routes
(verify and delete users and companies).

The document store is three finite maps from id to record (`Store.Db`:
users, companies, jobs). Each route is a pure function of the store, the
authenticated caller (`Caller(id, role)`), the path parameters and, for
uploads, the file metadata. It returns a `Reply`: the outcome the client is
told and the store afterwards. The role gate `authorize(...)` is "the
caller's role is in the listed set". Mongoose's `findById`, `findOne`,
`findByIdAndUpdate`, `findByIdAndDelete` and `create` are map lookup,
existence test, update, removal and insertion, on ids taken in their
canonical form (see Left out).

The routes check their guards in these orders:

- company update, delete and uploads: the role gate ("companyuser" or
  "admin"), the company exists, the caller owns it or is an admin, then for
  uploads a file is present, its MIME type has the right prefix, and its size
  does not exceed the ceiling;
- user photo and certificate uploads: no role gate; the user exists, the path
  id is the caller's own id (admins included), then the same three file
  guards;
- apply: the job exists, the user exists, the path id is the caller's own id;
- admin routes: the admin role gate, then the record exists.

A request that fails a guard leaves the store unchanged. A request that
passes them writes the fields of one record (an upload or verify writes one
field, a company update writes every field the body carries), or adds or
removes one record. The as-written company delete is the exception: it
empties the company collection (see Findings).

Modules:

- `Store`: records, outcomes, the shared file guard, and the "only this
  record changed" predicates.
- `CompanyRoutes` (server/routes/company.js).
- `UserRoutes` (server/routes/user.js).
- `AdminRoutes` (server/routes/admin.js).
- `Server`: combines the routes into one `Step` over a `Request`, and `Run`
  answers a sequence of requests. It proves which records a caller may
  change, and that three store invariants hold across any sequence of
  requests: emails are unique, a non-admin owns at most one company, and
  every application names a stored job.

Three routes have a defect, listed under Findings. Each is modelled twice:
once as written, and once corrected. `Server.Step` uses the corrected version.

The two admin verify routes send a not-found reply but do not `return`
(server/routes/admin.js:10-15, 39-44). They are modelled literally: the
update still runs, and on a missing id it matches nothing, so the store is
unchanged and the outcome is `NotFound`.

## Model

| member | source | states |
|---|---|---|
| Store.CheckUpload | server/routes/company.js:175-196 | The file guards run in order: no file gives NoFile, a MIME type without the prefix gives WrongType, a size above the ceiling gives TooLarge. The file passes exactly when it is present, correctly prefixed and not larger than the ceiling. |
| CompanyRoutes.Create | server/routes/company.js:44-67 | Only "companyuser" and "admin" pass the role gate. A non-admin who already owns a company is refused, and nothing is added. An id clash is the caught create error (ServerError) with the store unchanged. Otherwise exactly one company is added under the new id, every existing company is kept, and the new company's owner is the caller whatever the body said. |
| CompanyRoutes.Update | server/routes/company.js:69-99 | This is the route as written. Failures come in order: role gate, then not-found, then not-owner-nor-admin, each leaving the store unchanged. Success happens exactly when all three pass. Only that company changes: each of owner, verified flag, photo and licence takes the body's value when the body carries one and keeps the old value otherwise, and the body's other fields overwrite the old ones. A `user` field in the body thus becomes the new owner. |
| CompanyRoutes.UpdateCorrected | server/routes/company.js:69-99 | Same guard order, frame and field-by-field writes as `Update`, except that the owner of the company never changes. |
| CompanyRoutes.OwnerCanSelfVerify | server/routes/company.js:44-57 | Because create and update pass the body through, a "companyuser" can set the verified flag of their own company, both when creating it and when updating it (with either update). |
| CompanyRoutes.Delete | server/routes/company.js:101-128 | This is the route as written. Same guard order; success happens exactly when the three guards pass, and then the company collection is emptied, because the remove has no filter. |
| CompanyRoutes.DeleteCorrected | server/routes/company.js:101-128 | Same guard order; on success exactly the checked company is removed, and every other record is kept. |
| CompanyRoutes.UploadPhoto | server/routes/company.js:158-220 | Failures come in order: role gate, not-found, not-owner, no file, a MIME type that does not start with `image`, too large. Each failure leaves the store unchanged. Success happens exactly when all guards pass. It stores `"photo_" + id + ext` in `photo` of that company only. |
| CompanyRoutes.UploadLicense | server/routes/company.js:222-283 | Same order as the photo route with prefix `application`. Success stores `"license_" + id + ext` in `license` of that company only. |
| CompanyRoutes.CeilingIsInclusive | server/routes/company.js:191-196 | A file whose size equals the ceiling is accepted on both routes; one byte more is not. |
| CompanyRoutes.NonImageRefusedWhateverSize | server/routes/company.js:184-196 | The photo route refuses a non-image as WrongType whatever its size. |
| CompanyRoutes.UnknownIdBeforeOwnership | server/routes/company.js:69-84 | On an unknown id, update, delete, photo and licence all report NotFound with the store unchanged, for any caller who passes the role gate, whoever owns what. A caller without the "companyuser" or "admin" role is refused by the gate first. |
| CompanyRoutes.UploadIdempotent | server/routes/company.js:198-210 | Repeating an upload with the same file gives the same reply and store as doing it once. |
| CompanyRoutes.DeleteRemovesOtherOwnersCompany | server/routes/company.js:118 | An owner deleting their own company with the as-written route also removes another owner's company. |
| CompanyRoutes.UpdateTransfersOwnership | server/routes/company.js:86-89 | With the as-written update, an owner can make another user the owner of their company, so that user owns two. The corrected update keeps the owner. |
| UserRoutes.RegisterAsWritten | server/routes/user.js:39-66 | This is the route as written. It never stores anything. A known email gives AlreadyRegistered; a new email gives an error, because the null result's `email` is read. |
| UserRoutes.Register | server/routes/user.js:43-64 | A known email is refused and the store is unchanged. A new email whose id clashes is the caught save error (ServerError) with the store unchanged; otherwise it adds exactly one user, holding the given name, email and hashed password, and keeps every other user. |
| UserRoutes.RegisterFreshEmail | server/routes/user.js:43-44 | On an empty store, the as-written route fails with the store unchanged, and the corrected route stores the user. |
| UserRoutes.UploadPhoto | server/routes/user.js:135-196 | Failures come in order: not-found, then path id different from the caller's id, then no file, a MIME type that does not start with `image`, too large. Each failure leaves the store unchanged. Success stores `"photo_" + id + ext` in that user's `photo` only. |
| UserRoutes.UploadCertificate | server/routes/user.js:198-260 | Same order with prefix `application`. Success stores `"certificate" + id + ext` (no underscore) in that user's `certificate` only. |
| UserRoutes.NoAdminOverride | server/routes/user.js:145-150 | An admin uploading for another user is refused like anyone else. |
| UserRoutes.Apply | server/routes/user.js:262-306 | An unknown job gives NotFound before the user lookup and the ownership check. Then an unknown user gives NotFound, and a caller other than the path user gives NotOwner. Each failure leaves the store unchanged. Success appends exactly `Application(jobId)` to that user's `applied` and changes nothing else. |
| UserRoutes.ApplyCountsOnce | server/routes/user.js:287-296 | A successful apply adds one to the count of entries for that job and leaves every other job's count unchanged. |
| UserRoutes.ApplyTwice | server/routes/user.js:287-296 | There is no duplicate check: applying twice to the same job succeeds both times and leaves two entries. |
| AdminRoutes.VerifyUser | server/routes/admin.js:7-34 | Only admins pass. A missing id gives NotFound with the store unchanged. An existing id sets only that user's `isVerified` to true. |
| AdminRoutes.VerifyCompany | server/routes/admin.js:36-63 | Only admins pass. A missing id gives NotFound with the store unchanged. An existing id sets only that company's `isVerified` to true. |
| AdminRoutes.DeleteCompany | server/routes/admin.js:65-85 | Only admins pass. A missing id gives NotFound. An existing id removes exactly that company and keeps every other record. |
| AdminRoutes.DeleteUser | server/routes/admin.js:87-106 | Only admins pass. A missing id gives NotFound. An existing id removes exactly that user and keeps every other record, including the companies that user owns. |
| AdminRoutes.VerifyIdempotent | server/routes/admin.js:17-24 | Verifying a user or a company twice leaves the store as verifying once does. |
| AdminRoutes.FailureChangesNothing | server/routes/admin.js:9-17 | Every admin route that does not succeed leaves the store unchanged. This includes the verify routes that run their update after reporting not-found. |
| Server.Run | server/routes/user.js:264-270 | No sequence of requests changes the job collection: routes only read jobs. |
| Server.FailedStepChangesNothing | server/routes/company.js:71-84 | Any request that does not succeed leaves the store unchanged. |
| Server.StepRespectsOwnership | server/routes/company.js:79-84 | A request changes or removes an existing company only if the caller owns it or is an admin. It changes or removes an existing user only if the caller is that user or an admin. Registration only adds. |
| Server.DeleteAsWrittenBreaksOwnership | server/routes/company.js:118 | The as-written company delete violates the ownership rule stated by `StepRespectsOwnership`. |
| Server.CreateKeepsOneCompanyPerOwner | server/routes/company.js:48-57 | Company creation keeps "every non-admin owns at most one company", when the caller presents their own role. |
| Server.CreateCompanyKeepsInvariant | server/routes/company.js:44-57 | Company creation keeps all three invariants, when the caller presents their own role. |
| Server.RegisterKeepsInvariant | server/routes/user.js:43-59 | Registration keeps all three invariants. |
| Server.ApplyKeepsInvariant | server/routes/user.js:264-296 | Applying keeps all three invariants. |
| Server.RegisterKeepsEmailsUnique | server/routes/user.js:43-59 | Registration keeps emails unique. |
| Server.ApplyKeepsApplicationsNamingJobs | server/routes/user.js:264-296 | Applying keeps "every `applied` entry names a stored job". |
| Server.UpdateCompanyKeepsInvariant | server/routes/company.js:86-89 | The corrected company update keeps all three invariants. |
| Server.DeleteCompanyKeepsInvariant | server/routes/company.js:118 | The corrected company delete keeps all three invariants. |
| Server.CompanyPhotoKeepsInvariant | server/routes/company.js:210 | The company photo upload keeps all three invariants. |
| Server.CompanyLicenseKeepsInvariant | server/routes/company.js:273 | The company licence upload keeps all three invariants. |
| Server.UserPhotoKeepsInvariant | server/routes/user.js:187 | The user photo upload keeps all three invariants. |
| Server.UserCertificateKeepsInvariant | server/routes/user.js:251 | The certificate upload keeps all three invariants. |
| Server.VerifyUserKeepsInvariant | server/routes/admin.js:17-24 | Verifying a user keeps all three invariants. |
| Server.VerifyCompanyKeepsInvariant | server/routes/admin.js:46-53 | Verifying a company keeps all three invariants. |
| Server.AdminDeleteCompanyKeepsInvariant | server/routes/admin.js:75 | The admin company delete keeps all three invariants. |
| Server.AdminDeleteUserKeepsInvariant | server/routes/admin.js:97 | The admin user delete keeps all three invariants. |
| Server.StepKeepsInvariant | server/routes/company.js:48-55 | Every request keeps the three invariants when its caller presents the role that belongs to their identity. |
| Server.RunKeepsInvariant | server/routes/company.js:48-55 | Starting from a store where the three invariants hold, and under the same condition on callers, they hold after any sequence of requests. |
| Server.UpdateAsWrittenBreaksOneCompanyPerOwner | server/routes/company.js:86-89 | With the as-written update, one request by a non-admin owner breaks the one-company rule. |

## Left out

- Radius search (server/routes/company.js:130-156): it depends on an external geocoder, floating-point arithmetic and a spherical query in the store.
- Login, logout, token issue and password hashing (server/routes/user.js:68-133): these call bcrypt, JWT signing, cookies and the clock. Registration takes the hashed password as a parameter.
- The list and get routes (the user `GET /:id` sits behind `protect`, server/routes/user.js:25): they only read the store.
- The internals of the `protect` and `authorize` middleware are not part of this model. The caller is given as already authenticated, and the role gate is set membership.
- Disk writes by `file.mv`: they are asynchronous and do not affect the store update that follows. Only the store update is modelled.
- `path.parse(name).ext`: the extension is a field of the upload.
- Uploads: `files` stands for `req.files.file`. A multipart request whose file sits under another field name, or that sends several files under `file` (an array), makes the handler read a property of undefined; the throw is caught (server/routes/company.js:218, 281 answer 400; server/routes/user.js:194, 258 answer 500) and the store is unchanged. This case is not modelled.
- Ids: `Id` is a string in canonical form (lower-case hex object id). The ObjectId cast in `findById` is not modelled, so a path id that differs from the stored id only in letter case, which the store would still find, is treated as unknown; and file names are built from the path id, where the handlers use the record's `_id`. The two agree on canonical ids.
- CompanyRoutes.Create and CompanyRoutes.Update: an owner who sends `isVerified` (or the photo and licence fields) in the body sets it, because the handlers pass the body through; this is kept as the handlers behave, and `CompanyRoutes.OwnerCanSelfVerify` states it. The pass-through is modelled as the handlers behave, even though it bypasses the admin-only company verify route (server/routes/admin.js:36); it is not listed as a finding because the handlers state no rule that excludes the verified flag from the body.
- The `MAX_FILE_UPLOAD` environment string: it is a natural-number parameter. If the variable is unset, the comparison with it is always false and no file is too large; this is not modelled.
- Store-assigned ids: the new id is a parameter. A clash with an existing id is an error (`ServerError`), standing for the failed create or save. A request body that carries its own `_id` is not modelled.
- The schema files (server/models/*.js) are not part of this model. Fields a request does not supply get empty defaults, and a new user has the "user" role. Schema validators (`runValidators`) and malformed-id cast errors are not modelled.
- Response details: HTTP status codes, message texts, and the errors from sending two responses in the admin verify routes. Outcomes only separate the cases the handlers distinguish.
- Concurrent requests: `Run` answers requests one at a time.

## Findings

| source | as written | input that shows it | evidently intended | confidence | as-written member | corrected member |
|---|---|---|---|---|---|---|
| server/routes/company.js:118 | `Company.remove()` is called on the model with no filter. After the guards pass, every company is deleted. | Owner u1 deletes c1 while c2 belongs to u2; c2 is gone too. | Remove only the company that was found and checked. | not executed; high (assumes a Mongoose version where `Model.remove()` with no conditions removes every document) | CompanyRoutes.Delete | CompanyRoutes.DeleteCorrected |
| server/routes/user.js:43-44 | `user.email` is read when `findOne` returns null. For a new email this throws, the handler reports an error, and registration never succeeds. | Any email not yet stored, for example registration on an empty store. | Treat a missing user as "email is free" and store the new user. | not executed; high | UserRoutes.RegisterAsWritten | UserRoutes.Register |
| server/routes/company.js:86 | The whole request body is passed to the update, so a `user` field in it changes the owner. | Owner u1 updates c1 with body `{user: u2}` while u2 owns c2; non-admin u2 now owns two companies. | Keep the owner out of the update, as creation does at line 46. This keeps the rule that a non-admin owns at most one company. | not executed; medium | CompanyRoutes.Update | CompanyRoutes.UpdateCorrected |
