/**
  The admin routes: mark a user or a company verified, and delete a user or a
  company. All four sit behind the role gate for "admin" alone.
 */
module AdminRoutes {
  import opened Store

  const AdminRoles: set<Role> := {AdminRole}

  /** PUT `/user/:id/isVerified`. On a missing id the not-found reply is sent
      but the handler does not return: the update still runs, and matching no
      record it changes nothing. */
  function VerifyUser(db: Db, caller: Caller, id: Id): (r: Reply)
    ensures !Authorized(caller, AdminRoles) ==> r == Reply(RoleDenied, db)
    ensures Authorized(caller, AdminRoles) && id !in db.users ==> r == Reply(NotFound, db)
    ensures r.outcome == Done <==> Authorized(caller, AdminRoles) && id in db.users
    ensures r.outcome == Done ==>
              && OnlyUserChanged(db, r.db, id)
              && r.db.users[id] == db.users[id].(isVerified := true)
  {
    if !Authorized(caller, AdminRoles) then Reply(RoleDenied, db)
    else
      var outcome := if id in db.users then Done else NotFound;
      var db' := if id in db.users then db.(users := db.users[id := db.users[id].(isVerified := true)]) else db;
      Reply(outcome, db')
  }

  /** PUT `/company/:id/isVerified`, with the same missing `return` as
      `VerifyUser`. */
  function VerifyCompany(db: Db, caller: Caller, id: Id): (r: Reply)
    ensures !Authorized(caller, AdminRoles) ==> r == Reply(RoleDenied, db)
    ensures Authorized(caller, AdminRoles) && id !in db.companies ==> r == Reply(NotFound, db)
    ensures r.outcome == Done <==> Authorized(caller, AdminRoles) && id in db.companies
    ensures r.outcome == Done ==>
              && OnlyCompanyChanged(db, r.db, id)
              && r.db.companies[id] == db.companies[id].(isVerified := true)
  {
    if !Authorized(caller, AdminRoles) then Reply(RoleDenied, db)
    else
      var outcome := if id in db.companies then Done else NotFound;
      var db' :=
        if id in db.companies then db.(companies := db.companies[id := db.companies[id].(isVerified := true)])
        else db;
      Reply(outcome, db')
  }

  /** DELETE `/company/:id`. */
  function DeleteCompany(db: Db, caller: Caller, id: Id): (r: Reply)
    ensures !Authorized(caller, AdminRoles) ==> r == Reply(RoleDenied, db)
    ensures Authorized(caller, AdminRoles) && id !in db.companies ==> r == Reply(NotFound, db)
    ensures r.outcome == Done <==> Authorized(caller, AdminRoles) && id in db.companies
    ensures r.outcome == Done ==>
              && r.db.users == db.users && r.db.jobs == db.jobs
              && r.db.companies.Keys == db.companies.Keys - {id}
              && forall k | k in r.db.companies :: r.db.companies[k] == db.companies[k]
  {
    if !Authorized(caller, AdminRoles) then Reply(RoleDenied, db)
    else if id !in db.companies then Reply(NotFound, db)
    else Reply(Done, db.(companies := db.companies - {id}))
  }

  /** DELETE `/user/:id`. Companies the user owned are left in place. */
  function DeleteUser(db: Db, caller: Caller, id: Id): (r: Reply)
    ensures !Authorized(caller, AdminRoles) ==> r == Reply(RoleDenied, db)
    ensures Authorized(caller, AdminRoles) && id !in db.users ==> r == Reply(NotFound, db)
    ensures r.outcome == Done <==> Authorized(caller, AdminRoles) && id in db.users
    ensures r.outcome == Done ==>
              && r.db.companies == db.companies && r.db.jobs == db.jobs
              && r.db.users.Keys == db.users.Keys - {id}
              && forall k | k in r.db.users :: r.db.users[k] == db.users[k]
  {
    if !Authorized(caller, AdminRoles) then Reply(RoleDenied, db)
    else if id !in db.users then Reply(NotFound, db)
    else Reply(Done, db.(users := db.users - {id}))
  }

  /** Verifying twice leaves the store as verifying once does. */
  lemma VerifyIdempotent(db: Db, caller: Caller, id: Id)
    ensures VerifyUser(VerifyUser(db, caller, id).db, caller, id).db == VerifyUser(db, caller, id).db
    ensures VerifyCompany(VerifyCompany(db, caller, id).db, caller, id).db == VerifyCompany(db, caller, id).db
  {
  }

  /** Every admin route leaves the store untouched when it does not succeed:
      a non-admin caller, or a missing id, changes nothing. */
  lemma FailureChangesNothing(db: Db, caller: Caller, id: Id)
    ensures VerifyUser(db, caller, id).outcome != Done ==> VerifyUser(db, caller, id).db == db
    ensures VerifyCompany(db, caller, id).outcome != Done ==> VerifyCompany(db, caller, id).db == db
    ensures DeleteUser(db, caller, id).outcome != Done ==> DeleteUser(db, caller, id).db == db
    ensures DeleteCompany(db, caller, id).outcome != Done ==> DeleteCompany(db, caller, id).db == db
  {
  }
}
