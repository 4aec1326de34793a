/**
 * The `/api/admin` route: look a user up by email with one page of their
 * todos (GET), grant a subscription (PATCH) and cancel one (PUT).
 */
module AdminRoute {
  import opened Wrappers
  import opened Records
  import opened Seqs
  import opened Pagination
  import opened Ordering
  import opened SubscriptionRoute

  /** JavaScript values, as far as the admin check needs them. */
  datatype JsValue = Undefined | Null | Boolean(b: bool) | Text(s: string) | PromiseOf(settled: JsValue)

  /** JavaScript truthiness: every object, a Promise included, is truthy. */
  predicate Truthy(v: JsValue) {
    match v
    case Undefined => false
    case Null => false
    case Boolean(b) => b
    case Text(s) => s != ""
    case PromiseOf(_) => true
  }

  /**
   * Calling the async `isAdmin`: the result is a Promise that settles to
   * whether the caller's private metadata names the role "admin".
   */
  function IsAdmin(privateRole: Option<string>): (p: JsValue)
    ensures p.PromiseOf?
    ensures Truthy(p.settled) <==> privateRole == Some("admin")
  {
    PromiseOf(Boolean(privateRole == Some("admin")))
  }

  /** The guard `!isAdmin(userId)` as written, with the Promise not awaited. */
  predicate AdminCheckRejects(privateRole: Option<string>) {
    !Truthy(IsAdmin(privateRole))
  }

  /**
   * The guard never fires, whatever the role: the Promise is truthy. Had it
   * been awaited, it would reject exactly the callers who are not "admin".
   */
  lemma AdminCheckNeverRejects(privateRole: Option<string>)
    ensures !AdminCheckRejects(privateRole)
    ensures !Truthy(IsAdmin(privateRole).settled) <==> privateRole != Some("admin")
  {
  }

  /** The body of PATCH and PUT replies. */
  datatype AdminUpdate = AdminUpdate(message: string, updatedUser: Option<User>)

  const GrantMessage := "Subscription Provided To the user"
  const CancelMessage := "Subscription Cancelled Of the user"

  /** PATCH: grant `clientId` a subscription ending at `monthLater`, refusing a user whose stored flag is already set. */
  function AdminGrant(db: Db, caller: Option<UserId>, privateRole: Option<string>, clientId: Option<UserId>,
                      monthLater: Instant): (o: Outcome<AdminUpdate>)
    ensures o.reply.status == OK || o.reply.status == UNAUTHORIZED
    ensures o.reply.status == UNAUTHORIZED <==>
              !Present(caller) || (Present(clientId) && (clientId.value !in db.users || db.users[clientId.value].isSubscribed))
    ensures o.reply.status == UNAUTHORIZED ==> o.db == db
    ensures o.reply.status == OK && !Present(clientId) ==>
              o.reply == Done(OK, AdminUpdate(GrantMessage, None)) && o.db == db
    ensures o.reply.status == OK && Present(clientId) ==>
              var updated := Subscribed(db.users[clientId.value], monthLater);
              && o.reply == Done(OK, AdminUpdate(GrantMessage, Some(updated)))
              && o.db == db.(users := db.users[clientId.value := updated])
  {
    if !Present(caller) then Outcome(Refused(UNAUTHORIZED, "Unauthorized"), db)
    else if AdminCheckRejects(privateRole) then Outcome(Refused(UNAUTHORIZED, "Unauthorized - Only Admin Can Acess"), db)
    else if !Present(clientId) then Outcome(Done(OK, AdminUpdate(GrantMessage, None)), db)
    else if clientId.value !in db.users then Outcome(Refused(UNAUTHORIZED, "User not found"), db)
    else if db.users[clientId.value].isSubscribed then Outcome(Refused(UNAUTHORIZED, "User is already subscribed"), db)
    else
      var updated := Subscribed(db.users[clientId.value], monthLater);
      Outcome(Done(OK, AdminUpdate(GrantMessage, Some(updated))), db.(users := db.users[clientId.value := updated]))
  }

  /** PUT: cancel the subscription of `clientId`, refusing a user whose stored flag is not set. */
  function AdminCancel(db: Db, caller: Option<UserId>, privateRole: Option<string>, clientId: Option<UserId>)
    : (o: Outcome<AdminUpdate>)
    ensures o.reply.status == OK || o.reply.status == UNAUTHORIZED
    ensures o.reply.status == UNAUTHORIZED <==>
              !Present(caller) || (Present(clientId) && (clientId.value !in db.users || !db.users[clientId.value].isSubscribed))
    ensures o.reply.status == UNAUTHORIZED ==> o.db == db
    ensures o.reply.status == OK && !Present(clientId) ==>
              o.reply == Done(OK, AdminUpdate(CancelMessage, None)) && o.db == db
    ensures o.reply.status == OK && Present(clientId) ==>
              var updated := Cleared(db.users[clientId.value]);
              && o.reply == Done(OK, AdminUpdate(CancelMessage, Some(updated)))
              && o.db == db.(users := db.users[clientId.value := updated])
  {
    if !Present(caller) then Outcome(Refused(UNAUTHORIZED, "Unauthorized"), db)
    else if AdminCheckRejects(privateRole) then Outcome(Refused(UNAUTHORIZED, "Unauthorized - Only Admin Can Acess"), db)
    else if !Present(clientId) then Outcome(Done(OK, AdminUpdate(CancelMessage, None)), db)
    else if clientId.value !in db.users then Outcome(Refused(UNAUTHORIZED, "User not found"), db)
    else if !db.users[clientId.value].isSubscribed then Outcome(Refused(UNAUTHORIZED, "User isn't subscribed"), db)
    else
      var updated := Cleared(db.users[clientId.value]);
      Outcome(Done(OK, AdminUpdate(CancelMessage, Some(updated))), db.(users := db.users[clientId.value := updated]))
  }

  /** Neither PATCH nor PUT depends on the caller's role. */
  lemma AdminUpdatesIgnoreRole(db: Db, caller: Option<UserId>, role1: Option<string>, role2: Option<string>,
                               clientId: Option<UserId>, monthLater: Instant)
    ensures AdminGrant(db, caller, role1, clientId, monthLater) == AdminGrant(db, caller, role2, clientId, monthLater)
    ensures AdminCancel(db, caller, role1, clientId) == AdminCancel(db, caller, role2, clientId)
  {
    AdminCheckNeverRejects(role1);
    AdminCheckNeverRejects(role2);
  }

  /** PATCH then PUT on an unsubscribed user gives back the database it started from. */
  lemma GrantThenCancelRestores(db: Db, caller: Option<UserId>, role: Option<string>, cid: UserId, monthLater: Instant)
    requires Inv(db)
    requires Present(caller) && cid != "" && cid in db.users && !db.users[cid].isSubscribed
    ensures var granted := AdminGrant(db, caller, role, Some(cid), monthLater);
            var cancelled := AdminCancel(granted.db, caller, role, Some(cid));
            granted.reply.status == OK && cancelled.reply.status == OK && cancelled.db == db
  {
    var u := db.users[cid];
    assert Cleared(Subscribed(u, monthLater)) == u;
    assert db.users[cid := u] == db.users;
  }

  lemma AdminGrantPreservesInv(db: Db, caller: Option<UserId>, role: Option<string>, clientId: Option<UserId>, monthLater: Instant)
    requires Inv(db)
    ensures Inv(AdminGrant(db, caller, role, clientId, monthLater).db)
  {
  }

  lemma AdminCancelPreservesInv(db: Db, caller: Option<UserId>, role: Option<string>, clientId: Option<UserId>)
    requires Inv(db)
    ensures Inv(AdminCancel(db, caller, role, clientId).db)
  {
  }

  // ---- GET ----

  /** A user row with one page of its todos (`include: { todos: ... }`). */
  datatype UserWithTodos = UserWithTodos(user: User, todos: seq<Todo>)

  /** The JSON body of GET. */
  datatype AdminView = AdminView(user: Option<UserWithTodos>, totalPages: nat, currentPage: int)

  /** The todos whose owner has email `email`: `todo.count({ where: { user: { email } } })` counts these. */
  function TodosOfEmail(db: Db, email: string): (r: seq<Todo>)
    ensures forall t :: t in r <==> t in db.todos && t.userId in db.users && db.users[t.userId].email == email
    ensures forall t :: multiset(r)[t] ==
              if t.userId in db.users && db.users[t.userId].email == email then multiset(db.todos)[t] else 0
  {
    Filter(db.todos, (t: Todo) => t.userId in db.users && db.users[t.userId].email == email)
  }

  /** With emails unique, the todos counted by email are exactly those owned by the user holding it. */
  lemma TodosOfEmailAreOwned(db: Db, id: UserId)
    requires KeysMatch(db.users) && UniqueEmails(db.users)
    requires id in db.users
    ensures TodosOfEmail(db, db.users[id].email) == OwnedBy(db.todos, id)
  {
    var email := db.users[id].email;
    FilterAgrees(db.todos, (t: Todo) => t.userId in db.users && db.users[t.userId].email == email,
                 (t: Todo) => t.userId == id);
  }

  /** No todo is counted for an email no user holds. */
  lemma TodosOfUnusedEmail(db: Db, email: string)
    requires !EmailInUse(db.users, email)
    ensures TodosOfEmail(db, email) == []
  {
    FilterNone(db.todos, (t: Todo) => t.userId in db.users && db.users[t.userId].email == email);
  }

  /** The user `id` with page `page` of their todos, newest first. */
  function UserPage(db: Db, id: UserId, page: int): (u: UserWithTodos)
    requires id in db.users && page >= 1
    ensures u.user == db.users[id]
    ensures |u.todos| <= PageSize
    ensures forall t :: t in u.todos ==> t in db.todos && t.userId == id
    ensures NewestFirst(u.todos)
    ensures u.todos == PageOf(SortNewestFirst(OwnedBy(db.todos, id)), page)
  {
    var sorted := SortNewestFirst(OwnedBy(db.todos, id));
    var p := PageOf(sorted, page);
    SliceNewestFirst(sorted, Min(Offset(page), |sorted|), Min(Offset(page) + PageSize, |sorted|));
    assert forall t :: t in p ==> t in sorted;
    assert forall t :: t in sorted ==> t in multiset(sorted);
    UserWithTodos(db.users[id], p)
  }
}
