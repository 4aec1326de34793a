/**
 * The database the route handlers share, as one object whose fields the
 * handlers read and update. Each handler is a method; each method that
 * writes is proved to do what the route's transition function says, and
 * every method keeps the store consistent (`Valid`).
 */
module Store {
  import opened Wrappers
  import opened Records
  import opened Pagination
  import opened Ordering
  import opened TodosRoute
  import opened SubscriptionRoute
  import opened AdminRoute
  import opened WebhookRoute

  class Store {
    var users: map<UserId, User>
    var todos: seq<Todo>

    function Snapshot(): Db
      reads this
    {
      Db(users, todos)
    }

    ghost predicate Valid()
      reads this
    {
      Inv(Snapshot())
    }

    constructor ()
      ensures Valid() && users == map[] && todos == []
    {
      users := map[];
      todos := [];
    }

    /** GET /api/todos. Reads the store and changes nothing. */
    method GetTodos(caller: Option<UserId>, page: int, search: string) returns (r: Reply<TodoList>)
      ensures !Present(caller) ==> r == Refused(UNAUTHORIZED, "Unauthorized")
      ensures Present(caller) && page < 1 ==> r == Refused(INTERNAL_ERROR, "Internal Server Error")
      ensures Present(caller) && page >= 1 ==> r == Done(OK, ListTodos(todos, caller.value, page, search))
    {
      if !Present(caller) {
        return Refused(UNAUTHORIZED, "Unauthorized");
      }
      if page < 1 {
        // a negative skip is rejected by the query and the catch answers 500
        return Refused(INTERNAL_ERROR, "Internal Server Error");
      }
      var matching := Matching(todos, caller.value, search);
      var pageTodos := PageOf(SortNewestFirst(matching), page);
      var totalItems := |matching|;
      r := Done(OK, TodoList(pageTodos, TotalPages(totalItems), page));
    }

    /** POST /api/todos, with `newId` and `now` the id and creation time the database assigns. */
    method PostTodo(caller: Option<UserId>, title: string, newId: TodoId, now: Instant) returns (r: Reply<Todo>)
      requires Valid()
      modifies this
      ensures Valid()
      ensures Outcome(r, Snapshot()) == Post(old(Snapshot()), caller, title, newId, now)
    {
      PostPreservesInv(Snapshot(), caller, title, newId, now);
      if !Present(caller) {
        return Refused(UNAUTHORIZED, "Unauthorized");
      }
      var uid := caller.value;
      if uid !in users {
        return Refused(UNAUTHORIZED, "User not found");
      }
      var user := users[uid];
      if !user.isSubscribed && |OwnedBy(todos, uid)| >= FreeQuota {
        return Refused(FORBIDDEN, "Upgrade your subscription to add more todos");
      }
      if TodoIdInUse(todos, newId) {
        return Refused(INTERNAL_ERROR, "Internal Server Error");
      }
      var created := Todo(newId, title, uid, now);
      todos := todos + [created];
      r := Done(CREATED, created);
    }

    /** POST /api/subscription: the caller's own grant, ending at `monthLater`. */
    method Subscribe(caller: Option<UserId>, monthLater: Instant) returns (r: Reply<Granted>)
      requires Valid()
      modifies this
      ensures Valid()
      ensures Outcome(r, Snapshot()) == SelfGrant(old(Snapshot()), caller, monthLater)
    {
      SelfGrantPreservesInv(Snapshot(), caller, monthLater);
      if !Present(caller) {
        return Refused(UNAUTHORIZED, "Unauthorized");
      }
      var uid := caller.value;
      if uid !in users {
        return Refused(UNAUTHORIZED, "User not found");
      }
      var updated := Subscribed(users[uid], monthLater);
      users := users[uid := updated];
      r := Done(OK, Granted("Subscription Added Successfully", updated.subscriptionEndsAt));
    }

    /** GET /api/subscription at time `now`, writing back the reset of an expired subscription. */
    method CheckSubscription(caller: Option<UserId>, now: Instant) returns (r: Reply<SubscriptionStatus>)
      requires Valid()
      modifies this
      ensures Valid()
      ensures Outcome(r, Snapshot()) == ReadStatus(old(Snapshot()), caller, now)
    {
      ReadStatusPreservesInv(Snapshot(), caller, now);
      if !Present(caller) {
        return Refused(UNAUTHORIZED, "Unauthorized");
      }
      var uid := caller.value;
      if uid !in users {
        return Refused(UNAUTHORIZED, "User not found");
      }
      var user := users[uid];
      if user.subscriptionEndsAt.Some? && user.subscriptionEndsAt.value < now {
        users := users[uid := Cleared(user)];
        return Done(OK, SubscriptionStatus(false, None));
      }
      r := Done(OK, SubscriptionStatus(user.isSubscribed, user.subscriptionEndsAt));
    }

    /**
     * GET /api/admin: the user holding `email`, with page `page` of their
     * todos, and the page count of all their todos. Reads the store and
     * changes nothing.
     */
    method AdminLookup(caller: Option<UserId>, privateRole: Option<string>, email: Option<string>, page: int)
      returns (r: Reply<AdminView>)
      requires Valid()
      ensures !Present(caller) ==> r == Refused(UNAUTHORIZED, "Unauthorized")
      ensures Present(caller) && !Present(email) ==> r == Done(OK, AdminView(None, 0, page))
      ensures Present(caller) && Present(email) && page < 1 ==> r == Refused(INTERNAL_ERROR, "Internal Server Error")
      ensures Present(caller) && Present(email) && page >= 1 ==>
                && r.Done? && r.status == OK && r.value.currentPage == page
                && (r.value.user.Some? <==> EmailInUse(users, email.value))
                && (r.value.user.None? ==> r.value.totalPages == 0)
                && (r.value.user.Some? ==>
                      var id := r.value.user.value.user.id;
                      && id in users && users[id].email == email.value
                      && r.value.user.value == UserPage(Snapshot(), id, page)
                      && r.value.totalPages == TotalPages(|OwnedBy(todos, id)|))
    {
      if !Present(caller) {
        return Refused(UNAUTHORIZED, "Unauthorized");
      }
      if AdminCheckRejects(privateRole) {
        return Refused(UNAUTHORIZED, "Unauthorized - Only Admin Can Acess");
      }
      if !Present(email) {
        return Done(OK, AdminView(None, TotalPages(0), page));
      }
      if page < 1 {
        return Refused(INTERNAL_ERROR, "Internal Server Error");
      }
      var user: Option<UserWithTodos> := None;
      if EmailInUse(users, email.value) {
        var id :| id in users && users[id].email == email.value;
        user := Some(UserPage(Snapshot(), id, page));
        TodosOfEmailAreOwned(Snapshot(), id);
      } else {
        TodosOfUnusedEmail(Snapshot(), email.value);
      }
      var totalItems := |TodosOfEmail(Snapshot(), email.value)|;
      r := Done(OK, AdminView(user, TotalPages(totalItems), page));
    }

    /** PATCH /api/admin: grant `clientId` a subscription ending at `monthLater`. */
    method AdminSubscribe(caller: Option<UserId>, privateRole: Option<string>, clientId: Option<UserId>, monthLater: Instant)
      returns (r: Reply<AdminUpdate>)
      requires Valid()
      modifies this
      ensures Valid()
      ensures Outcome(r, Snapshot()) == AdminGrant(old(Snapshot()), caller, privateRole, clientId, monthLater)
    {
      AdminGrantPreservesInv(Snapshot(), caller, privateRole, clientId, monthLater);
      if !Present(caller) {
        return Refused(UNAUTHORIZED, "Unauthorized");
      }
      if AdminCheckRejects(privateRole) {
        return Refused(UNAUTHORIZED, "Unauthorized - Only Admin Can Acess");
      }
      var updatedUser: Option<User> := None;
      if Present(clientId) {
        var cid := clientId.value;
        if cid !in users {
          return Refused(UNAUTHORIZED, "User not found");
        }
        if users[cid].isSubscribed {
          return Refused(UNAUTHORIZED, "User is already subscribed");
        }
        var updated := Subscribed(users[cid], monthLater);
        users := users[cid := updated];
        updatedUser := Some(updated);
      }
      r := Done(OK, AdminUpdate(GrantMessage, updatedUser));
    }

    /** PUT /api/admin: cancel the subscription of `clientId`. */
    method AdminUnsubscribe(caller: Option<UserId>, privateRole: Option<string>, clientId: Option<UserId>)
      returns (r: Reply<AdminUpdate>)
      requires Valid()
      modifies this
      ensures Valid()
      ensures Outcome(r, Snapshot()) == AdminCancel(old(Snapshot()), caller, privateRole, clientId)
    {
      AdminCancelPreservesInv(Snapshot(), caller, privateRole, clientId);
      if !Present(caller) {
        return Refused(UNAUTHORIZED, "Unauthorized");
      }
      if AdminCheckRejects(privateRole) {
        return Refused(UNAUTHORIZED, "Unauthorized - Only Admin Can Acess");
      }
      var updatedUser: Option<User> := None;
      if Present(clientId) {
        var cid := clientId.value;
        if cid !in users {
          return Refused(UNAUTHORIZED, "User not found");
        }
        if !users[cid].isSubscribed {
          return Refused(UNAUTHORIZED, "User isn't subscribed");
        }
        var updated := Cleared(users[cid]);
        users := users[cid := updated];
        updatedUser := Some(updated);
      }
      r := Done(OK, AdminUpdate(CancelMessage, updatedUser));
    }

    /** POST /api/webhook/register. */
    method RegisterWebhook(secret: Option<string>, headers: SvixHeaders, body: string, verify: Verifier)
      returns (r: Reply<string>)
      requires Valid()
      modifies this
      ensures Valid()
      ensures Outcome(r, Snapshot()) == Receive(old(Snapshot()), secret, headers, body, verify)
    {
      ReceivePreservesInv(Snapshot(), secret, headers, body, verify);
      if !Present(secret) {
        return Refused(INTERNAL_ERROR, "Webhook secret not set");
      }
      if !Present(headers.svixId) || !Present(headers.svixTimestamp) || !Present(headers.svixSignature) {
        return Refused(BAD_REQUEST, "Missing required headers");
      }
      var verified := verify(secret.value, body, headers);
      if verified.None? {
        return Refused(BAD_REQUEST, "Invalid signature");
      }
      var evt := verified.value;
      if evt.eventType == CreatedType {
        var primary := FindPrimary(evt.data.emailAddresses, evt.data.primaryEmailAddressId);
        if primary.None? {
          return Refused(BAD_REQUEST, "Primary email not found");
        }
        var user := User(evt.data.id, primary.value.emailAddress, false, None);
        if user.id in users || EmailInUse(users, user.email) {
          return Refused(INTERNAL_ERROR, "Error creating user");
        }
        users := users[user.id := user];
      }
      r := Done(OK, "Webhook received");
    }
  }
}
