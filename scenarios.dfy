/**
 * Properties that span several routes: how the quota, the admin grant and
 * the lazily corrected subscription flag interact.
 */
module Scenarios {
  import opened Wrappers
  import opened Records
  import opened TodosRoute
  import opened SubscriptionRoute
  import opened AdminRoute

  /**
   * An unsubscribed user with three todos is refused a fourth; after an
   * admin grants a subscription the same request succeeds and the user owns
   * four todos.
   */
  lemma QuotaLiftedByAdminGrant(db: Db, uid: UserId, admin: Option<UserId>, role: Option<string>,
                                title: string, newId: TodoId, now: Instant, monthLater: Instant)
    requires uid != "" && uid in db.users && !db.users[uid].isSubscribed
    requires |OwnedBy(db.todos, uid)| == 3
    requires Present(admin)
    requires !TodoIdInUse(db.todos, newId)
    ensures Post(db, Some(uid), title, newId, now).reply.status == FORBIDDEN
    ensures var granted := AdminGrant(db, admin, role, Some(uid), monthLater);
            var posted := Post(granted.db, Some(uid), title, newId, now);
            && granted.reply.status == OK
            && posted.reply.status == CREATED
            && |OwnedBy(posted.db.todos, uid)| == 4
  {
    var granted := AdminGrant(db, admin, role, Some(uid), monthLater);
    assert granted.db.todos == db.todos;
    PostAddsOneTodoToCaller(granted.db, Some(uid), title, newId, now, uid);
  }

  /**
   * The admin grant reads the stored flag with no expiry correction: a
   * subscription whose end has passed is reported as inactive by the
   * status read, yet the grant refuses it as already subscribed until
   * that read has written the reset back.
   */
  lemma AdminGrantSeesUncorrectedFlag(db: Db, uid: UserId, admin: Option<UserId>, role: Option<string>,
                                      now: Instant, monthLater: Instant)
    requires uid != "" && uid in db.users && Present(admin)
    requires db.users[uid].isSubscribed && Expired(db.users[uid], now)
    ensures ReadStatus(db, Some(uid), now).reply.value.isSubscribed == false
    ensures AdminGrant(db, admin, role, Some(uid), monthLater).reply == Refused(UNAUTHORIZED, "User is already subscribed")
    ensures var read := ReadStatus(db, Some(uid), now).db;
            AdminGrant(read, admin, role, Some(uid), monthLater).reply.status == OK
  {
    AdminCheckNeverRejects(role);
  }

  /**
   * The quota also reads the stored flag: until the status read reaps it,
   * an expired subscription still lets its user create todos past the free
   * quota; after the read the same request is refused.
   */
  lemma QuotaSeesUncorrectedFlag(db: Db, uid: UserId, title: string, newId: TodoId, now: Instant)
    requires uid != "" && uid in db.users
    requires db.users[uid].isSubscribed && Expired(db.users[uid], now)
    requires |OwnedBy(db.todos, uid)| >= FreeQuota
    requires !TodoIdInUse(db.todos, newId)
    ensures Post(db, Some(uid), title, newId, now).reply.status == CREATED
    ensures var read := ReadStatus(db, Some(uid), now).db;
            Post(read, Some(uid), title, newId, now).reply.status == FORBIDDEN
  {
  }
}
