/**
 * The `/api/subscription` route: a self-service grant that always writes a
 * new end date (POST), and a status read that lazily reaps an expired
 * subscription and writes the reset back (GET).
 */
module SubscriptionRoute {
  import opened Wrappers
  import opened Records

  /** The JSON body of GET. */
  datatype SubscriptionStatus = SubscriptionStatus(isSubscribed: bool, subscriptionEndsAt: Option<Instant>)

  /** The JSON body of a successful POST. */
  datatype Granted = Granted(message: string, subscriptionEndsAt: Option<Instant>)

  /** The stored end date lies strictly before `now`; an end date equal to `now` has not expired. */
  predicate Expired(u: User, now: Instant) {
    u.subscriptionEndsAt.Some? && u.subscriptionEndsAt.value < now
  }

  /** The three phases of a stored subscription at time `now`. */
  datatype Phase = Unsubscribed | Active | PendingCleanup

  function PhaseOf(u: User, now: Instant): Phase {
    if Expired(u, now) then PendingCleanup
    else if u.isSubscribed then Active
    else Unsubscribed
  }

  /** The user record with no subscription. */
  function Cleared(u: User): (c: User)
    ensures c.id == u.id && c.email == u.email
    ensures !c.isSubscribed && c.subscriptionEndsAt == None
  {
    u.(isSubscribed := false, subscriptionEndsAt := None)
  }

  /** The user record with a subscription running until `ends`. */
  function Subscribed(u: User, ends: Instant): (c: User)
    ensures c.id == u.id && c.email == u.email
    ensures c.isSubscribed && c.subscriptionEndsAt == Some(ends)
  {
    u.(isSubscribed := true, subscriptionEndsAt := Some(ends))
  }

  /**
   * POST for caller `caller`. `monthLater` is the instant one calendar month
   * after the request, which the handler computes with `setMonth(+1)`.
   */
  function SelfGrant(db: Db, caller: Option<UserId>, monthLater: Instant): (o: Outcome<Granted>)
    ensures !Present(caller) ==> o == Outcome(Refused(UNAUTHORIZED, "Unauthorized"), db)
    ensures Present(caller) && caller.value !in db.users ==> o == Outcome(Refused(UNAUTHORIZED, "User not found"), db)
    ensures Present(caller) && caller.value in db.users ==>
              && o.reply == Done(OK, Granted("Subscription Added Successfully", Some(monthLater)))
              && o.db.todos == db.todos
              && o.db.users.Keys == db.users.Keys
              && o.db.users[caller.value] == Subscribed(db.users[caller.value], monthLater)
              && (forall id :: id in db.users && id != caller.value ==> o.db.users[id] == db.users[id])
  {
    if !Present(caller) then Outcome(Refused(UNAUTHORIZED, "Unauthorized"), db)
    else if caller.value !in db.users then Outcome(Refused(UNAUTHORIZED, "User not found"), db)
    else
      var updated := Subscribed(db.users[caller.value], monthLater);
      Outcome(Done(OK, Granted("Subscription Added Successfully", updated.subscriptionEndsAt)),
              db.(users := db.users[caller.value := updated]))
  }

  /** GET for caller `caller` at time `now`. */
  function ReadStatus(db: Db, caller: Option<UserId>, now: Instant): (o: Outcome<SubscriptionStatus>)
    ensures !Present(caller) ==> o == Outcome(Refused(UNAUTHORIZED, "Unauthorized"), db)
    ensures Present(caller) && caller.value !in db.users ==> o == Outcome(Refused(UNAUTHORIZED, "User not found"), db)
    ensures Present(caller) && caller.value in db.users ==>
              var u := db.users[caller.value];
              && o.reply.Done? && o.reply.status == OK
              && (if Expired(u, now)
                  then o.reply.value == SubscriptionStatus(false, None)
                       && o.db == db.(users := db.users[caller.value := Cleared(u)])
                  else o.reply.value == SubscriptionStatus(u.isSubscribed, u.subscriptionEndsAt)
                       && o.db == db)
  {
    if !Present(caller) then Outcome(Refused(UNAUTHORIZED, "Unauthorized"), db)
    else if caller.value !in db.users then Outcome(Refused(UNAUTHORIZED, "User not found"), db)
    else
      var u := db.users[caller.value];
      if Expired(u, now) then
        Outcome(Done(OK, SubscriptionStatus(false, None)), db.(users := db.users[caller.value := Cleared(u)]))
      else
        Outcome(Done(OK, SubscriptionStatus(u.isSubscribed, u.subscriptionEndsAt)), db)
  }

  /** After a successful GET the stored record says exactly what GET reported: the correction is persisted. */
  lemma ReadStatusPersistsWhatItReports(db: Db, caller: Option<UserId>, now: Instant)
    requires ReadStatus(db, caller, now).reply.Done?
    ensures var o := ReadStatus(db, caller, now);
            && caller.value in o.db.users
            && o.db.users[caller.value].isSubscribed == o.reply.value.isSubscribed
            && o.db.users[caller.value].subscriptionEndsAt == o.reply.value.subscriptionEndsAt
            && PhaseOf(o.db.users[caller.value], now) != PendingCleanup
  {
  }

  /** A second GET at the same instant answers the same and changes nothing more. */
  lemma ReadStatusIdempotent(db: Db, caller: Option<UserId>, now: Instant)
    ensures var o := ReadStatus(db, caller, now);
            ReadStatus(o.db, caller, now) == o
  {
  }

  /**
   * Once GET has reported no end date, every later GET, whatever its time,
   * gives the same answer and leaves the store as it is.
   */
  lemma ReadStatusStableOnceCleared(db: Db, caller: Option<UserId>, now: Instant, later: Instant)
    requires ReadStatus(db, caller, now).reply.Done?
    requires ReadStatus(db, caller, now).reply.value.subscriptionEndsAt == None
    ensures var o := ReadStatus(db, caller, now);
            ReadStatus(o.db, caller, later) == o
  {
  }

  /**
   * GET moves a subscription that is pending cleanup to unsubscribed and
   * leaves a subscription in any other phase where it is.
   */
  lemma ReadStatusReapsOnlyPending(db: Db, uid: UserId, now: Instant)
    requires uid != "" && uid in db.users
    ensures var after := ReadStatus(db, Some(uid), now).db.users[uid];
            PhaseOf(after, now) == (if PhaseOf(db.users[uid], now) == PendingCleanup then Unsubscribed
                                    else PhaseOf(db.users[uid], now))
  {
  }

  /** POST then GET at the same instant reports an active subscription that ends a month later. */
  lemma GrantThenRead(db: Db, caller: Option<UserId>, now: Instant, monthLater: Instant)
    requires now < monthLater
    requires Present(caller) && caller.value in db.users
    ensures var granted := SelfGrant(db, caller, monthLater).db;
            ReadStatus(granted, caller, now).reply == Done(OK, SubscriptionStatus(true, Some(monthLater)))
  {
  }

  lemma SelfGrantPreservesInv(db: Db, caller: Option<UserId>, monthLater: Instant)
    requires Inv(db)
    ensures Inv(SelfGrant(db, caller, monthLater).db)
  {
  }

  lemma ReadStatusPreservesInv(db: Db, caller: Option<UserId>, now: Instant)
    requires Inv(db)
    ensures Inv(ReadStatus(db, caller, now).db)
  {
  }
}
