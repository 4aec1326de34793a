/**
 * The `/api/webhook/register` route: an identity-provider event, signed
 * with the svix scheme, that inserts a local user on `user.created`.
 */
module WebhookRoute {
  import opened Wrappers
  import opened Records

  /** The three signature headers; each may be absent. */
  datatype SvixHeaders = SvixHeaders(svixId: Option<string>, svixTimestamp: Option<string>, svixSignature: Option<string>)

  datatype EmailAddress = EmailAddress(id: string, emailAddress: string)

  /** The part of the event's `data` the handler reads. */
  datatype EventData = EventData(id: UserId, emailAddresses: seq<EmailAddress>, primaryEmailAddressId: Option<string>)

  datatype WebhookEvent = WebhookEvent(eventType: string, data: EventData)

  /**
   * The signature check `new Webhook(secret).verify(body, headers)`: the
   * verified event, or None where the library throws. Its cryptography is
   * not part of this model, so it is a parameter of the handler.
   */
  type Verifier = (string, string, SvixHeaders) -> Option<WebhookEvent>

  predicate HeadersPresent(h: SvixHeaders) {
    Present(h.svixId) && Present(h.svixTimestamp) && Present(h.svixSignature)
  }

  /** `email_addresses.find(e => e.id === primary_email_address_id)`. */
  function FindPrimary(addresses: seq<EmailAddress>, primaryId: Option<string>): (r: Option<EmailAddress>)
    ensures r.Some? <==> exists i :: 0 <= i < |addresses| && Some(addresses[i].id) == primaryId
    ensures r.Some? ==> exists i :: 0 <= i < |addresses| && addresses[i] == r.value && Some(r.value.id) == primaryId
                                    && forall j :: 0 <= j < i ==> Some(addresses[j].id) != primaryId
  {
    if addresses == [] then None
    else if Some(addresses[0].id) == primaryId then Some(addresses[0])
    else
      var rest := FindPrimary(addresses[1..], primaryId);
      assert forall i :: 0 < i < |addresses| ==> addresses[i] == addresses[1..][i - 1];
      rest
  }

  const CreatedType := "user.created"

  /**
   * POST: `secret` is the configured WEBHOOK_SECRET, `body` the re-serialised
   * JSON payload.
   */
  function Receive(db: Db, secret: Option<string>, headers: SvixHeaders, body: string, verify: Verifier)
    : (o: Outcome<string>)
    ensures o.reply.status == OK || o.reply.status == BAD_REQUEST || o.reply.status == INTERNAL_ERROR
    ensures !Present(secret) ==> o == Outcome(Refused(INTERNAL_ERROR, "Webhook secret not set"), db)
    ensures Present(secret) && !HeadersPresent(headers) ==> o == Outcome(Refused(BAD_REQUEST, "Missing required headers"), db)
    ensures Present(secret) && HeadersPresent(headers) && verify(secret.value, body, headers).None? ==>
              o == Outcome(Refused(BAD_REQUEST, "Invalid signature"), db)
    ensures o.db.todos == db.todos
    ensures o.db != db ==>
              && o.reply == Done(OK, "Webhook received")
              && Present(secret) && HeadersPresent(headers)
              && var evt := verify(secret.value, body, headers).value;
              && evt.eventType == CreatedType
              && var primary := FindPrimary(evt.data.emailAddresses, evt.data.primaryEmailAddressId);
              && primary.Some?
              && evt.data.id !in db.users
              && !EmailInUse(db.users, primary.value.emailAddress)
              && o.db.users == db.users[evt.data.id := User(evt.data.id, primary.value.emailAddress, false, None)]
  {
    if !Present(secret) then Outcome(Refused(INTERNAL_ERROR, "Webhook secret not set"), db)
    else if !HeadersPresent(headers) then Outcome(Refused(BAD_REQUEST, "Missing required headers"), db)
    else
      match verify(secret.value, body, headers)
      case None => Outcome(Refused(BAD_REQUEST, "Invalid signature"), db)
      case Some(evt) =>
        if evt.eventType != CreatedType then Outcome(Done(OK, "Webhook received"), db)
        else
          match FindPrimary(evt.data.emailAddresses, evt.data.primaryEmailAddressId)
          case None => Outcome(Refused(BAD_REQUEST, "Primary email not found"), db)
          case Some(primary) =>
            var user := User(evt.data.id, primary.emailAddress, false, None);
            if user.id in db.users || EmailInUse(db.users, user.email) then
              // the insert violates the id or the email unique constraint
              Outcome(Refused(INTERNAL_ERROR, "Error creating user"), db)
            else
              Outcome(Done(OK, "Webhook received"), db.(users := db.users[user.id := user]))
  }

  /** A verified `user.created` event with a primary email and an unused id and email inserts exactly that user. */
  lemma ReceiveCreatesUser(db: Db, secret: Option<string>, headers: SvixHeaders, body: string, verify: Verifier)
    requires Present(secret) && HeadersPresent(headers)
    requires verify(secret.value, body, headers).Some?
    requires var evt := verify(secret.value, body, headers).value;
             var primary := FindPrimary(evt.data.emailAddresses, evt.data.primaryEmailAddressId);
             && evt.eventType == CreatedType && primary.Some?
             && evt.data.id !in db.users && !EmailInUse(db.users, primary.value.emailAddress)
    ensures var evt := verify(secret.value, body, headers).value;
            var o := Receive(db, secret, headers, body, verify);
            && o.reply == Done(OK, "Webhook received")
            && o.db.users.Keys == db.users.Keys + {evt.data.id}
            && o.db.users[evt.data.id].email == FindPrimary(evt.data.emailAddresses, evt.data.primaryEmailAddressId).value.emailAddress
            && !o.db.users[evt.data.id].isSubscribed
            && (forall id :: id in db.users ==> o.db.users[id] == db.users[id])
  {
  }

  /** A verified event of any other type is acknowledged with 200 and changes nothing. */
  lemma ReceiveIgnoresOtherEvents(db: Db, secret: Option<string>, headers: SvixHeaders, body: string, verify: Verifier)
    requires Present(secret) && HeadersPresent(headers)
    requires verify(secret.value, body, headers).Some? && verify(secret.value, body, headers).value.eventType != CreatedType
    ensures Receive(db, secret, headers, body, verify) == Outcome(Done(OK, "Webhook received"), db)
  {
  }

  /** A `user.created` event whose primary id names none of its addresses is refused with 400 and inserts nothing. */
  lemma ReceiveNeedsPrimaryEmail(db: Db, secret: Option<string>, headers: SvixHeaders, body: string, verify: Verifier)
    requires Present(secret) && HeadersPresent(headers)
    requires verify(secret.value, body, headers).Some?
    requires var evt := verify(secret.value, body, headers).value;
             evt.eventType == CreatedType
             && forall i :: 0 <= i < |evt.data.emailAddresses| ==> Some(evt.data.emailAddresses[i].id) != evt.data.primaryEmailAddressId
    ensures Receive(db, secret, headers, body, verify) == Outcome(Refused(BAD_REQUEST, "Primary email not found"), db)
  {
  }

  /** An insert that would repeat an existing id or email fails with 500 and leaves the store as it was. */
  lemma ReceiveInsertConflict(db: Db, secret: Option<string>, headers: SvixHeaders, body: string, verify: Verifier)
    requires Present(secret) && HeadersPresent(headers)
    requires verify(secret.value, body, headers).Some?
    requires var evt := verify(secret.value, body, headers).value;
             var primary := FindPrimary(evt.data.emailAddresses, evt.data.primaryEmailAddressId);
             && evt.eventType == CreatedType && primary.Some?
             && (evt.data.id in db.users || EmailInUse(db.users, primary.value.emailAddress))
    ensures Receive(db, secret, headers, body, verify) == Outcome(Refused(INTERNAL_ERROR, "Error creating user"), db)
  {
  }

  /** Delivering the same creation event twice: the second delivery fails on the unique id and changes nothing. */
  lemma ReceiveDuplicateDelivery(db: Db, secret: Option<string>, headers: SvixHeaders, body: string, verify: Verifier)
    requires Receive(db, secret, headers, body, verify).db != db
    ensures var first := Receive(db, secret, headers, body, verify);
            Receive(first.db, secret, headers, body, verify) == Outcome(Refused(INTERNAL_ERROR, "Error creating user"), first.db)
  {
  }

  lemma ReceivePreservesInv(db: Db, secret: Option<string>, headers: SvixHeaders, body: string, verify: Verifier)
    requires Inv(db)
    ensures Inv(Receive(db, secret, headers, body, verify).db)
  {
    var o := Receive(db, secret, headers, body, verify);
    if o.db != db {
      var evt := verify(secret.value, body, headers).value;
      var primary := FindPrimary(evt.data.emailAddresses, evt.data.primaryEmailAddressId).value;
      assert !EmailInUse(db.users, primary.emailAddress);
    }
  }
}
