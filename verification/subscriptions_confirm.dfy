/** `GET /subscriptions/confirm` (src/routes/subscriptions_confirm.rs): parse
    the token, look up the subscriber it was issued to, mark that
    subscription `confirmed`. Each query runs on its own and either fails
    or takes effect; their outcomes arrive as a `ConfirmIo` record. */
module Confirmation {
  import opened Wrappers
  import opened Http
  import opened Store
  import opened SubscriberTokens
  import Subscriptions
  import SubscriberEmails

  datatype ConfirmIo = ConfirmIo(lookupOk: bool, updateOk: bool)

  /** `get_subscriber_id_from_token` on a query that succeeds. */
  function SubscriberIdFromToken(db: Db, token: SubscriberToken): (r: Option<Uuid>)
    ensures r.Some? <==> token.AsRef() in db.tokens
    ensures r.Some? ==> r.value == db.tokens[token.AsRef()]
  {
    if token.AsRef() in db.tokens then Some(db.tokens[token.AsRef()]) else None
  }

  datatype ConfirmOutcome = ConfirmOutcome(response: Response, db: Db)

  /** `confirm`. */
  function Confirm(subscriptionToken: string, db: Db, io: ConfirmIo): (o: ConfirmOutcome)
    ensures ParseToken(subscriptionToken).Failure? ==> o == ConfirmOutcome(Finish(BAD_REQUEST), db)
    ensures ParseToken(subscriptionToken).Success? && io.lookupOk && subscriptionToken !in db.tokens
         ==> o == ConfirmOutcome(Finish(UNAUTHORIZED), db)
    ensures o.response.status == OK
        <==> ValidateToken(subscriptionToken) && io.lookupOk && io.updateOk && subscriptionToken in db.tokens
    ensures o.response.status == OK
         ==> o.db == db.(subscriptions := ConfirmRows(db.subscriptions, db.tokens[subscriptionToken]))
    ensures o.response.status != OK ==> o.db == db
    ensures ParseToken(subscriptionToken).Success?
            && (!io.lookupOk || (subscriptionToken in db.tokens && !io.updateOk))
         ==> o == ConfirmOutcome(Finish(INTERNAL_SERVER_ERROR), db)
    ensures o.response.status in {OK, BAD_REQUEST, UNAUTHORIZED, INTERNAL_SERVER_ERROR}
  {
    match ParseToken(subscriptionToken)
    case Failure(_) => ConfirmOutcome(Finish(BAD_REQUEST), db)
    case Success(token) =>
      if !io.lookupOk then ConfirmOutcome(Finish(INTERNAL_SERVER_ERROR), db)
      else
        match SubscriberIdFromToken(db, token)
        case None => ConfirmOutcome(Finish(UNAUTHORIZED), db)
        case Some(subscriberId) =>
          if !io.updateOk then ConfirmOutcome(Finish(INTERNAL_SERVER_ERROR), db)
          else ConfirmOutcome(Finish(OK), db.(subscriptions := ConfirmRows(db.subscriptions, subscriberId)))
  }

  /** Confirmation touches only the rows with the token's subscriber id and
      only their status; tokens, users, issues and queue are untouched. */
  lemma ConfirmChangesOnlyItsRow(subscriptionToken: string, db: Db, io: ConfirmIo)
    ensures var db' := Confirm(subscriptionToken, db, io).db;
            && |db'.subscriptions| == |db.subscriptions|
            && db'.tokens == db.tokens && db'.users == db.users && db'.issues == db.issues
            && db'.queue == db.queue && db'.idempotency == db.idempotency
            && (forall i :: 0 <= i < |db.subscriptions| ==>
                  db'.subscriptions[i] == db.subscriptions[i]
                  || (subscriptionToken in db.tokens && db.subscriptions[i].id == db.tokens[subscriptionToken]
                      && db'.subscriptions[i] == db.subscriptions[i].(status := Confirmed)))
  {
  }

  /** Confirming with the same token a second time changes nothing more. */
  lemma ConfirmIdempotent(subscriptionToken: string, db: Db, io: ConfirmIo)
    ensures var db1 := Confirm(subscriptionToken, db, io).db;
            Confirm(subscriptionToken, db1, io).db == db1
  {
    if subscriptionToken in db.tokens {
      ConfirmRowsIdempotent(db.subscriptions, db.tokens[subscriptionToken]);
    }
  }

  lemma ConfirmPreservesWf(subscriptionToken: string, db: Db, io: ConfirmIo)
    requires Wf(db)
    ensures Wf(Confirm(subscriptionToken, db, io).db)
  {
  }

  /** Round trip across the two handlers: the link a successful subscription
      emails carries a token that `confirm` accepts, and following it marks
      exactly the new subscription confirmed with a 200. This holds whether
      or not the email itself went out, since the rows were committed first. */
  lemma SubscribeThenConfirm(form: Subscriptions.FormData, db: Db, baseUrl: string, io: Subscriptions.SubscribeIo,
                             parseName: string -> Result<string, string>, validEmail: string -> bool)
    requires Subscriptions.Subscribe(form, db, baseUrl, io, parseName, validEmail).sent.Some?
    ensures var db1 := Subscriptions.Subscribe(form, db, baseUrl, io, parseName, validEmail).db;
            var token := GenerateSubscriptionToken(io.draw);
            var o := Confirm(token, db1, ConfirmIo(true, true));
            && o.response.status == OK
            && o.db.subscriptions == db.subscriptions
                 + [Subscription(io.subscriberId, form.email, parseName(form.name).value, Confirmed)]
  {
  }
}
