/** `POST /subscriptions` (src/routes/subscriptions.rs): validate the form,
    insert a `pending_confirmation` subscription and its confirmation token
    in one transaction, commit, then email the confirmation link.

    Database and email-client failures, the random token source and the
    freshly drawn UUID arrive as a `SubscribeIo` record. */
module Subscriptions {
  import opened Wrappers
  import opened Http
  import opened Store
  import opened SubscriberTokens
  import SubscriberEmails
  import EmailClient

  datatype FormData = FormData(email: string, name: string)

  datatype NewSubscriber = NewSubscriber(email: SubscriberEmails.SubscriberEmail, name: string)

  /** `TryFrom<FormData> for NewSubscriber`: the name is parsed first, so its
      error wins when both fields are bad. `SubscriberName::parse` is not
      part of this model and arrives as `parseName`. */
  function ToNewSubscriber(form: FormData, parseName: string -> Result<string, string>,
                           validEmail: string -> bool): (r: Result<NewSubscriber, string>)
    ensures r.Success? <==> parseName(form.name).Success? && validEmail(form.email)
    ensures parseName(form.name).Failure? ==> r == Failure(parseName(form.name).error)
    ensures parseName(form.name).Success? && !validEmail(form.email)
         ==> r == Failure(form.email + " is not a valid subscriber email")
    ensures r.Success? ==> r.value.email.AsRef() == form.email && r.value.name == parseName(form.name).value
  {
    match parseName(form.name)
    case Failure(e) => Failure(e)
    case Success(name) =>
      match SubscriberEmails.Parse(form.email, validEmail)
      case Failure(e) => Failure(e)
      case Success(email) => Success(NewSubscriber(email, name))
  }

  datatype SubscribeError = ValidationError(message: string) | UnexpectedError(context: string)

  /** `ResponseError::status_code` for `SubscribeError`. */
  function StatusOf(e: SubscribeError): (s: StatusCode)
    ensures e.ValidationError? <==> IsClientError(s)
    ensures e.UnexpectedError? <==> IsServerError(s)
    ensures e.ValidationError? ==> s == BAD_REQUEST
    ensures e.UnexpectedError? ==> s == INTERNAL_SERVER_ERROR
  {
    match e
    case ValidationError(_) => BAD_REQUEST
    case UnexpectedError(_) => INTERNAL_SERVER_ERROR
  }

  /** The outcome of every step that leaves the process. */
  datatype SubscribeIo = SubscribeIo(
    beginOk: bool,                        // pool.begin()
    subscriberId: Uuid,                   // Uuid::new_v4()
    insertOk: bool,                       // INSERT INTO subscriptions
    draw: nat -> AlphanumericIndex,       // thread_rng()
    storeTokenOk: bool,                   // INSERT INTO subscription_tokens
    commitOk: bool,                       // transaction.commit()
    sendOk: bool)                         // email_client.send_email

  function ConfirmationLink(baseUrl: string, token: string): string {
    baseUrl + "/subscriptions/confirm?subscription_token=" + token
  }

  const PLAIN_INTRO: string := "Welcome to our newsletter!\nVisit "
  const PLAIN_OUTRO: string := " to confirm your subscription."
  const HTML_INTRO: string := "Welcome to our newsletter!<br />Click "
  const HTML_OUTRO: string := "here</a> to confirm your subscription."

  /** The opening tag of the HTML body's link to `link`. */
  function Anchor(link: string): string {
    ANCHOR_OPEN + link + ANCHOR_CLOSE
  }

  const ANCHOR_OPEN: string := "<a href=\""
  const ANCHOR_CLOSE: string := "\">"

  /** `send_confirmation_email`: the message the client is asked to send. */
  function ConfirmationEmail(subscriber: NewSubscriber, baseUrl: string, token: string): (m: EmailClient.Message)
    ensures m.recipient == subscriber.email.AsRef()
    ensures m.subject == "Welcome!"
    ensures EmailClient.Contains(m.htmlBody, ConfirmationLink(baseUrl, token))
    ensures EmailClient.Contains(m.textBody, ConfirmationLink(baseUrl, token))
    ensures EmailClient.Contains(m.htmlBody, Anchor(ConfirmationLink(baseUrl, token)))
  {
    var link := ConfirmationLink(baseUrl, token);
    LinkInBodies(link);
    EmailClient.Message(subscriber.email.AsRef(), "Welcome!", HtmlBody(link), PlainBody(link))
  }

  function PlainBody(link: string): string {
    PLAIN_INTRO + link + PLAIN_OUTRO
  }

  function HtmlBody(link: string): string {
    HTML_INTRO + Anchor(link) + HTML_OUTRO
  }

  /** Both bodies carry the link; the HTML one carries it inside an anchor. */
  lemma LinkInBodies(link: string)
    ensures EmailClient.Contains(PlainBody(link), link)
    ensures EmailClient.Contains(HtmlBody(link), Anchor(link))
    ensures EmailClient.Contains(HtmlBody(link), link)
  {
    EmailClient.ContainsInMiddle(PLAIN_INTRO, link, PLAIN_OUTRO);
    EmailClient.ContainsInMiddle(HTML_INTRO, Anchor(link), HTML_OUTRO);
    assert HtmlBody(link) == (HTML_INTRO + ANCHOR_OPEN) + link + (ANCHOR_CLOSE + HTML_OUTRO);
    EmailClient.ContainsInMiddle(HTML_INTRO + ANCHOR_OPEN, link, ANCHOR_CLOSE + HTML_OUTRO);
  }

  /** The result of the handler, the database afterwards and the
      confirmation email handed to the client, if one was. */
  datatype SubscribeOutcome = SubscribeOutcome(result: Result<(), SubscribeError>, db: Db,
                                               sent: Option<EmailClient.Message>)
  {
    function Response(): Response {
      match result
      case Success(_) => Finish(OK)
      case Failure(e) => Finish(StatusOf(e))
    }
  }

  /** The committed effect of one subscription: a new `pending_confirmation`
      row with id `id`, and the token `token` pointing at it; nothing else. */
  predicate Inserted(db: Db, db': Db, id: Uuid, email: string, name: string, token: string) {
    && id !in SubscriptionIds(db.subscriptions)
    && token !in db.tokens
    && db' == db.(subscriptions := db.subscriptions + [Subscription(id, email, name, PendingConfirmation)],
                  tokens := db.tokens[token := id])
  }

  /** The form is valid, every database step succeeds, and the drawn id and
      token are not in use: the transaction commits. */
  predicate Commits(form: FormData, db: Db, io: SubscribeIo,
                    parseName: string -> Result<string, string>, validEmail: string -> bool)
  {
    && ToNewSubscriber(form, parseName, validEmail).Success?
    && io.beginOk && io.insertOk && io.storeTokenOk && io.commitOk
    && io.subscriberId !in SubscriptionIds(db.subscriptions)
    && GenerateSubscriptionToken(io.draw) !in db.tokens
  }

  /** The context each unexpected error carries. */
  const POOL_ERROR: string := "Failed to acquire a Postgres connection from the pool"
  const INSERT_ERROR: string := "Failed to insert new subscriber in the database."
  const STORE_TOKEN_ERROR: string := "Failed to store the confirmation token for a new subscriber."
  const SEND_ERROR: string := "Failed to send a confirmation email."

  /** The part of `subscribe` after the form parsed: the transaction that
      inserts the subscriber and its token, the commit, then the send. Every
      failure here is an unexpected error. */
  function StoreAndSend(subscriber: NewSubscriber, db: Db, baseUrl: string, io: SubscribeIo): (o: SubscribeOutcome)
    ensures o.sent.None? ==> o.db == db && o.result.Failure?
    ensures o.sent.Some? <==> && io.beginOk && io.insertOk && io.storeTokenOk && io.commitOk
                              && io.subscriberId !in SubscriptionIds(db.subscriptions)
                              && GenerateSubscriptionToken(io.draw) !in db.tokens
    ensures o.sent.Some? ==>
              && o.sent.value == ConfirmationEmail(subscriber, baseUrl, GenerateSubscriptionToken(io.draw))
              && Inserted(db, o.db, io.subscriberId, subscriber.email.AsRef(), subscriber.name,
                          GenerateSubscriptionToken(io.draw))
    ensures o.result.Success? <==> o.sent.Some? && io.sendOk
    ensures o.result.Failure? ==> o.result.error.UnexpectedError?
    ensures !io.beginOk ==> o.result == Failure(UnexpectedError(POOL_ERROR))
    ensures io.beginOk && (!io.insertOk || io.subscriberId in SubscriptionIds(db.subscriptions))
         ==> o.result == Failure(UnexpectedError(INSERT_ERROR))
    ensures io.beginOk && io.insertOk && io.subscriberId !in SubscriptionIds(db.subscriptions)
            && (!io.storeTokenOk || GenerateSubscriptionToken(io.draw) in db.tokens || !io.commitOk)
         ==> o.result == Failure(UnexpectedError(STORE_TOKEN_ERROR))
    ensures o.sent.Some? && !io.sendOk ==> o.result == Failure(UnexpectedError(SEND_ERROR))
  {
    if !io.beginOk then
      SubscribeOutcome(Failure(UnexpectedError(POOL_ERROR)), db, None)
    else if !io.insertOk || io.subscriberId in SubscriptionIds(db.subscriptions) then
      SubscribeOutcome(Failure(UnexpectedError(INSERT_ERROR)), db, None)
    else
      var token := GenerateSubscriptionToken(io.draw);
      if !io.storeTokenOk || token in db.tokens || !io.commitOk then
        SubscribeOutcome(Failure(UnexpectedError(STORE_TOKEN_ERROR)), db, None)
      else
        var db' := db.(subscriptions := db.subscriptions + [Subscription(io.subscriberId, subscriber.email.AsRef(),
                                                                        subscriber.name, PendingConfirmation)],
                       tokens := db.tokens[token := io.subscriberId]);
        var message := ConfirmationEmail(subscriber, baseUrl, token);
        if !io.sendOk then
          SubscribeOutcome(Failure(UnexpectedError(SEND_ERROR)), db', Some(message))
        else
          SubscribeOutcome(Success(()), db', Some(message))
  }

  /** `subscribe`. Inserting a row whose primary key is already taken fails
      like any other database error. */
  function Subscribe(form: FormData, db: Db, baseUrl: string, io: SubscribeIo,
                     parseName: string -> Result<string, string>, validEmail: string -> bool): (o: SubscribeOutcome)
    ensures ToNewSubscriber(form, parseName, validEmail).Failure?
         ==> o.Response().status == BAD_REQUEST && o.db == db && o.sent.None?
             && o.result == Failure(ValidationError(ToNewSubscriber(form, parseName, validEmail).error))
    ensures o.sent.None? ==> o.db == db && o.result.Failure?
    ensures o.sent.Some? <==> Commits(form, db, io, parseName, validEmail)
    ensures o.sent.Some? ==>
              && o.sent.value == ConfirmationEmail(ToNewSubscriber(form, parseName, validEmail).value, baseUrl,
                                                   GenerateSubscriptionToken(io.draw))
              && Inserted(db, o.db, io.subscriberId, form.email, parseName(form.name).value,
                          GenerateSubscriptionToken(io.draw))
              && o.sent.value.recipient == form.email
              && EmailClient.Contains(o.sent.value.textBody,
                                           ConfirmationLink(baseUrl, GenerateSubscriptionToken(io.draw)))
    ensures o.result.Success? <==> o.sent.Some? && io.sendOk
    ensures ToNewSubscriber(form, parseName, validEmail).Success? && o.result.Failure?
         ==> o.result.error.UnexpectedError? && o.Response().status == INTERNAL_SERVER_ERROR
    ensures o.Response().status in {OK, BAD_REQUEST, INTERNAL_SERVER_ERROR}
  {
    match ToNewSubscriber(form, parseName, validEmail)
    case Failure(e) => SubscribeOutcome(Failure(ValidationError(e)), db, None)
    case Success(subscriber) => StoreAndSend(subscriber, db, baseUrl, io)
  }

  /** Subscribing keeps the schema's integrity. */
  lemma SubscribePreservesWf(form: FormData, db: Db, baseUrl: string, io: SubscribeIo,
                             parseName: string -> Result<string, string>, validEmail: string -> bool)
    requires Wf(db)
    ensures Wf(Subscribe(form, db, baseUrl, io, parseName, validEmail).db)
  {
  }

  /** A failed send happens after commit: the response is 500 but the new
      rows stay. */
  lemma SendFailureKeepsRows(form: FormData, db: Db, baseUrl: string, io: SubscribeIo,
                             parseName: string -> Result<string, string>, validEmail: string -> bool)
    requires Commits(form, db, io, parseName, validEmail) && !io.sendOk
    ensures var o := Subscribe(form, db, baseUrl, io, parseName, validEmail);
            && o.Response().status == INTERNAL_SERVER_ERROR
            && |o.db.subscriptions| == |db.subscriptions| + 1
            && o.db.tokens[GenerateSubscriptionToken(io.draw)] == io.subscriberId
  {
  }

  /** A valid form with every step succeeding answers 200, stores the new
      subscriber as pending confirmation under the drawn id, and emails the
      link that carries the stored token. */
  lemma ValidSubscriptionSucceeds(form: FormData, db: Db, baseUrl: string, io: SubscribeIo,
                                  parseName: string -> Result<string, string>, validEmail: string -> bool)
    requires Commits(form, db, io, parseName, validEmail) && io.sendOk
    ensures var o := Subscribe(form, db, baseUrl, io, parseName, validEmail);
            var token := GenerateSubscriptionToken(io.draw);
            && o.Response().status == OK
            && o.db.subscriptions[|db.subscriptions|]
               == Subscription(io.subscriberId, form.email, parseName(form.name).value, PendingConfirmation)
            && o.db.tokens[token] == io.subscriberId
            && o.sent.Some? && o.sent.value.recipient == form.email
            && EmailClient.Contains(o.sent.value.htmlBody, ConfirmationLink(baseUrl, token))
  {
  }
}
