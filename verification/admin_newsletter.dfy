/** `POST /admin/newsletter` (src/routes/admin/newsletter/post.rs): publish
    an issue behind an idempotency key. A key already answered replays the
    saved response; a new key runs, in one transaction, the issue insert,
    the fan-out into the delivery queue and the saving of the response.

    The idempotency store is the map `Db.idempotency` from (user id, key) to
    the saved response, used one request at a time. Store and query
    failures and the fresh issue id arrive as a `PublishIo` record. */
module IssueNewsletter {
  import opened Wrappers
  import opened Http
  import opened Store

  datatype FormData = FormData(title: string, contentHtml: string, contentText: string, idempotencyKey: string)

  /** What `try_processing` tells the handler to do next. */
  datatype NextAction = StartProcessing | ReturnSavedResponse(saved: Response)

  type IdempotencyStore = map<(Uuid, IdempotencyKey), Response>

  /** `try_processing`, one request at a time: a saved response for the
      (user, key) pair is handed back, otherwise processing starts. */
  function TryProcessing(store: IdempotencyStore, key: IdempotencyKey, userId: Uuid): (a: NextAction)
    ensures a.ReturnSavedResponse? <==> (userId, key) in store
    ensures a.ReturnSavedResponse? ==> a.saved == store[(userId, key)]
  {
    if (userId, key) in store then ReturnSavedResponse(store[(userId, key)]) else StartProcessing
  }

  /** `save_response`: after it, the pair replays exactly `response`, and no
      other pair's entry changes. */
  function SaveResponse(store: IdempotencyStore, key: IdempotencyKey, userId: Uuid, response: Response)
    : (store': IdempotencyStore)
    ensures TryProcessing(store', key, userId) == ReturnSavedResponse(response)
    ensures store'.Keys == store.Keys + {(userId, key)}
    ensures forall k :: k in store && k != (userId, key) ==> store'[k] == store[k]
  {
    store[(userId, key) := response]
  }

  /** The queue rows of one issue for the given addresses, in order. */
  function Tasks(issueId: Uuid, emails: seq<string>): (tasks: seq<DeliveryTask>)
    ensures |tasks| == |emails|
    ensures forall i :: 0 <= i < |emails| ==> tasks[i] == DeliveryTask(issueId, emails[i])
  {
    if |emails| == 0 then []
    else [DeliveryTask(issueId, emails[0])] + Tasks(issueId, emails[1..])
  }

  /** Each address contributes one row per occurrence, for this issue only. */
  lemma {:induction false} TasksMultiplicity(issueId: Uuid, emails: seq<string>, t: DeliveryTask)
    ensures multiset(Tasks(issueId, emails))[t]
            == if t.issueId == issueId then multiset(emails)[t.subscriberEmail] else 0
  {
    if |emails| > 0 {
      var e := emails[0];
      TasksMultiplicity(issueId, emails[1..], t);
      assert Tasks(issueId, emails) == [DeliveryTask(issueId, e)] + Tasks(issueId, emails[1..]);
      ConsCount(DeliveryTask(issueId, e), Tasks(issueId, emails[1..]), t);
      assert emails == [e] + emails[1..];
      ConsCount(e, emails[1..], t.subscriberEmail);
    }
  }

  /** One more element at the front adds one to its own count only. */
  lemma ConsCount<T>(x: T, s: seq<T>, y: T)
    ensures multiset([x] + s)[y] == (if x == y then 1 else 0) + multiset(s)[y]
  {
  }

  /** The rows one issue's fan-out adds to the queue. */
  function FanOut(subs: seq<Subscription>, issueId: Uuid): multiset<DeliveryTask> {
    multiset(Tasks(issueId, ConfirmedEmails(subs)))
  }

  /** The fan-out holds one row per confirmed subscription, for this issue,
      and nothing else. */
  lemma FanOutRows(subs: seq<Subscription>, issueId: Uuid)
    ensures |FanOut(subs, issueId)| == CountConfirmed(subs)
    ensures forall s :: s in subs && s.status == Confirmed ==> DeliveryTask(issueId, s.email) in FanOut(subs, issueId)
    ensures forall t :: t in FanOut(subs, issueId) ==>
              t.issueId == issueId && exists s :: s in subs && s.status == Confirmed && s.email == t.subscriberEmail
    ensures forall t :: FanOut(subs, issueId)[t]
                        == if t.issueId == issueId then CountConfirmedWith(subs, t.subscriberEmail) else 0
  {
    var emails := ConfirmedEmails(subs);
    var added := Tasks(issueId, emails);
    ConfirmedEmailsCount(subs);
    forall s | s in subs && s.status == Confirmed ensures DeliveryTask(issueId, s.email) in multiset(added) {
      var i :| 0 <= i < |emails| && emails[i] == s.email;
      assert added[i] == DeliveryTask(issueId, s.email);
    }
    forall t | t in multiset(added)
      ensures t.issueId == issueId && exists s :: s in subs && s.status == Confirmed && s.email == t.subscriberEmail
    {
      var i :| 0 <= i < |added| && added[i] == t;
      assert emails[i] in emails;
    }
    forall t ensures multiset(added)[t]
                     == if t.issueId == issueId then CountConfirmedWith(subs, t.subscriberEmail) else 0 {
      TasksMultiplicity(issueId, emails, t);
    }
  }

  /** `enqueue_delivery_tasks`: `INSERT ... SELECT $1, email FROM
      subscriptions WHERE status = 'confirmed'`. */
  function EnqueueDeliveryTasks(queue: multiset<DeliveryTask>, subs: seq<Subscription>, issueId: Uuid)
    : (queue': multiset<DeliveryTask>)
    ensures queue <= queue'
    ensures |queue'| == |queue| + CountConfirmed(subs)
    ensures forall s :: s in subs && s.status == Confirmed ==> DeliveryTask(issueId, s.email) in queue'
    ensures forall t :: t in queue' - queue ==>
              t.issueId == issueId && exists s :: s in subs && s.status == Confirmed && s.email == t.subscriberEmail
    ensures forall t :: (queue' - queue)[t]
                        == if t.issueId == issueId then CountConfirmedWith(subs, t.subscriberEmail) else 0
  {
    var added := FanOut(subs, issueId);
    FanOutRows(subs, issueId);
    AppendedPart(queue, added);
    queue + added
  }

  /** Adding rows to a queue keeps the old rows, and the rows beyond the old
      queue are exactly the added ones. */
  lemma AppendedPart(queue: multiset<DeliveryTask>, added: multiset<DeliveryTask>)
    ensures queue <= queue + added
    ensures queue + added - queue == added
    ensures |queue + added| == |queue| + |added|
  {
  }

  /** The flash queued on both the replay and the fresh path. */
  const Accepted: Flash := InfoFlash("The newsletter issue has been accepted - emails will go out shortly.")

  const NEWSLETTER_PATH: string := "/admin/newsletter"

  datatype PublishIo = PublishIo(
    tryOk: bool,        // try_processing reached the store
    issueId: Uuid,      // Uuid::new_v4()
    insertOk: bool,     // INSERT INTO newsletter_issues
    enqueueOk: bool,    // INSERT INTO issue_delivery_queue
    saveOk: bool)       // save_response, including the commit

  datatype PublishOutcome = PublishOutcome(reply: Reply, db: Db)

  /** `insert_newsletter_issue` under an id not yet in use. */
  predicate IssueInserted(db: Db, db': Db, form: FormData, issueId: Uuid) {
    && issueId !in db.issues
    && db'.issues == db.issues[issueId := Issue(form.title, form.contentText, form.contentHtml)]
  }

  /** The committed effect of a first-time publish: one new issue under a
      fresh id, its fan-out, and the saved response; nothing else. */
  predicate Published(db: Db, db': Db, form: FormData, userId: Uuid, issueId: Uuid, response: Response) {
    && IssueInserted(db, db', form, issueId)
    && db'.queue == EnqueueDeliveryTasks(db.queue, db.subscriptions, issueId)
    && db'.idempotency == SaveResponse(db.idempotency, form.idempotencyKey, userId, response)
    && db'.subscriptions == db.subscriptions && db'.tokens == db.tokens && db'.users == db.users
  }

  /** `issue_newsletter`. Whether the submitted key is a valid
      `IdempotencyKey` is decided by code that is not part of this model and
      arrives as `validKey`. Every failure after processing started drops
      the transaction, so the database comes back unchanged. */
  function IssueNewsletter(form: FormData, userId: Uuid, db: Db, io: PublishIo, validKey: string -> bool)
    : (o: PublishOutcome)
    ensures !validKey(form.idempotencyKey) ==> o == PublishOutcome(Reply(E400(), []), db)
    ensures validKey(form.idempotencyKey) && io.tryOk && (userId, form.idempotencyKey) in db.idempotency
         ==> o == PublishOutcome(Reply(db.idempotency[(userId, form.idempotencyKey)], [Accepted]), db)
    ensures o.db == db || Published(db, o.db, form, userId, io.issueId, o.reply.response)
    ensures o.db != db ==> IsRedirectTo(o.reply.response, NEWSLETTER_PATH)
                           && o.reply.flashes == [MustLogIn, Accepted]
    ensures IsServerError(o.reply.response.status) ==> o.db == db
    ensures validKey(form.idempotencyKey) && !io.tryOk ==> o.reply == Reply(E500(), []) && o.db == db
    ensures validKey(form.idempotencyKey) && io.tryOk && (userId, form.idempotencyKey) !in db.idempotency
            && !(io.insertOk && io.issueId !in db.issues && io.enqueueOk && io.saveOk)
         ==> o.reply.response == E500() && o.db == db
    ensures validKey(form.idempotencyKey) && io.tryOk && (userId, form.idempotencyKey) !in db.idempotency
            && io.insertOk && io.issueId !in db.issues && io.enqueueOk && !io.saveOk
         ==> o.reply == Reply(E500(), [MustLogIn])
    ensures o.db != db <==> FirstSubmission(form, userId, db, io, validKey)
  {
    if !validKey(form.idempotencyKey) then PublishOutcome(Reply(E400(), []), db)
    else if !io.tryOk then PublishOutcome(Reply(E500(), []), db)
    else
      match TryProcessing(db.idempotency, form.idempotencyKey, userId)
      case ReturnSavedResponse(saved) => PublishOutcome(Reply(saved, [Accepted]), db)
      case StartProcessing =>
        if !io.insertOk || io.issueId in db.issues then PublishOutcome(Reply(E500(), []), db)
        else if !io.enqueueOk then PublishOutcome(Reply(E500(), []), db)
        else
          var redirect := SeeOther(NEWSLETTER_PATH);
          if !io.saveOk then PublishOutcome(Reply(E500(), redirect.flashes), db)
          else
            var db' := db.(issues := db.issues[io.issueId := Issue(form.title, form.contentText, form.contentHtml)],
                           queue := EnqueueDeliveryTasks(db.queue, db.subscriptions, io.issueId),
                           idempotency := SaveResponse(db.idempotency, form.idempotencyKey, userId, redirect.response));
            assert (userId, form.idempotencyKey) in db'.idempotency;
            assert db' != db;
            PublishOutcome(Reply(redirect.response, redirect.flashes + [Accepted]), db')
  }

  /** The key is valid and unused by this user, the drawn issue id is free,
      and every database step succeeds. */
  predicate FirstSubmission(form: FormData, userId: Uuid, db: Db, io: PublishIo, validKey: string -> bool)
  {
    && validKey(form.idempotencyKey)
    && (userId, form.idempotencyKey) !in db.idempotency
    && io.tryOk && io.insertOk && io.enqueueOk && io.saveOk
    && io.issueId !in db.issues
  }

  /** A first-time publish with every step succeeding takes effect. */
  lemma FreshPublishTakesEffect(form: FormData, userId: Uuid, db: Db, io: PublishIo, validKey: string -> bool)
    requires FirstSubmission(form, userId, db, io, validKey)
    ensures var o := IssueNewsletter(form, userId, db, io, validKey);
            && Published(db, o.db, form, userId, io.issueId, o.reply.response)
            && |o.db.queue| == |db.queue| + CountConfirmed(db.subscriptions)
            && o.db.idempotency[(userId, form.idempotencyKey)] == o.reply.response
  {
  }

  /** Submitting again with the same key, whatever the form's other fields
      and whatever fresh id would be drawn, replays the first response and
      writes nothing: no second issue, no second fan-out. */
  lemma ResubmitReplays(form: FormData, form2: FormData, userId: Uuid, db: Db, io: PublishIo, io2: PublishIo,
                        validKey: string -> bool)
    requires FirstSubmission(form, userId, db, io, validKey)
    requires form2.idempotencyKey == form.idempotencyKey
    requires io2.tryOk
    ensures var o1 := IssueNewsletter(form, userId, db, io, validKey);
            var o2 := IssueNewsletter(form2, userId, o1.db, io2, validKey);
            && o1.db != db
            && o2.db == o1.db
            && o2.reply.response == o1.reply.response
            && o2.reply.flashes == [Accepted]
  {
    var o1 := IssueNewsletter(form, userId, db, io, validKey);
    assert o1.db.idempotency[(userId, form.idempotencyKey)] == o1.reply.response;
  }

  /** Once a key has a saved response, no later request with it changes the
      database, so any number of resubmissions leave the queue as it is. */
  lemma CompletedKeyIsStable(form: FormData, userId: Uuid, db: Db, io: PublishIo, validKey: string -> bool)
    requires (userId, form.idempotencyKey) in db.idempotency
    ensures IssueNewsletter(form, userId, db, io, validKey).db == db
  {
  }

  /** A failed attempt leaves no saved response behind, so a retry with the
      same key starts processing again instead of replaying the failure. */
  lemma FailureLeavesKeyFree(form: FormData, userId: Uuid, db: Db, io: PublishIo, validKey: string -> bool)
    requires (userId, form.idempotencyKey) !in db.idempotency
    requires IsServerError(IssueNewsletter(form, userId, db, io, validKey).reply.response.status)
    ensures TryProcessing(IssueNewsletter(form, userId, db, io, validKey).db.idempotency,
                          form.idempotencyKey, userId) == StartProcessing
  {
  }

  /** A publish that took effect added exactly its own issue id. */
  lemma PublishedAddsOneIssue(db: Db, db': Db, form: FormData, issueId: Uuid)
    requires IssueInserted(db, db', form, issueId)
    ensures issueId !in db.issues && issueId in db'.issues
    ensures db'.issues.Keys == db.issues.Keys + {issueId}
    ensures |db'.issues| == |db.issues| + 1
  {
    assert db'.issues.Keys == db.issues.Keys + {issueId};
  }

  /** Two committed publishes in a row (the second can only commit under a
      key not answered yet), even with the same content, each create their
      own issue. */
  lemma TwoInsertsAddTwoIssues(db: Db, db1: Db, db2: Db, form: FormData, form2: FormData,
                                 issueId: Uuid, issueId2: Uuid)
    requires IssueInserted(db, db1, form, issueId)
    requires IssueInserted(db1, db2, form2, issueId2)
    ensures issueId != issueId2
    ensures db2.issues.Keys == db.issues.Keys + {issueId, issueId2}
    ensures |db2.issues| == |db.issues| + 2
  {
    PublishedAddsOneIssue(db, db1, form, issueId);
    PublishedAddsOneIssue(db1, db2, form2, issueId2);
  }

  /** A first publish leaves a second key and a second issue id as fresh as
      they were. */
  lemma FirstSubmissionStaysFirst(form: FormData, form2: FormData, userId: Uuid, db: Db, io: PublishIo,
                                  io2: PublishIo, validKey: string -> bool)
    requires FirstSubmission(form, userId, db, io, validKey)
    requires FirstSubmission(form2, userId, db, io2, validKey)
    requires form2.idempotencyKey != form.idempotencyKey && io2.issueId != io.issueId
    ensures var o1 := IssueNewsletter(form, userId, db, io, validKey);
            && o1.db.issues.Keys == db.issues.Keys + {io.issueId}
            && FirstSubmission(form2, userId, o1.db, io2, validKey)
  {
    var o1 := IssueNewsletter(form, userId, db, io, validKey);
    FreshPublishTakesEffect(form, userId, db, io, validKey);
    PublishedAddsOneIssue(db, o1.db, form, io.issueId);
  }

  lemma IssueNewsletterPreservesWf(form: FormData, userId: Uuid, db: Db, io: PublishIo, validKey: string -> bool)
    requires Wf(db)
    ensures Wf(IssueNewsletter(form, userId, db, io, validKey).db)
  {
  }
}
