/** The database the handlers read and write, as one immutable value.

    Tables whose scan order matters (subscriptions, users) are sequences of
    rows; keyed tables are maps; the delivery queue is a multiset of rows.
    Every transition function elsewhere returns a new `Db`. */
module Store {
  import opened Wrappers
  import Http

  /** A 128-bit UUID. */
  newtype Uuid = x: int | 0 <= x < 0x1_0000_0000_0000_0000_0000_0000_0000_0000

  /** The two values the code ever writes into `subscriptions.status`. */
  datatype Status = PendingConfirmation | Confirmed

  datatype Subscription = Subscription(id: Uuid, email: string, name: string, status: Status)

  datatype User = User(id: Uuid, username: string, passwordHash: string)

  datatype Issue = Issue(title: string, textContent: string, htmlContent: string)

  /** One row of `issue_delivery_queue`. */
  datatype DeliveryTask = DeliveryTask(issueId: Uuid, subscriberEmail: string)

  type IdempotencyKey = string

  datatype Db = Db(
    subscriptions: seq<Subscription>,
    tokens: map<string, Uuid>,                                 // subscription_token -> subscriber_id
    users: seq<User>,
    issues: map<Uuid, Issue>,                                  // newsletter_issue_id -> issue
    queue: multiset<DeliveryTask>,
    idempotency: map<(Uuid, IdempotencyKey), Http.Response>)   // (user_id, key) -> saved response

  function SubscriptionIds(subs: seq<Subscription>): set<Uuid> {
    set s | s in subs :: s.id
  }

  /** `subscriptions.id` is a primary key. */
  predicate UniqueIds(subs: seq<Subscription>) {
    forall i, j :: 0 <= i < j < |subs| ==> subs[i].id != subs[j].id
  }

  /** The integrity the schema keeps: subscription ids are unique, every
      token points at a subscription and every queued task at an issue. */
  predicate Wf(db: Db) {
    && UniqueIds(db.subscriptions)
    && (forall t :: t in db.tokens ==> db.tokens[t] in SubscriptionIds(db.subscriptions))
    && (forall task :: task in db.queue ==> task.issueId in db.issues)
  }

  /** `SELECT email FROM subscriptions WHERE status = 'confirmed'`, in scan order. */
  function ConfirmedEmails(subs: seq<Subscription>): (emails: seq<string>)
    ensures |emails| <= |subs|
    ensures forall s :: s in subs && s.status == Confirmed ==> s.email in emails
    ensures forall e :: e in emails ==> exists s :: s in subs && s.status == Confirmed && s.email == e
    ensures forall e :: multiset(emails)[e] == CountConfirmedWith(subs, e)
  {
    if |subs| == 0 then []
    else
      var rest := ConfirmedEmails(subs[1..]);
      assert forall s :: s in subs[1..] ==> s in subs;
      if subs[0].status == Confirmed then [subs[0].email] + rest else rest
  }

  /** Number of confirmed rows whose address is `e`: the query returns one
      row per such subscription, even when addresses repeat. */
  function CountConfirmedWith(subs: seq<Subscription>, e: string): nat
  {
    if |subs| == 0 then 0
    else (if subs[0].status == Confirmed && subs[0].email == e then 1 else 0) + CountConfirmedWith(subs[1..], e)
  }

  /** Number of rows whose status is confirmed. */
  function CountConfirmed(subs: seq<Subscription>): nat
  {
    if |subs| == 0 then 0
    else (if subs[0].status == Confirmed then 1 else 0) + CountConfirmed(subs[1..])
  }

  lemma {:induction false} ConfirmedEmailsCount(subs: seq<Subscription>)
    ensures |ConfirmedEmails(subs)| == CountConfirmed(subs)
  {
    if |subs| > 0 {
      ConfirmedEmailsCount(subs[1..]);
    }
  }

  /** `UPDATE subscriptions SET status = 'confirmed' WHERE id = $1`. */
  function ConfirmRows(subs: seq<Subscription>, id: Uuid): (subs': seq<Subscription>)
    ensures |subs'| == |subs|
    ensures forall i :: 0 <= i < |subs| ==> subs'[i].id == subs[i].id
    ensures forall i :: 0 <= i < |subs| && subs[i].id == id ==> subs'[i] == subs[i].(status := Confirmed)
    ensures forall i :: 0 <= i < |subs| && subs[i].id != id ==> subs'[i] == subs[i]
  {
    seq(|subs|, i requires 0 <= i < |subs| =>
      if subs[i].id == id then subs[i].(status := Confirmed) else subs[i])
  }

  /** Changing only statuses keeps the set of ids, so integrity is kept. */
  lemma ConfirmRowsKeepsIds(subs: seq<Subscription>, id: Uuid)
    ensures SubscriptionIds(ConfirmRows(subs, id)) == SubscriptionIds(subs)
    ensures UniqueIds(subs) ==> UniqueIds(ConfirmRows(subs, id))
  {
  }

  /** Confirming the same id twice leaves the table as confirming it once. */
  lemma ConfirmRowsIdempotent(subs: seq<Subscription>, id: Uuid)
    ensures ConfirmRows(ConfirmRows(subs, id), id) == ConfirmRows(subs, id)
  {
  }

  /** `SELECT password_hash FROM users WHERE user_id = $1` (first match). */
  function PasswordHashOf(users: seq<User>, id: Uuid): (r: Option<string>)
    ensures r.None? <==> forall u :: u in users ==> u.id != id
    ensures r.Some? ==> exists u :: u in users && u.id == id && u.passwordHash == r.value
  {
    if |users| == 0 then None
    else if users[0].id == id then Some(users[0].passwordHash)
    else
      var r := PasswordHashOf(users[1..], id);
      assert forall u :: u in users[1..] ==> u in users;
      r
  }

  /** `SELECT user_id, password_hash FROM users WHERE username = $1` (first match). */
  function CredentialsOf(users: seq<User>, username: string): (r: Option<(Uuid, string)>)
    ensures r.None? <==> forall u :: u in users ==> u.username != username
    ensures r.Some? ==> User(r.value.0, username, r.value.1) in users
  {
    if |users| == 0 then None
    else if users[0].username == username then Some((users[0].id, users[0].passwordHash))
    else
      var r := CredentialsOf(users[1..], username);
      assert forall u :: u in users[1..] ==> u in users;
      r
  }
}
