/** The direct-send newsletter endpoint (src/routes/newsletter.rs): fetch
    the confirmed subscribers, then send the issue to each one whose stored
    address is valid, one after the other, stopping at the first failure. */
module LegacyNewsletter {
  import opened Wrappers
  import opened Http
  import opened Store
  import SubscriberEmails
  import EmailClient

  datatype Content = Content(html: string, text: string)

  datatype BodyData = BodyData(title: string, content: Content)

  datatype ConfirmedSubscriber = ConfirmedSubscriber(email: SubscriberEmails.SubscriberEmail)

  /** One element of `retrieve_confirmed_subscribers`' vector: the stored
      address parsed, or the reason it did not parse. */
  function ToConfirmedSubscriber(email: string, validEmail: string -> bool): (r: Result<ConfirmedSubscriber, string>)
    ensures r.Success? <==> validEmail(email)
    ensures r.Success? ==> r.value.email.AsRef() == email
  {
    match SubscriberEmails.Parse(email, validEmail)
    case Success(e) => Success(ConfirmedSubscriber(e))
    case Failure(error) => Failure(error)
  }

  /** `retrieve_confirmed_subscribers` on a query that succeeds: one entry per
      confirmed subscription, in scan order. */
  function RetrieveConfirmedSubscribers(subs: seq<Subscription>, validEmail: string -> bool)
    : (r: seq<Result<ConfirmedSubscriber, string>>)
    ensures |r| == |ConfirmedEmails(subs)|
    ensures forall i :: 0 <= i < |r| ==> r[i] == ToConfirmedSubscriber(ConfirmedEmails(subs)[i], validEmail)
  {
    var emails := ConfirmedEmails(subs);
    seq(|emails|, i requires 0 <= i < |emails| => ToConfirmedSubscriber(emails[i], validEmail))
  }

  /** The message sent to one subscriber: title, HTML, then text. */
  function NewsletterMessage(body: BodyData, s: ConfirmedSubscriber): EmailClient.Message {
    EmailClient.Message(s.email.AsRef(), body.title, body.content.html, body.content.text)
  }

  /** The sends a fully successful run makes: one per valid entry, in order;
      invalid entries contribute nothing. */
  function Deliveries(body: BodyData, entries: seq<Result<ConfirmedSubscriber, string>>)
    : (r: seq<EmailClient.Message>)
    ensures |r| <= |entries|
    ensures forall m :: m in r ==> m.subject == body.title && m.htmlBody == body.content.html
                                    && m.textBody == body.content.text
  {
    if |entries| == 0 then []
    else
      var rest := Deliveries(body, entries[1..]);
      match entries[0]
      case Success(s) => [NewsletterMessage(body, s)] + rest
      case Failure(_) => rest
  }

  /** Who is sent to: every send goes to a valid entry's address, and every
      valid entry is sent to. */
  lemma {:induction false} DeliveriesRecipients(body: BodyData, entries: seq<Result<ConfirmedSubscriber, string>>)
    ensures forall m :: m in Deliveries(body, entries) ==>
              exists s :: Success(s) in entries
                          && m == EmailClient.Message(s.email.AsRef(), body.title, body.content.html, body.content.text)
    ensures forall s :: Success(s) in entries ==>
              EmailClient.Message(s.email.AsRef(), body.title, body.content.html, body.content.text)
                in Deliveries(body, entries)
  {
    if |entries| > 0 {
      DeliveriesRecipients(body, entries[1..]);
      assert entries == [entries[0]] + entries[1..];
    }
  }

  lemma {:induction false} DeliveriesAppend(body: BodyData, a: seq<Result<ConfirmedSubscriber, string>>,
                                            b: seq<Result<ConfirmedSubscriber, string>>)
    ensures Deliveries(body, a + b) == Deliveries(body, a) + Deliveries(body, b)
  {
    if |a| == 0 {
      assert a + b == b;
    } else {
      assert (a + b)[0] == a[0];
      assert (a + b)[1..] == a[1..] + b;
      DeliveriesAppend(body, a[1..], b);
    }
  }

  /** The sends for the first `n` entries are a prefix of the sends for all
      of them. */
  lemma DeliveriesPrefix(body: BodyData, entries: seq<Result<ConfirmedSubscriber, string>>, n: nat)
    requires n <= |entries|
    ensures var d := Deliveries(body, entries[..n]);
            var all := Deliveries(body, entries);
            |d| <= |all| && d == all[..|d|]
  {
    assert entries == entries[..n] + entries[n..];
    DeliveriesAppend(body, entries[..n], entries[n..]);
  }

  lemma DeliveriesStep(body: BodyData, entries: seq<Result<ConfirmedSubscriber, string>>, i: nat)
    requires i < |entries|
    ensures Deliveries(body, entries[..i + 1])
         == Deliveries(body, entries[..i]) + Deliveries(body, [entries[i]])
  {
    assert entries[..i + 1] == entries[..i] + [entries[i]];
    DeliveriesAppend(body, entries[..i], [entries[i]]);
  }

  /** Number of confirmed subscriptions whose stored address is valid. */
  function CountDeliverable(subs: seq<Subscription>, validEmail: string -> bool): nat
  {
    if |subs| == 0 then 0
    else (if subs[0].status == Confirmed && validEmail(subs[0].email) then 1 else 0)
         + CountDeliverable(subs[1..], validEmail)
  }

  lemma {:induction false} DeliveriesCount(body: BodyData, subs: seq<Subscription>, validEmail: string -> bool)
    ensures |Deliveries(body, RetrieveConfirmedSubscribers(subs, validEmail))| == CountDeliverable(subs, validEmail)
  {
    if |subs| > 0 {
      DeliveriesCount(body, subs[1..], validEmail);
      var entries := RetrieveConfirmedSubscribers(subs, validEmail);
      var rest := RetrieveConfirmedSubscribers(subs[1..], validEmail);
      if subs[0].status == Confirmed {
        assert entries == [ToConfirmedSubscriber(subs[0].email, validEmail)] + rest;
        DeliveriesAppend(body, [ToConfirmedSubscriber(subs[0].email, validEmail)], rest);
      } else {
        assert entries == rest;
      }
    }
  }

  /** The send loop of `publish_newsletter` over the retrieved entries:
      invalid entries are skipped, and the first failing send ends the
      request with 500. `sendOk(k)` is the outcome of the k-th send. */
  method SendAll(body: BodyData, entries: seq<Result<ConfirmedSubscriber, string>>, sendOk: nat -> bool)
    returns (status: StatusCode, sent: seq<EmailClient.Message>)
    ensures var all := Deliveries(body, entries);
            && |sent| <= |all| && sent == all[..|sent|]
            && (forall k :: 0 <= k < |sent| - 1 ==> sendOk(k))
            && (status == OK <==> sent == all && forall k :: 0 <= k < |sent| ==> sendOk(k))
            && (status != OK ==> status == INTERNAL_SERVER_ERROR && |sent| > 0 && !sendOk(|sent| - 1))
  {
    sent := [];
    var i := 0;
    while i < |entries|
      invariant 0 <= i <= |entries|
      invariant sent == Deliveries(body, entries[..i])
      invariant forall k :: 0 <= k < |sent| ==> sendOk(k)
    {
      DeliveriesStep(body, entries, i);
      match entries[i] {
        case Success(subscriber) =>
          sent := sent + [NewsletterMessage(body, subscriber)];
          if !sendOk(|sent| - 1) {
            DeliveriesPrefix(body, entries, i + 1);
            return INTERNAL_SERVER_ERROR, sent;
          }
        case Failure(_) =>
          // Skipped with a warning: the stored address is invalid.
      }
      i := i + 1;
    }
    assert entries[..i] == entries;
    status := OK;
  }

  /** `publish_newsletter`. `queryOk` is the outcome of the subscriber query
      and `sendOk(k)` the outcome of the `k`-th send. Returns the status and
      every send attempted, the failed one included. */
  method PublishNewsletter(body: BodyData, db: Db, queryOk: bool, validEmail: string -> bool,
                           sendOk: nat -> bool)
    returns (status: StatusCode, sent: seq<EmailClient.Message>)
    ensures !queryOk ==> status == INTERNAL_SERVER_ERROR && sent == []
    ensures queryOk ==>
              var all := Deliveries(body, RetrieveConfirmedSubscribers(db.subscriptions, validEmail));
              && |sent| <= |all| && sent == all[..|sent|]
              && (forall k :: 0 <= k < |sent| - 1 ==> sendOk(k))
              && (status == OK <==> sent == all && forall k :: 0 <= k < |sent| ==> sendOk(k))
              && (status != OK ==> status == INTERNAL_SERVER_ERROR && |sent| > 0 && !sendOk(|sent| - 1))
  {
    if !queryOk {
      return INTERNAL_SERVER_ERROR, [];
    }
    status, sent := SendAll(body, RetrieveConfirmedSubscribers(db.subscriptions, validEmail), sendOk);
  }
}
