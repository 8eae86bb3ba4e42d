# zero2prod newsletter service — a Dafny model of its request handlers

This project models the request handlers of a Rust (actix-web + Postgres)
newsletter service: subscribing and confirming a subscription, sending an
issue directly to every confirmed subscriber, publishing an issue behind an
idempotency key into a delivery queue, changing the admin password, and
the validators and response helpers those handlers share.

Every handler is a pure function (one is a method with a loop) from its
inputs and a database value `Store.Db` to a response and the database
afterwards. The tables are `subscriptions` and `users` (sequences of rows,
because scan order shows in the send loop and in look-ups), the
`subscription_tokens` and `newsletter_issues` maps, the
`issue_delivery_queue` multiset, and the idempotency store: a map from
(user id, key) to the saved response. A transaction is all or nothing. On
any failure before commit the handler returns the database it was given.

What lies outside the program is passed in as a parameter:

- email validity (`validEmail`), `SubscriberName::parse` (`parseName`) and `IdempotencyKey` conversion (`validKey`);
- Argon2 verification and PHC parsing (`verify`) and hashing (`hash`);
- the random token source (`draw`), fresh UUIDs and salts;
- the outcome of each query, commit and email send (the `...Io` records).

Modules: `Wrappers` (Option/Result), `Http` (src/utils.rs), `AdminPasswords`
(src/domain/admin_password.rs), `SubscriberTokens` and `Confirmation`
(src/routes/subscriptions_confirm.rs, plus the token generator of
src/routes/subscriptions.rs), `SubscriberEmails` (src/domain/subscriber_email.rs),
`Store` (the tables and the queries several handlers share), `Subscriptions`
(src/routes/subscriptions.rs), `LegacyNewsletter` (src/routes/newsletter.rs),
`IssueNewsletter` (src/routes/admin/newsletter/post.rs), `Authentication`
(src/authentication/password.rs), `ChangePassword`
(src/routes/admin/password/post.rs), and `EmailClient`, the arguments of a
`send_email` call (src/email_client.rs is not part of this model).

## Model

| member | source | states |
|---|---|---|
| Http.SeeOther | src/utils.rs:20-25 | a 303 whose Location is exactly the given path, and the "You must be logged in" error flash queued on every such redirect |
| Http.E400 | src/utils.rs:13-18 | a 400 client error with no Location |
| Http.E500 | src/utils.rs:6-11 | a 500 server error with no Location |
| AdminPasswords.Parse | src/domain/admin_password.rs:9-22 | accepted iff 12 to 128 grapheme clusters and not all whitespace; an accepted password wraps the input text unchanged and `AsRef` returns it |
| AdminPasswords.ParseErrorOrder | src/domain/admin_password.rs:11-18 | "too long" iff more than 128 clusters; "too short" iff fewer than 12; the blank error only when both length checks pass |
| AdminPasswords.TwentySpacesAreBlank | src/domain/admin_password.rs:69-72 | twenty spaces pass the length checks and fail as empty/whitespace |
| AdminPasswords.OneSpaceIsTooShort | src/domain/admin_password.rs:93-96 | a single space is blank but is reported too short, because length is checked first |
| AdminPasswords.LengthBoundaries | src/domain/admin_password.rs:62-90 | empty and 11 rejected, 12 and 128 accepted, 129 rejected as too long |
| SubscriberTokens.Utf8LenVsLength | src/routes/subscriptions_confirm.rs:21-23 | the byte length `len()` is at least the character count, with equality exactly for ASCII strings |
| SubscriberTokens.ValidateToken | src/routes/subscriptions_confirm.rs:21-23 | `validate_token`, which checks the UTF-8 byte length and ASCII-ness, holds iff the token is 25 ASCII characters |
| SubscriberTokens.ParseToken | src/routes/subscriptions_confirm.rs:12-18 | parse succeeds iff the token is 25 ASCII characters, wraps exactly the input, and otherwise reports "<token> is not a valid subscriber token" |
| SubscriberTokens.Alphanumeric | src/routes/subscriptions.rs:34 | every sampled character is an ASCII letter or digit |
| SubscriberTokens.GenerateSubscriptionToken | src/routes/subscriptions.rs:32-38 | a generated token has 25 characters, each an ASCII letter or digit |
| SubscriberTokens.GeneratedTokenIsValid | src/routes/subscriptions.rs:32-38 | every token the generator can produce passes `validate_token` and parses to itself |
| SubscriberEmails.Parse | src/domain/subscriber_email.rs:4-10 | accepted iff the address is valid; the value is the input; the error is "<email> is not a valid subscriber email" |
| Store.ConfirmedEmails | src/routes/newsletter.rs:68-77 | one email per confirmed subscription: an address occurs exactly as often as confirmed rows carry it, so every confirmed subscription's email is returned and every returned email belongs to a confirmed subscription |
| Store.ConfirmRows | src/routes/subscriptions_confirm.rs:61-74 | rows with the given id become confirmed; all other rows, and all ids, are unchanged |
| Store.ConfirmRowsKeepsIds | src/routes/subscriptions_confirm.rs:63 | the status update keeps the set of ids, so it keeps them unique |
| Store.ConfirmRowsIdempotent | src/routes/subscriptions_confirm.rs:63 | running the status update twice for the same id leaves the rows as running it once |
| Store.PasswordHashOf | src/authentication/password.rs:102-120 | None iff no user has the id; otherwise the hash of a user with that id |
| Store.CredentialsOf | src/authentication/password.rs:123-140 | None iff no user has the username; otherwise the id and hash of a user row with that username |
| Subscriptions.ToNewSubscriber | src/routes/subscriptions.rs:21-30 | succeeds iff both name and email parse; the name's error wins; the email and parsed name are kept |
| Subscriptions.StoreAndSend | src/routes/subscriptions.rs:58-81 | after the form parsed: the email is sent iff begin, insert, token store and commit succeed with a free id and token, and then exactly the subscriber row and its token row are committed; every failure is an UnexpectedError carrying the context of the step that failed (pool, insert, token store or commit, send), and nothing is stored unless the email was sent |
| Subscriptions.StatusOf | src/routes/subscriptions.rs:175-182 | ValidationError is exactly 400 and UnexpectedError exactly 500, so the first is a client error and the second a server error |
| Subscriptions.ConfirmationEmail | src/routes/subscriptions.rs:137-159 | sent to the subscriber with subject "Welcome!"; both bodies contain base_url + "/subscriptions/confirm?subscription_token=" + token, and the HTML body contains it as the anchor `<a href="link">` |
| Subscriptions.LinkInBodies | src/routes/subscriptions.rs:145-155 | the plain body contains the link; the HTML body contains the link and the anchor around it |
| Subscriptions.Subscribe | src/routes/subscriptions.rs:48-82 | invalid form: 400 with the parse error's message, nothing stored or sent. For a valid form every failure is an UnexpectedError answered with 500. The confirmation email (the recipient, "Welcome!" and the link with the drawn token) is sent iff the form is valid, every database step succeeds and the drawn id and token are free; only then is exactly one pending subscription with that id and one token row pointing at it committed. The result is Ok iff that send succeeds |
| Subscriptions.SubscribePreservesWf | src/routes/subscriptions.rs:63-75 | ids stay unique and every token points at a subscription |
| Subscriptions.SendFailureKeepsRows | src/routes/subscriptions.rs:72-79 | a failed confirmation send gives 500 and leaves the committed rows in place |
| Subscriptions.ValidSubscriptionSucceeds | src/routes/subscriptions.rs:48-82 | a valid form with every step succeeding answers 200, stores the new subscriber as pending confirmation and emails a link carrying the stored token |
| Confirmation.SubscriberIdFromToken | src/routes/subscriptions_confirm.rs:77-93 | the subscriber id is found iff the token is stored, and is the one stored with it |
| Confirmation.Confirm | src/routes/subscriptions_confirm.rs:37-57 | malformed token: 400, unchanged. Unknown token: 401, unchanged. A failed lookup, or a failed update for a known token: 500, unchanged. 200 iff the token is well-formed and known and both queries succeed, and then that subscriber is confirmed. Every other outcome leaves the database unchanged |
| Confirmation.ConfirmChangesOnlyItsRow | src/routes/subscriptions_confirm.rs:61-74 | only the status of rows with the token's subscriber id changes; every other table is untouched |
| Confirmation.ConfirmIdempotent | src/routes/subscriptions_confirm.rs:63 | confirming twice with the same token leaves the same database as once |
| Confirmation.ConfirmPreservesWf | src/routes/subscriptions_confirm.rs:51-56 | confirmation keeps the schema's integrity |
| Confirmation.SubscribeThenConfirm | src/routes/subscriptions_confirm.rs:37-57 | following the emailed link after a committed subscription gives 200 and marks exactly the new row confirmed |
| LegacyNewsletter.ToConfirmedSubscriber | src/routes/newsletter.rs:78-81 | an entry is Ok iff its stored email is valid, and carries that email |
| LegacyNewsletter.RetrieveConfirmedSubscribers | src/routes/newsletter.rs:60-85 | one entry per row the confirmed-subscriptions query returns, each the parse of that row's email |
| LegacyNewsletter.Deliveries | src/routes/newsletter.rs:32-40 | every send carries the body's title, HTML and text, in that order |
| LegacyNewsletter.DeliveriesRecipients | src/routes/newsletter.rs:29-40 | every send goes to the address of an Ok entry with the body's title, HTML and text, and every Ok entry's address is sent to |
| LegacyNewsletter.DeliveriesAppend | src/routes/newsletter.rs:29-55 | the sends for two runs of entries are the sends of the first followed by those of the second |
| LegacyNewsletter.DeliveriesPrefix | src/routes/newsletter.rs:29-55 | the sends for the first n entries are a prefix of the sends for all of them |
| LegacyNewsletter.DeliveriesCount | src/routes/newsletter.rs:29-56 | the number of sends of a full run equals the number of confirmed subscriptions with a valid email |
| LegacyNewsletter.SendAll | src/routes/newsletter.rs:29-56 | the sends are a prefix of the reference sends for the entries, invalid entries are skipped, the first failing send stops the loop with 500, and the result is 200 iff every message was sent |
| LegacyNewsletter.PublishNewsletter | src/routes/newsletter.rs:23-57 | query failure: 500 and no send. Otherwise the sends are a prefix of the valid entries' messages, invalid entries are skipped, and the first failing send stops the loop with 500. The result is 200 iff every message was sent |
| IssueNewsletter.TryProcessing | src/routes/admin/newsletter/post.rs:42-51 | replay iff a response is saved for (user, key), and then exactly that response |
| IssueNewsletter.TasksMultiplicity | src/routes/admin/newsletter/post.rs:112-114 | the rows built from a list of emails hold, for this issue, each email as often as the list does, and no row for another issue |
| IssueNewsletter.FanOutRows | src/routes/admin/newsletter/post.rs:106-119 | the fan-out holds one row per confirmed subscription: its size is the confirmed count, each confirmed email is present, and each email occurs once per confirmed row carrying it |
| IssueNewsletter.SaveResponse | src/routes/admin/newsletter/post.rs:63-66 | afterwards the pair replays exactly the saved response; no other pair changes |
| IssueNewsletter.EnqueueDeliveryTasks | src/routes/admin/newsletter/post.rs:102-121 | the queue gains, for this issue, each email exactly as many times as confirmed subscriptions carry it, and nothing else; nothing is removed |
| IssueNewsletter.IssueNewsletter | src/routes/admin/newsletter/post.rs:28-70 | invalid key: 400, unchanged. Saved key: the saved response with the "accepted" flash, unchanged. A failing try, insert, enqueue or save answers 500 and leaves the database unchanged; a failing save still carries the "You must be logged in" flash that see_other sent. The database changes iff the key is valid and new, the issue id free and every step succeeds, and then by exactly one issue, its fan-out and the saved 303 to /admin/newsletter |
| IssueNewsletter.FreshPublishTakesEffect | src/routes/admin/newsletter/post.rs:53-69 | a first-time key with all steps succeeding adds the issue, one queue row per confirmed subscriber, and saves the returned response |
| IssueNewsletter.ResubmitReplays | src/routes/admin/newsletter/post.rs:42-50 | after a first-time publish commits, resubmitting the same key with any content returns the first response and writes nothing |
| IssueNewsletter.CompletedKeyIsStable | src/routes/admin/newsletter/post.rs:42-50 | no request with an already-answered key changes the database |
| IssueNewsletter.FailureLeavesKeyFree | src/routes/admin/newsletter/post.rs:53-66 | after a failed attempt the key is not saved, so a retry starts processing again |
| IssueNewsletter.PublishedAddsOneIssue | src/routes/admin/newsletter/post.rs:79-97 | the issue insert of a publish adds exactly one issue, under an id that was not in use |
| IssueNewsletter.TwoInsertsAddTwoIssues | src/routes/admin/newsletter/post.rs:79-97 | two committed issue inserts in a row used two distinct ids and together added exactly those two issues |
| IssueNewsletter.FirstSubmissionStaysFirst | src/routes/admin/newsletter/post.rs:42-69 | after a first publish, a second submission under a different key and a different fresh id is still a first-time submission, and exactly one issue was added |
| IssueNewsletter.IssueNewsletterPreservesWf | src/routes/admin/newsletter/post.rs:53-66 | every queued row still refers to an existing issue |
| Authentication.VerifyPasswordHash | src/authentication/password.rs:18-32 | Ok iff the candidate matches; a non-PHC hash is UnexpectedError, a mismatch InvalidCredentials |
| Authentication.ValidateCredentials | src/authentication/password.rs:35-67 | a lookup failure is UnexpectedError with no verification; otherwise exactly one verification, against the stored hash or the fallback hash, and a failed verification returns verify_password_hash's own error (UnexpectedError for a non-PHC hash, InvalidCredentials for a mismatch); an unknown user is never authenticated, and when the fallback hash matches gets "Unknown username."; Ok carries the stored id of a user whose hash matched |
| Authentication.SetPasswordHash | src/authentication/password.rs:86-93 | rows with the id get the hash of the new password; other rows are unchanged |
| Authentication.UpdatePassword | src/authentication/password.rs:70-99 | fails iff the update query fails; otherwise the table after the update |
| Authentication.SetPasswordHashLookup | src/authentication/password.rs:86-96 | after the update the id's stored hash is the new hash (or still absent), and any other id's stored hash is as before |
| Authentication.UpdatedPasswordVerifies | src/authentication/password.rs:70-99 | when the new hash verifies against the new password, after an update the stored hash of the id does so; any other user's hash is unchanged |
| ChangePassword.StatusCodeOf | src/routes/admin/password/post.rs:99-104 | BadRequest is exactly 400 and UnexpectedError exactly 500, a client and a server error |
| ChangePassword.ErrorResponse | src/routes/admin/password/post.rs:84-97 | BadRequest: a 303 to /admin/change_password with the message flashed. UnexpectedError: exactly 500, no flash, with the same Location |
| ChangePassword.ChangePassword | src/routes/admin/password/post.rs:28-74 | the steps that ran are a prefix of the fixed order, and each early failure names the step it stopped at. Current-password parse failure: "Wrong password". New or confirmation parse failure: parse's own message. Different new passwords: the mismatch message. The table changes only when every step passed. The "Successfully changed password" redirect is given iff every check passes and the update succeeds |
| ChangePassword.StoreAndVerifyOutcomes | src/routes/admin/password/post.rs:50-73 | lookup failure or missing hash: a plain 500 after the lookup step. Mismatch: "Wrong password"; non-PHC hash: 500 with Location; both stop after the verification step with the table unchanged. Failed update: 500 |
| ChangePassword.ValidChangeSucceeds | src/routes/admin/password/post.rs:28-74 | a request that passes every check, with a successful update, runs the whole chain, writes the new hash for the user and redirects to /admin/change_password with the success flash |
| ChangePassword.ChangedPasswordVerifies | src/routes/admin/password/post.rs:67-73 | after a successful change the stored hash verifies against the new password, given that the hash oracle's output verifies against its input; other users' hashes are unchanged |
| ChangePassword.InvalidCurrentPasswordIsWrong | src/routes/admin/password/post.rs:35-36 | a current password that fails parsing (too short, too long or blank) gives "Wrong password" before any lookup |

## Left out

- Concurrency: two requests with the same idempotency key at the same time, and the row locking behind them. Requests are modelled one at a time.
- The source of the idempotency store is not part of this model. `try_processing` and `save_response` are modelled only as a map from (user id, key) to a saved response. The response is saved and committed in one step (`saveOk`).
- `IdempotencyKey`'s validation rules are not part of this model. The decision arrives as the predicate `validKey`.
- Delivery worker, retries and backoff: not part of this model. The queue is only filled here.
- Grapheme segmentation is done by a library. Passwords arrive already split into grapheme clusters.
- Argon2 and PHC parsing are the `verify`/`hash` oracles. The fixed cost parameters (m=15000, t=2, p=1) are not modelled.
- `validate_email` and `SubscriberName::parse` are oracles.
- Randomness, `Uuid::new_v4`, timestamps (`subscribed_at`, `published_at`) and salts are parameters or are dropped.
- The database schema is not part of this model. Inserting a row whose primary key is taken (subscription id, token, issue id) is modelled as a failed insert.
- Any unique constraint on subscriber emails is not modelled, so two subscriptions may share an address; the fan-out contracts count rows per address.
- Row order: neither confirmed-subscriptions query has an ORDER BY, so the database may return rows in any order. The model returns them in table order, and the legacy send loop's prefix property is stated for that order.
- Response bodies: e400/e500 carry the error's Display text; the model keeps only status and Location.
- Flash messages are kept as the ordered list a handler queues. Their cookie transport is not modelled.
- Tracing, logging (the warning for a skipped subscriber) and `error_chain_fmt` are left out.
- Authentication.ValidateCredentials: a failure to join the blocking task ("Failed to spawn blocking task.") is not modelled, because the verification oracle cannot panic.
- `PublishError` in src/routes/admin/newsletter/post.rs:130-153 is never constructed by the handler, so it is not modelled.
- Server wiring, configuration, HTML form pages, login/logout and session checks are left out.
