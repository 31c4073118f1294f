# microletter: subscriber, post and setup lifecycle

A Dafny model of the request handlers of microletter, a self-hosted newsletter.
Visitors subscribe by email and confirm through a link. They unsubscribe by
asking for a confirmation mail and following its link. The administrator
publishes posts, which are mailed to subscribers. A one-time setup wizard writes
the configuration record.

The hosted key-value store becomes an immutable `State` of three maps: subscribers,
posts and config. Each map goes from a store-assigned key to a record. Each route
handler becomes a pure function. It returns the new state, an outcome tag for the
page or redirect the user gets, and the mail the handler handed to the mailer.

Modules:

- `Store` (store.dfy): the records, the state, and the predicates describing how one map
  differs from another (`Inserted`, `Removed`, `Replaced`, `UniqueEmails`).
- `Handlers` (handlers.dfy): one function per handler, and the excerpt rule.
- `HandlerLaws` (handler_laws.dfy): laws relating two handler calls.
- `Lifecycle` (lifecycle.dfy): requests, one step, and runs of several requests.
  It also holds the invariants that sequential handling preserves.
- `Wrappers` (wrappers.dfy): `Option`, for form fields that may be absent.

Each external effect becomes a parameter:

- The mailer's answer is a `bool` (`mailOk`).
- The SMTP login test's answer is a `bool` (`loginOk`).
- The success of a store call, where the handler catches its failure, is a `bool` (`storeOk`).
- The key the store assigns on insert is a parameter (`newKey`). A precondition says it is not in use.
- The key of the first record returned by the email query in the unsubscribe-send
  handler is a parameter (`first`). A precondition says it names a record with that email, when one exists.
- Dates are opaque strings.
- A post's HTML (from the markdown renderer) and its plain text (from the HTML
  stripper) are inputs.

Notes on the handlers' behaviour:

- The form layer treats an empty form field as a missing one.
  - For an optional field (the post's `title` and `content`), the handler receives `None`.
    The post handler rejects `None`, so an empty title or content is rejected as well.
    The model takes both fields as `Option<string>` and treats `Some("")` like `None` (`Handlers.Given`).
  - A required field (the subscribe and unsubscribe `email`, and every setup-complete field)
    makes the form layer answer 422 before the handler runs. The model reports this as
    `FormRejected`, with nothing stored and no mail. For setup this check comes before the
    "already configured" check.
- Unsubscribe-confirm does not check that the key exists. The store's delete of
  a missing key is a no-op, so an unknown key is reported as `Unsubscribed`.
  Only a failing store call (`storeOk == false`) gives `UnsubscribeFailed`.
- Post creation and the two admin deletes are not guarded by the setup check.
  Subscribe, verify and the unsubscribe routes are not guarded either.

## Model

| member | source | states |
|---|---|---|
| Handlers.ShowGated | main.py:56-167 | every guarded page redirects to setup exactly when the config collection is empty; afterwards `/dashboard` redirects to home and the other pages render |
| Handlers.Subscribe | main.py:62-81 | an empty email gives FormRejected with no change and no mail; a known email gives AlreadySubscribed with the state untouched and no mail; otherwise exactly one unverified record with that email is inserted under the new key, nothing else changes, the verification mail carries that key, and the outcome reflects only the mailer's answer |
| Handlers.Verify | main.py:83-102 | a store failure or an absent key gives VerifyFailed with no change; an already verified record gives AlreadyVerified with no change; otherwise only that record's flag becomes true, keeping email and subscription date, and no other key or collection changes |
| Handlers.UnsubscribeSend | main.py:183-197 | never changes the state; FormRejected exactly when the email is empty; otherwise NotSubscribed exactly when no record has the email; otherwise the confirmation mail goes to that email with the key of a record holding it, and the outcome reflects the mailer's answer |
| Handlers.UnsubscribeForm | main.py:116-118 | without a key the request only shows the form, with no change and no mail |
| Handlers.UnsubscribeConfirm | main.py:104-115 | on a working store, exactly the given key is removed from subscribers and nothing else changes (Unsubscribed); a store failure gives UnsubscribeFailed with no change |
| Handlers.Excerpt | main.py:206-210 | the excerpt is a prefix of the plain text, at most 50 characters, followed by "..."; at most 53 characters; the whole text is kept when it is short |
| Handlers.CreatePost | main.py:199-230 | a missing or empty title or content gives EmptyPost with no change and no broadcast; otherwise the broadcast of title, date and HTML is attempted first; a failed broadcast stores nothing; a successful one inserts exactly one post under the new key with the derived excerpt |
| Handlers.DeleteSubscriber | main.py:232-235 | removes exactly the given subscriber key and changes nothing else |
| Handlers.DeletePost | main.py:237-240 | removes exactly the given post key and changes nothing else |
| Handlers.SetupForm | main.py:169-175 | the wizard page answers 404 exactly when config is non-empty, and never changes the state |
| Handlers.SetupTest | main.py:242-257 | answers 404 exactly when config is non-empty; before setup the outcome reflects whether the SMTP login succeeded; never changes the state |
| Handlers.SetupComplete | main.py:259-292 | a form with any empty field gives FormRejected and writes nothing, whether or not setup is done; otherwise, with config empty, writes the one config record under the new key and leaves subscribers and posts alone; with config non-empty, answers 404 and changes nothing |
| HandlerLaws.SubscribeTwiceRejected | main.py:62-73 | a second subscription with the same email is rejected and leaves the state, including the first record, as it was |
| HandlerLaws.SubscribeNoRollback | main.py:69-81 | the stored record is the same whether the verification mail succeeds or fails; only the outcome differs |
| HandlerLaws.VerifyIdempotent | main.py:83-98 | verifying a second time reports AlreadyVerified and changes nothing |
| HandlerLaws.SubscribeThenVerify | main.py:69-98 | following the link from a new subscription verifies that record, with its email and date kept |
| HandlerLaws.UnsubscribeTokenIsSubscriptionKey | main.py:183-193 | for an email subscribed once, the unsubscribe mail carries the key the subscription was stored under |
| HandlerLaws.SubscribeUnsubscribeRoundTrip | main.py:104-111 | confirming the unsubscribe link of a new subscription restores the state from before the subscription |
| HandlerLaws.CreateDeleteRoundTrip | main.py:222-240 | with a non-empty title and content, deleting a newly created post under its key restores the state from before it was created |
| HandlerLaws.SetupOnlyOnce | main.py:275-291 | after a complete setup form is stored, a second setup-complete answers 404 (or FormRejected for an incomplete form) and changes nothing, and the first configuration stays the only record |
| HandlerLaws.EmptyRequiredFieldsRejected | main.py:62-63 | an empty email or an incomplete setup form is rejected before any handler runs: no change, no mail, and the setup wizard stays open |
| HandlerLaws.SetupClosesWizard | main.py:169-175 | before setup every guarded page redirects; after setup none does, and the setup form and the test answer 404 |
| HandlerLaws.ExcerptClosedForm | main.py:210 | the excerpt is exactly the first min(50, length) characters of the plain text followed by "..." ("world" gives "world...") |
| HandlerLaws.EmptyFieldsRejected | main.py:200-204 | an empty title or content gives EmptyPost with no post stored and no broadcast, like a missing one |
| HandlerLaws.ExcerptCutsAtFifty | main.py:210 | two long texts that agree on their first 50 characters get the same excerpt, whatever follows and whatever the word breaks |
| Lifecycle.Step | main.py:56-292 | only setup-complete on an empty config changes config, leaving one record; only post creation and post deletion change posts; only subscribe, verify, unsubscribe-confirm and subscriber deletion change subscribers; only post creation broadcasts |
| Lifecycle.Run | main.py:56-292 | once setup is complete, no run changes config again and no request redirects to setup |
| Lifecycle.StepPreservesInv | main.py:56-292 | every request keeps the invariant: at most one config record, no two subscribers with the same email (the duplicate check at subscribe, emails kept by verify), and each excerpt derived from its post's text |
| Lifecycle.RunPreservesInv | main.py:56-292 | any run of requests handled one at a time keeps the invariant |
| Lifecycle.InvBounds | main.py:206-228 | under the invariant no stored excerpt exceeds 53 characters |
| Lifecycle.StepPostWasBroadcast | main.py:217-228 | a step that stores a post reported PostCreated and broadcast that post's title, date and HTML |
| Lifecycle.RunPostsWereBroadcast | main.py:217-228 | every post a run leaves in the store that was not there before was broadcast successfully by a request of that run |
| Lifecycle.StepKeepsSubscriber | main.py:83-111 | a subscriber record that survives a request keeps its email and subscription date, and stays verified once verified |

## Left out

- Routing, static mounts, the no-cache middleware, the templates, the popup
  messages of the admin pages and the 404/500 exception handler (main.py:295-302)
  are presentation. They are reduced to outcome tags.
- The store client is replaced by maps. Store failures are modelled only where a
  handler catches them (verify and unsubscribe-confirm). Anywhere else an uncaught
  failure produces a server error, which is not modelled.
- Handlers.SetupTest: the SMTP connection is a network call. It is reduced to the `loginOk` answer.
- The mailer module (verify, unsubscribe and broadcast mails) is not part of this model.
  Its fan-out to subscribers is not modelled either. Each call becomes a sent `Mail`
  value plus a `bool` answer.
- Markdown rendering and HTML-to-text stripping are foreign libraries. Their results
  are inputs, so the model cannot relate `html` or `text` to `content`.
- The HTML table generation and the configuration reader are not part of this model.
- Date formatting depends on the clock. Dates are opaque strings.
- Concurrent requests are not modelled. The duplicate-email check and the setup gate
  are read-then-write without atomicity, so the uniqueness and single-config
  invariants are proved only for requests handled one at a time.
- Lifecycle.StepKeepsSubscriber is stated per step only. Over a whole run the store
  could reuse a deleted key, so a record under the same key need not be the same subscription.
