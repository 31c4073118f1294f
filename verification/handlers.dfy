/**
 The newsletter's request handlers as pure transitions. Each takes the current
 store state plus whatever the outside world contributes (a fresh key chosen by
 the store, the mailer's answer, today's date) and returns the new state, the
 outcome tag the user is shown, and the mail the handler asked to be sent.
 */
module Handlers {
  import opened Wrappers
  import opened Store

  /** The admin and front-end pages guarded by the "setup complete" check. */
  datatype View = Index | Dashboard | DashboardHome | Editor | SubscriberList

  /** The page or redirect a request ends in, one tag per distinct response. */
  datatype Outcome =
    | AlreadySubscribed | VerifySent | VerifySendFailed
    | AlreadyVerified | Verified | VerifyFailed
    | NotSubscribed | UnsubSent | UnsubSendFailed
    | Unsubscribed | UnsubscribeFailed | UnsubscribeFormShown
    | EmptyPost | SendFailed | PostCreated
    | SubscriberRemoved | PostRemoved
    | RedirectToSetup | RedirectToHome | Shown(view: View)
    | NotFound404 | SetupFormShown | CredentialsValid | CredentialsInvalid | SetupDone
    | FormRejected  // a required form field is missing or empty: 422 before any handler runs

  /** A mail the handler hands to the mailer (sent or not: see the outcome). */
  datatype Mail =
    | NoMail
    | VerifyMail(to: string, token: Key)
    | UnsubscribeMail(to: string, token: Key)
    | Broadcast(postTitle: string, postDate: Date, postContent: string)

  datatype Response = Response(state: State, outcome: Outcome, mail: Mail)

  /** Longest prefix of a post's plain text kept in its excerpt. */
  const ExcerptLength: nat := 50

  const Ellipsis: string := "..."

  /** The first `ExcerptLength` characters of the plain text, then an ellipsis
      (appended even when nothing was cut). */
  function Excerpt(text: string): (r: string)
    ensures |r| <= ExcerptLength + |Ellipsis|
    ensures |r| >= |Ellipsis| && r[|r| - |Ellipsis|..] == Ellipsis
    ensures r[..|r| - |Ellipsis|] <= text
    ensures |text| >= ExcerptLength ==> |r| == ExcerptLength + |Ellipsis|
    ensures |text| <= ExcerptLength ==> r[..|r| - |Ellipsis|] == text
  {
    var kept := if |text| <= ExcerptLength then text else text[..ExcerptLength];
    kept + Ellipsis
  }

  /** GET on a guarded page: before setup every one redirects to the setup
      wizard; afterwards `/dashboard` redirects to the home page and the others
      render. */
  function ShowGated(st: State, view: View): (o: Outcome)
    ensures o == RedirectToSetup <==> !Configured(st)
    ensures Configured(st) && view == Dashboard ==> o == RedirectToHome
    ensures Configured(st) && view != Dashboard ==> o == Shown(view)
  {
    if !Configured(st) then RedirectToSetup
    else if view == Dashboard then RedirectToHome
    else Shown(view)
  }

  /** POST /subscribe. An empty email fails form validation; a known email is
      rejected untouched; otherwise an unverified record is stored under the
      store's fresh key BEFORE the verification mail goes out, and it stays
      whether the mail fails or not. */
  function Subscribe(st: State, email: string, newKey: Key, today: Date, mailOk: bool): (r: Response)
    requires newKey !in st.subscribers
    ensures r.outcome == FormRejected <==> email == ""
    ensures r.outcome == AlreadySubscribed <==> email != "" && EmailTaken(st.subscribers, email)
    ensures r.outcome in {FormRejected, AlreadySubscribed} ==> r.state == st && r.mail == NoMail
    ensures r.outcome !in {FormRejected, AlreadySubscribed} ==>
      && Inserted(st.subscribers, r.state.subscribers, newKey, Subscriber(email, today, false))
      && r.state.posts == st.posts
      && r.state.config == st.config
      && r.mail == VerifyMail(email, newKey)
      && (r.outcome == VerifySent <==> mailOk)
      && (r.outcome == VerifySendFailed <==> !mailOk)
  {
    if email == "" then
      Response(st, FormRejected, NoMail)
    else if EmailTaken(st.subscribers, email) then
      Response(st, AlreadySubscribed, NoMail)
    else
      var subs := st.subscribers[newKey := Subscriber(email, today, false)];
      Response(st.(subscribers := subs), if mailOk then VerifySent else VerifySendFailed,
               VerifyMail(email, newKey))
  }

  /** GET /verify/{key}. Any failure of the store calls, or a key with no
      record, ends in VerifyFailed with nothing changed; an already verified
      record is left alone; otherwise only its `verified` flag is set. */
  function Verify(st: State, key: Key, storeOk: bool): (r: Response)
    ensures r.mail == NoMail
    ensures r.outcome == VerifyFailed <==> !storeOk || key !in st.subscribers
    ensures r.outcome == AlreadyVerified <==>
      storeOk && key in st.subscribers && st.subscribers[key].verified
    ensures r.outcome == Verified <==>
      storeOk && key in st.subscribers && !st.subscribers[key].verified
    ensures r.outcome != Verified ==> r.state == st
    ensures r.outcome == Verified ==>
      && key in st.subscribers
      && Replaced(st.subscribers, r.state.subscribers, key,
                  Subscriber(st.subscribers[key].email, st.subscribers[key].subscribedOn, true))
      && r.state.posts == st.posts
      && r.state.config == st.config
  {
    if !storeOk || key !in st.subscribers then
      Response(st, VerifyFailed, NoMail)
    else
      var entry := st.subscribers[key];
      if entry.verified then
        Response(st, AlreadyVerified, NoMail)
      else
        var subs := st.subscribers[key := Subscriber(entry.email, entry.subscribedOn, true)];
        Response(st.(subscribers := subs), Verified, NoMail)
  }

  /** POST /unsubscribe/send. Never touches the store: an empty email fails
      form validation, an unknown email is reported, a known one gets a confirmation mail carrying the key of the
      record the store's email query returned first (`first`). */
  function UnsubscribeSend(st: State, email: string, first: Key, mailOk: bool): (r: Response)
    requires email != "" && EmailTaken(st.subscribers, email) ==>
      first in st.subscribers && st.subscribers[first].email == email
    ensures r.state == st
    ensures r.outcome == FormRejected <==> email == ""
    ensures r.outcome == NotSubscribed <==> email != "" && !EmailTaken(st.subscribers, email)
    ensures r.outcome in {FormRejected, NotSubscribed} ==> r.mail == NoMail
    ensures r.outcome !in {FormRejected, NotSubscribed} ==>
      && r.mail.UnsubscribeMail?
      && r.mail.to == email
      && r.mail.token in st.subscribers
      && st.subscribers[r.mail.token].email == email
      && (r.outcome == UnsubSent <==> mailOk)
      && (r.outcome == UnsubSendFailed <==> !mailOk)
  {
    if email == "" then
      Response(st, FormRejected, NoMail)
    else if !EmailTaken(st.subscribers, email) then
      Response(st, NotSubscribed, NoMail)
    else
      Response(st, if mailOk then UnsubSent else UnsubSendFailed, UnsubscribeMail(email, first))
  }

  /** GET /unsubscribe without a key: the request form, nothing else. */
  function UnsubscribeForm(st: State): (r: Response)
    ensures r.state == st && r.mail == NoMail
    ensures r.outcome == UnsubscribeFormShown
  {
    Response(st, UnsubscribeFormShown, NoMail)
  }

  /** GET /unsubscribe?key=... The record under the key is deleted; deleting a
      key the store does not hold is a no-op and still reported as success.
      Only a failing store call reports UnsubscribeFailed. */
  function UnsubscribeConfirm(st: State, key: Key, storeOk: bool): (r: Response)
    ensures r.mail == NoMail
    ensures r.outcome == Unsubscribed <==> storeOk
    ensures r.outcome == UnsubscribeFailed <==> !storeOk
    ensures !storeOk ==> r.state == st
    ensures storeOk ==>
      && Removed(st.subscribers, r.state.subscribers, key)
      && r.state.posts == st.posts
      && r.state.config == st.config
  {
    if !storeOk then Response(st, UnsubscribeFailed, NoMail)
    else Response(st.(subscribers := st.subscribers - {key}), Unsubscribed, NoMail)
  }

  /** A form field that arrived with a value. The form layer hands an empty
      field to the handler as absent, so `Some("")` counts as missing too. */
  predicate Given(field: Option<string>) {
    field.Some? && field.value != ""
  }

  /** POST /dashboard/editor/create. A missing or empty title or content
      stops before anything happens. Otherwise the broadcast is attempted first, and only
      when it succeeds is exactly one post stored. `html` and `text` are what
      the markdown renderer and the HTML-to-text stripper make of `content`. */
  function CreatePost(st: State, title: Option<string>, content: Option<string>,
                      html: string, text: string, newKey: Key, today: Date, mailOk: bool): (r: Response)
    requires newKey !in st.posts
    ensures r.outcome == EmptyPost <==> !Given(title) || !Given(content)
    ensures r.outcome == EmptyPost ==> r.mail == NoMail
    ensures r.outcome != EmptyPost ==> Given(title) && r.mail == Broadcast(title.value, today, html)
    ensures r.outcome == PostCreated <==> Given(title) && Given(content) && mailOk
    ensures r.outcome == SendFailed <==> Given(title) && Given(content) && !mailOk
    ensures r.outcome != PostCreated ==> r.state == st
    ensures r.outcome == PostCreated ==>
      && Given(title)
      && Inserted(st.posts, r.state.posts, newKey, Post(title.value, today, html, text, Excerpt(text)))
      && r.state.subscribers == st.subscribers
      && r.state.config == st.config
  {
    if !Given(content) || !Given(title) then
      Response(st, EmptyPost, NoMail)
    else
      var mail := Broadcast(title.value, today, html);
      if !mailOk then
        Response(st, SendFailed, mail)
      else
        var post := Post(title.value, today, html, text, Excerpt(text));
        Response(st.(posts := st.posts[newKey := post]), PostCreated, mail)
  }

  /** GET /dashboard/subscribers/delete/{key}: unconditional delete. */
  function DeleteSubscriber(st: State, key: Key): (r: Response)
    ensures r.outcome == SubscriberRemoved && r.mail == NoMail
    ensures Removed(st.subscribers, r.state.subscribers, key)
    ensures r.state.posts == st.posts && r.state.config == st.config
  {
    Response(st.(subscribers := st.subscribers - {key}), SubscriberRemoved, NoMail)
  }

  /** GET /dashboard/home/delete/{key}: unconditional delete. */
  function DeletePost(st: State, key: Key): (r: Response)
    ensures r.outcome == PostRemoved && r.mail == NoMail
    ensures Removed(st.posts, r.state.posts, key)
    ensures r.state.subscribers == st.subscribers && r.state.config == st.config
  {
    Response(st.(posts := st.posts - {key}), PostRemoved, NoMail)
  }

  /** GET /setup: reachable only before setup. */
  function SetupForm(st: State): (r: Response)
    ensures r.state == st && r.mail == NoMail
    ensures r.outcome == NotFound404 <==> Configured(st)
    ensures !Configured(st) ==> r.outcome == SetupFormShown
  {
    if Configured(st) then Response(st, NotFound404, NoMail)
    else Response(st, SetupFormShown, NoMail)
  }

  /** GET /setup/test: reachable only before setup; `loginOk` is whether the
      SMTP server accepted the given credentials. */
  function SetupTest(st: State, loginOk: bool): (r: Response)
    ensures r.state == st && r.mail == NoMail
    ensures r.outcome == NotFound404 <==> Configured(st)
    ensures !Configured(st) ==> (r.outcome == CredentialsValid <==> loginOk)
    ensures !Configured(st) ==> (r.outcome == CredentialsInvalid <==> !loginOk)
  {
    if Configured(st) then Response(st, NotFound404, NoMail)
    else if loginOk then Response(st, CredentialsValid, NoMail)
    else Response(st, CredentialsInvalid, NoMail)
  }

  /** Every text field of the setup form is filled in (all thirteen fields are
      required; the port is a number and cannot be empty). */
  predicate ConfigComplete(cfg: Config) {
    && cfg.smtpUsername != "" && cfg.smtpPassword != "" && cfg.smtpServer != ""
    && cfg.newsletterTitle != "" && cfg.newsletterTagline != "" && cfg.newsletterDescription != ""
    && cfg.colorFade1 != "" && cfg.colorFade2 != "" && cfg.colorTitle != ""
    && cfg.privacyName != "" && cfg.privacyLink != "" && cfg.privacyAddress != ""
  }

  /** POST /setup/complete: the one-shot gate. A form with an empty field fails
      validation before the gate is consulted. Otherwise writes the single
      config record when there is none; once there is one, answers 404 and
      writes nothing. */
  function SetupComplete(st: State, cfg: Config, newKey: Key): (r: Response)
    requires newKey !in st.config
    ensures r.mail == NoMail
    ensures r.outcome == FormRejected <==> !ConfigComplete(cfg)
    ensures r.outcome == NotFound404 <==> ConfigComplete(cfg) && Configured(st)
    ensures r.outcome != SetupDone ==> r.state == st
    ensures ConfigComplete(cfg) && !Configured(st) ==>
      && r.outcome == SetupDone
      && r.state.config == map[newKey := cfg]
      && |r.state.config| == 1
      && r.state.subscribers == st.subscribers
      && r.state.posts == st.posts
  {
    if !ConfigComplete(cfg) then Response(st, FormRejected, NoMail)
    else if Configured(st) then Response(st, NotFound404, NoMail)
    else
      assert st.config == map[];
      Response(st.(config := st.config[newKey := cfg]), SetupDone, NoMail)
  }
}
