/**
 Laws relating two handler calls: the duplicate-subscription check, the
 idempotence of verification, the subscribe/unsubscribe and create/delete
 round trips, and the one-shot setup gate.
 */
module HandlerLaws {
  import opened Wrappers
  import opened Store
  import opened Handlers

  /** Subscribing the same email twice: the second request is turned away and
      the record the first one stored is left exactly as it was. */
  lemma SubscribeTwiceRejected(st: State, email: string, k1: Key, k2: Key,
                               d1: Date, d2: Date, ok1: bool, ok2: bool)
    requires email != ""
    requires k1 !in st.subscribers
    requires k2 !in Subscribe(st, email, k1, d1, ok1).state.subscribers
    ensures var s1 := Subscribe(st, email, k1, d1, ok1).state;
            Subscribe(s1, email, k2, d2, ok2) == Response(s1, AlreadySubscribed, NoMail)
  {
  }

  /** No rollback: the subscriber record is stored whether or not the
      verification mail could be sent; only the outcome differs. */
  lemma SubscribeNoRollback(st: State, email: string, k: Key, today: Date)
    requires email != ""
    requires k !in st.subscribers
    requires !EmailTaken(st.subscribers, email)
    ensures Subscribe(st, email, k, today, true).state == Subscribe(st, email, k, today, false).state
    ensures Subscribe(st, email, k, today, false).state.subscribers[k] == Subscriber(email, today, false)
    ensures Subscribe(st, email, k, today, true).outcome == VerifySent
    ensures Subscribe(st, email, k, today, false).outcome == VerifySendFailed
  {
  }

  /** Verification is idempotent: verifying again changes nothing and
      reports AlreadyVerified. */
  lemma VerifyIdempotent(st: State, key: Key)
    requires key in st.subscribers
    ensures var s1 := Verify(st, key, true).state;
            Verify(s1, key, true) == Response(s1, AlreadyVerified, NoMail)
  {
  }

  /** Following the link from a fresh subscription verifies exactly that
      record, keeping its email and subscription date. */
  lemma SubscribeThenVerify(st: State, email: string, k: Key, today: Date, mailOk: bool)
    requires email != ""
    requires k !in st.subscribers
    requires !EmailTaken(st.subscribers, email)
    ensures var s1 := Subscribe(st, email, k, today, mailOk).state;
            var r2 := Verify(s1, k, true);
            && r2.outcome == Verified
            && k in r2.state.subscribers
            && r2.state.subscribers[k] == Subscriber(email, today, true)
  {
  }

  /** The unsubscribe mail for a freshly subscribed email carries the key the
      subscription was stored under, provided the email was not already on
      the list (so the store's query has exactly one record to return). */
  lemma UnsubscribeTokenIsSubscriptionKey(st: State, email: string, k: Key, today: Date,
                                          mailOk: bool, first: Key, sendOk: bool)
    requires email != ""
    requires k !in st.subscribers
    requires !EmailTaken(st.subscribers, email)
    requires var s1 := Subscribe(st, email, k, today, mailOk).state;
             first in s1.subscribers && s1.subscribers[first].email == email
    ensures var s1 := Subscribe(st, email, k, today, mailOk).state;
            UnsubscribeSend(s1, email, first, sendOk).mail == UnsubscribeMail(email, k)
  {
  }

  /** Subscribe followed by unsubscribe-confirm with the subscription's key
      restores the original state. */
  lemma SubscribeUnsubscribeRoundTrip(st: State, email: string, k: Key, today: Date, mailOk: bool)
    requires email != ""
    requires k !in st.subscribers
    requires !EmailTaken(st.subscribers, email)
    ensures var s1 := Subscribe(st, email, k, today, mailOk).state;
            UnsubscribeConfirm(s1, k, true) == Response(st, Unsubscribed, NoMail)
  {
  }

  /** Creating a post and deleting it under its key restores the original
      state; the broadcast, of course, cannot be taken back. */
  lemma CreateDeleteRoundTrip(st: State, title: string, content: string, html: string,
                              text: string, k: Key, today: Date)
    requires k !in st.posts
    requires title != "" && content != ""
    ensures var r1 := CreatePost(st, Some(title), Some(content), html, text, k, today, true);
            && r1.outcome == PostCreated
            && DeletePost(r1.state, k).state == st
  {
  }

  /** A required form field left empty is turned away before the handler
      runs: nothing is stored, no mail is sent, and an incomplete setup form
      leaves the wizard open. */
  lemma EmptyRequiredFieldsRejected(st: State, k: Key, today: Date, first: Key,
                                    mailOk: bool, cfg: Config, ck: Key)
    requires k !in st.subscribers && ck !in st.config
    requires !ConfigComplete(cfg)
    ensures Subscribe(st, "", k, today, mailOk) == Response(st, FormRejected, NoMail)
    ensures UnsubscribeSend(st, "", first, mailOk) == Response(st, FormRejected, NoMail)
    ensures SetupComplete(st, cfg, ck) == Response(st, FormRejected, NoMail)
    ensures Configured(SetupComplete(st, cfg, ck).state) == Configured(st)
  {
  }

  /** Setup completes once: a second completion answers 404 and the first
      configuration stays the only record. */
  lemma SetupOnlyOnce(st: State, cfg1: Config, k1: Key, cfg2: Config, k2: Key)
    requires !Configured(st)
    requires k1 !in st.config
    requires ConfigComplete(cfg1)
    requires k2 !in SetupComplete(st, cfg1, k1).state.config
    ensures var s1 := SetupComplete(st, cfg1, k1).state;
            && SetupComplete(s1, cfg2, k2) ==
               Response(s1, if ConfigComplete(cfg2) then NotFound404 else FormRejected, NoMail)
            && s1.config == map[k1 := cfg1]
  {
  }

  /** After setup the wizard pages are gone and no guarded page redirects to
      setup any more. */
  lemma SetupClosesWizard(st: State, cfg: Config, k: Key, view: View, loginOk: bool)
    requires !Configured(st)
    requires ConfigComplete(cfg)
    requires k !in st.config
    ensures ShowGated(st, view) == RedirectToSetup
    ensures var s1 := SetupComplete(st, cfg, k).state;
            && ShowGated(s1, view) != RedirectToSetup
            && SetupForm(s1).outcome == NotFound404
            && SetupTest(s1, loginOk).outcome == NotFound404
  {
  }

  /** The excerpt in closed form: the first min(50, |text|) characters, then
      "..." (so the post whose text is "world" gets the excerpt "world..."). */
  lemma ExcerptClosedForm(text: string)
    ensures var n := if |text| < ExcerptLength then |text| else ExcerptLength;
            Excerpt(text) == text[..n] + "..."
    ensures Excerpt("world") == "world..."
  {
  }

  /** Empty fields are turned away like missing ones: no post and no broadcast. */
  lemma EmptyFieldsRejected(st: State, title: string, content: string, html: string,
                            text: string, k: Key, today: Date, mailOk: bool)
    requires k !in st.posts
    requires title == "" || content == ""
    ensures CreatePost(st, Some(title), Some(content), html, text, k, today, mailOk)
            == Response(st, EmptyPost, NoMail)
  {
  }

  /** The excerpt only depends on the first 50 characters: longer texts that
      agree there get the same excerpt, cut without regard to word breaks. */
  lemma ExcerptCutsAtFifty(a: string, b: string)
    requires |a| >= ExcerptLength && |b| >= ExcerptLength
    requires a[..ExcerptLength] == b[..ExcerptLength]
    ensures Excerpt(a) == Excerpt(b)
  {
  }
}
