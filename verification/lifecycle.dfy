/**
 The application as a state machine: every HTTP request the core handles is
 one `Request`, `Step` dispatches it to its handler, and `Run` feeds a
 sequence of requests through one at a time (the store offers no atomicity,
 so only sequential runs are described). The invariants below are the ones
 the handlers maintain together.
 */
module Lifecycle {
  import opened Wrappers
  import opened Store
  import opened Handlers

  /** One HTTP request together with what the outside world answers while it
      is handled (fresh store keys, mailer and store results, today's date,
      the rendered post). */
  datatype Request =
    | GetView(view: View)
    | PostSubscribe(email: string, newKey: Key, today: Date, mailOk: bool)
    | GetVerify(key: Key, storeOk: bool)
    | GetUnsubscribeForm
    | GetUnsubscribe(key: Key, storeOk: bool)
    | PostUnsubscribeSend(email: string, first: Key, mailOk: bool)
    | PostCreate(title: Option<string>, content: Option<string>, html: string, text: string,
                 newKey: Key, today: Date, mailOk: bool)
    | GetSubscriberDelete(key: Key)
    | GetPostDelete(key: Key)
    | GetSetup
    | GetSetupTest(loginOk: bool)
    | PostSetupComplete(cfg: Config, newKey: Key)

  /** What the store guarantees about its answers: an inserted record gets a
      key not in use, and the email query returns a record with that email. */
  predicate Admissible(st: State, req: Request) {
    match req
    case PostSubscribe(_, k, _, _) => k !in st.subscribers
    case PostUnsubscribeSend(email, first, _) =>
      email != "" && EmailTaken(st.subscribers, email) ==>
        first in st.subscribers && st.subscribers[first].email == email
    case PostCreate(_, _, _, _, k, _, _) => k !in st.posts
    case PostSetupComplete(_, k) => k !in st.config
    case _ => true
  }

  /** Handle one request. */
  function Step(st: State, req: Request): (r: Response)
    requires Admissible(st, req)
    ensures r.state.config == st.config ||
            (req.PostSetupComplete? && !Configured(st) && |r.state.config| == 1)
    ensures r.state.posts != st.posts ==> req.PostCreate? || req.GetPostDelete?
    ensures r.state.subscribers != st.subscribers ==>
      req.PostSubscribe? || req.GetVerify? || req.GetUnsubscribe? || req.GetSubscriberDelete?
    ensures r.mail.Broadcast? ==> req.PostCreate?
  {
    match req
    case GetView(view) => Response(st, ShowGated(st, view), NoMail)
    case PostSubscribe(email, k, today, mailOk) => Subscribe(st, email, k, today, mailOk)
    case GetVerify(key, storeOk) => Verify(st, key, storeOk)
    case GetUnsubscribeForm => UnsubscribeForm(st)
    case GetUnsubscribe(key, storeOk) => UnsubscribeConfirm(st, key, storeOk)
    case PostUnsubscribeSend(email, first, mailOk) => UnsubscribeSend(st, email, first, mailOk)
    case PostCreate(title, content, html, text, k, today, mailOk) =>
      CreatePost(st, title, content, html, text, k, today, mailOk)
    case GetSubscriberDelete(key) => DeleteSubscriber(st, key)
    case GetPostDelete(key) => DeletePost(st, key)
    case GetSetup => SetupForm(st)
    case GetSetupTest(loginOk) => SetupTest(st, loginOk)
    case PostSetupComplete(cfg, k) => SetupComplete(st, cfg, k)
  }

  /** Every request of the sequence is admissible in the state it meets. */
  predicate AdmissibleRun(st: State, reqs: seq<Request>)
    decreases |reqs|
  {
    |reqs| == 0 || (Admissible(st, reqs[0]) && AdmissibleRun(Step(st, reqs[0]).state, reqs[1..]))
  }

  /** The final state of a run, with the outcome and mail of each request. */
  datatype Trace = Trace(final: State, outcomes: seq<Outcome>, mails: seq<Mail>)

  /** Handle the requests one after another. Once setup is complete the
      config collection never changes again. */
  function Run(st: State, reqs: seq<Request>): (t: Trace)
    requires AdmissibleRun(st, reqs)
    ensures |t.outcomes| == |reqs| && |t.mails| == |reqs|
    ensures Configured(st) ==> t.final.config == st.config
    ensures Configured(st) ==> forall i :: 0 <= i < |reqs| ==> t.outcomes[i] != RedirectToSetup
    decreases |reqs|
  {
    if |reqs| == 0 then Trace(st, [], [])
    else
      var r := Step(st, reqs[0]);
      var rest := Run(r.state, reqs[1..]);
      Trace(rest.final, [r.outcome] + rest.outcomes, [r.mail] + rest.mails)
  }

  /** Every stored post's excerpt is the one computed from its plain text. */
  ghost predicate ExcerptsConsistent(posts: map<Key, Post>) {
    forall k :: k in posts ==> posts[k].excerpt == Excerpt(posts[k].textContent)
  }

  /** What sequential handling keeps true: at most one config record, at most
      one subscriber per email, and well-formed excerpts. */
  ghost predicate Inv(st: State) {
    && |st.config| <= 1
    && UniqueEmails(st.subscribers)
    && ExcerptsConsistent(st.posts)
  }

  /** Every request keeps the invariant. */
  lemma StepPreservesInv(st: State, req: Request)
    requires Admissible(st, req)
    requires Inv(st)
    ensures Inv(Step(st, req).state)
  {
  }

  /** Sequential handling from a state satisfying the invariant keeps it. */
  lemma {:induction false} RunPreservesInv(st: State, reqs: seq<Request>)
    requires AdmissibleRun(st, reqs)
    requires Inv(st)
    ensures Inv(Run(st, reqs).final)
    decreases |reqs|
  {
    if |reqs| > 0 {
      StepPreservesInv(st, reqs[0]);
      RunPreservesInv(Step(st, reqs[0]).state, reqs[1..]);
    }
  }

  /** In a state satisfying the invariant no excerpt is longer than 53
      characters. */
  lemma InvBounds(st: State)
    requires Inv(st)
    ensures forall k :: k in st.posts ==> |st.posts[k].excerpt| <= ExcerptLength + |Ellipsis|
  {
  }

  /** A post that one step stores (new, or different from what the key held)
      was broadcast successfully by that very step. */
  lemma StepPostWasBroadcast(st: State, req: Request, k: Key)
    requires Admissible(st, req)
    requires var s := Step(st, req).state;
             k in s.posts && (k !in st.posts || st.posts[k] != s.posts[k])
    ensures var r := Step(st, req); var p := r.state.posts[k];
            && r.outcome == PostCreated
            && r.mail == Broadcast(p.title, p.date, p.htmlContent)
  {
  }

  /** Broadcast before persist: every post a run leaves in the store that was
      not there before was broadcast, with that title, date and content, by a
      request of the run that reported PostCreated. */
  lemma {:induction false} RunPostsWereBroadcast(st: State, reqs: seq<Request>, k: Key)
    requires AdmissibleRun(st, reqs)
    requires var f := Run(st, reqs).final;
             k in f.posts && (k !in st.posts || st.posts[k] != f.posts[k])
    ensures var t := Run(st, reqs); var p := t.final.posts[k];
            exists i :: 0 <= i < |reqs| && t.outcomes[i] == PostCreated &&
                        t.mails[i] == Broadcast(p.title, p.date, p.htmlContent)
    decreases |reqs|
  {
    var t := Run(st, reqs);
    var p := t.final.posts[k];
    var s1 := Step(st, reqs[0]).state;
    var rest := Run(s1, reqs[1..]);
    assert rest.final == t.final;
    if k in s1.posts && s1.posts[k] == p {
      StepPostWasBroadcast(st, reqs[0], k);
      assert t.outcomes[0] == PostCreated && t.mails[0] == Broadcast(p.title, p.date, p.htmlContent);
    } else {
      RunPostsWereBroadcast(s1, reqs[1..], k);
      var i :| 0 <= i < |reqs| - 1 && rest.outcomes[i] == PostCreated &&
               rest.mails[i] == Broadcast(p.title, p.date, p.htmlContent);
      assert t.outcomes[i + 1] == rest.outcomes[i] && t.mails[i + 1] == rest.mails[i];
    }
  }

  /** A subscriber record that survives a step keeps its email and its
      subscription date, and once verified stays verified. */
  lemma StepKeepsSubscriber(st: State, req: Request, k: Key)
    requires Admissible(st, req)
    requires k in st.subscribers && k in Step(st, req).state.subscribers
    ensures var e := st.subscribers[k]; var e' := Step(st, req).state.subscribers[k];
            && e'.email == e.email
            && e'.subscribedOn == e.subscribedOn
            && (e.verified ==> e'.verified)
  {
  }
}
