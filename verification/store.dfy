/**
 The newsletter's persistent state: the three collections it keeps in its
 hosted key-value store (subscribers, posts and config), each an immutable map
 from a store-assigned key to a record, together with the predicates that
 describe how one map differs from another.
 */
module Store {

  /** A store-assigned record identifier; a subscriber's key doubles as the
      token in its confirmation links. */
  type Key = string

  /** A date already formatted by the application; opaque to the model. */
  type Date = string

  datatype Subscriber = Subscriber(email: string, subscribedOn: Date, verified: bool)

  datatype Post = Post(
    title: string,
    date: Date,
    htmlContent: string,
    textContent: string,
    excerpt: string)

  /** The record written once by the setup wizard: SMTP credentials, the
      newsletter's texts, theme colours and privacy-notice fields. */
  datatype Config = Config(
    smtpUsername: string,
    smtpPassword: string,
    smtpServer: string,
    smtpPort: int,
    newsletterTitle: string,
    newsletterTagline: string,
    newsletterDescription: string,
    colorFade1: string,
    colorFade2: string,
    colorTitle: string,
    privacyName: string,
    privacyLink: string,
    privacyAddress: string)

  datatype State = State(
    subscribers: map<Key, Subscriber>,
    posts: map<Key, Post>,
    config: map<Key, Config>)

  /** Setup is complete exactly when the config collection holds a record. */
  predicate Configured(st: State) {
    |st.config| != 0
  }

  /** Some subscriber record carries exactly this email (the store's equality
      filter on the `email` field finds at least one item). */
  predicate EmailTaken(subs: map<Key, Subscriber>, email: string) {
    exists k | k in subs :: subs[k].email == email
  }

  /** `m'` is `m` with exactly one new entry `k := v` and nothing else changed. */
  ghost predicate Inserted<V>(m: map<Key, V>, m': map<Key, V>, k: Key, v: V) {
    && k !in m
    && m'.Keys == m.Keys + {k}
    && k in m' && m'[k] == v
    && forall j :: j in m ==> j in m' && m'[j] == m[j]
  }

  /** `m'` is `m` without key `k` (if it was there) and nothing else changed. */
  ghost predicate Removed<V>(m: map<Key, V>, m': map<Key, V>, k: Key) {
    && m'.Keys == m.Keys - {k}
    && forall j :: j in m' ==> j in m && m'[j] == m[j]
  }

  /** `m'` has the same keys as `m`; only the entry under `k` changed, to `v`. */
  ghost predicate Replaced<V>(m: map<Key, V>, m': map<Key, V>, k: Key, v: V) {
    && m'.Keys == m.Keys
    && k in m' && m'[k] == v
    && forall j :: j in m && j != k ==> j in m' && m'[j] == m[j]
  }

  /** No two subscriber records share an email: the invariant the subscribe
      handler's duplicate check maintains when requests arrive one at a time. */
  ghost predicate UniqueEmails(subs: map<Key, Subscriber>) {
    forall j, k :: j in subs && k in subs && subs[j].email == subs[k].email ==> j == k
  }
}
