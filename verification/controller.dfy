/**
 The subscription page: a push button, a details panel showing the current
 subscription as JSON, and the global `isSubscribed` flag.

 Each handler of the page is one atomic transition from a `Page` to a `Step`
 (the new page and the ordered platform calls it made). Whatever the platform
 answers (the notification permission, the current subscription, the key
 fetch, the result of `pushManager.subscribe`, the result of revoking) is a
 parameter of the transition.
 */
module Controller {
  import opened Wrappers
  import Base64

  /** `Notification.permission` */
  datatype Permission = Default | Granted | Denied

  /** A push subscription, opaque except for its JSON serialisation. */
  datatype Subscription = Subscription(json: string)

  const BlockedLabel: string := "Push Messaging Blocked."
  const DisableLabel: string := "Disable Push Messaging"
  const EnableLabel: string := "Enable Push Messaging"
  const UnsupportedLabel: string := "Push Not Supported"

  /**
   What the page shows and remembers: the `isSubscribed` flag, the push
   button's text and `disabled` flag, whether the details panel is visible
   and its JSON text, and whether the click listener is attached.
   */
  datatype Page = Page(
    isSubscribed: bool,
    buttonText: string,
    disabled: bool,
    detailsVisible: bool,
    detailsText: string,
    listening: bool)

  /** The answer to `GET /subscribe` followed by `res.json()`. */
  datatype KeyFetch = KeyFetchFailed | KeyFetched(publicVapidKey: string)

  /** How the promise of `pushManager.subscribe` settles. */
  datatype SubscribeResult = SubscribeRejected | SubscribeResolved(subscription: Subscription)

  /** How the `getSubscription()` promise of `initializeUI` settles: rejected, or with the subscription or `null`. */
  datatype SubscriptionQuery = GetRejected | GetResolved(existing: Option<Subscription>)

  /** How the `getSubscription` / `unsubscribe` chain of the unsubscribe handler settles. */
  datatype UnsubscribeOutcome = QueryFailed | NoSubscription | Revoked | RevokeFailed

  /** Everything the platform may answer while a click is handled. */
  datatype Platform = Platform(key: KeyFetch, subscribe: SubscribeResult, unsubscribe: UnsubscribeOutcome)

  /** A call the page makes into the platform or the network. */
  datatype PageEffect =
    | RegisterWorker
    | QuerySubscription
    | FetchKey
    | RequestSubscription(userVisibleOnly: bool, applicationServerKey: seq<Base64.byte>)
    | RevokeSubscription

  datatype Step = Step(page: Page, effects: seq<PageEffect>)

  /** The text of an enabled button. */
  function ButtonLabel(subscribed: bool): string {
    if subscribed then DisableLabel else EnableLabel
  }

  /**
   The invariant the handlers keep: the details panel is only shown while
   subscribed, and an enabled button has a live listener and the text that
   matches `isSubscribed`.
   */
  predicate Coherent(p: Page) {
    && (p.detailsVisible ==> p.isSubscribed)
    && (!p.disabled ==> p.listening && p.buttonText == ButtonLabel(p.isSubscribed))
  }

  /** `updateSubscriptionOnServer`: show the serialised subscription, or hide the panel for `null`. */
  function UpdateSubscriptionOnServer(p: Page, subscription: Option<Subscription>): (q: Page)
    ensures q.detailsVisible <==> subscription.Some?
    ensures subscription.Some? ==> q.detailsText == subscription.value.json
    ensures subscription.None? ==> q.detailsText == p.detailsText
    ensures q.isSubscribed == p.isSubscribed && q.buttonText == p.buttonText
    ensures q.disabled == p.disabled && q.listening == p.listening
  {
    match subscription
    case Some(s) => p.(detailsText := s.json, detailsVisible := true)
    case None => p.(detailsVisible := false)
  }

  /** Reporting the same subscription twice changes nothing beyond reporting it once. */
  lemma UpdateSubscriptionIdempotent(p: Page, subscription: Option<Subscription>)
    ensures var q := UpdateSubscriptionOnServer(p, subscription);
            UpdateSubscriptionOnServer(q, subscription) == q
  {
  }

  /** `updateBtn`: a blocked permission disables everything; otherwise the button offers the opposite of the current state. */
  function UpdateBtn(p: Page, perm: Permission): (q: Page)
    ensures perm == Denied ==> q.buttonText == BlockedLabel && q.disabled && !q.detailsVisible
    ensures perm != Denied ==> !q.disabled && q.detailsVisible == p.detailsVisible
    ensures perm != Denied && p.isSubscribed ==> q.buttonText == DisableLabel
    ensures perm != Denied && !p.isSubscribed ==> q.buttonText == EnableLabel
    ensures q.isSubscribed == p.isSubscribed && q.listening == p.listening
    ensures q.detailsText == p.detailsText
  {
    if perm == Denied then
      UpdateSubscriptionOnServer(p.(buttonText := BlockedLabel, disabled := true), None)
    else
      p.(buttonText := ButtonLabel(p.isSubscribed), disabled := false)
  }

  /**
   `initializeUI`: attach the click listener, then adopt the subscription the
   platform already holds. `getSubscription()` has no rejection handler here, so
   when it rejects only the listener is attached and the page stays as it was.
   */
  function InitializeUI(p: Page, perm: Permission, query: SubscriptionQuery): (r: Step)
    ensures r.effects == [QuerySubscription]
    ensures r.page.listening
    ensures query.GetRejected? ==> r.page == p.(listening := true)
    ensures query.GetResolved? ==> (r.page.isSubscribed <==> query.existing.Some?)
    ensures query.GetResolved? && query.existing.Some? ==> r.page.detailsText == query.existing.value.json
    ensures query.GetResolved? && perm != Denied ==>
              (r.page.detailsVisible <==> query.existing.Some?) && !r.page.disabled &&
              r.page.buttonText == ButtonLabel(query.existing.Some?)
    ensures query.GetResolved? && perm == Denied ==>
              !r.page.detailsVisible && r.page.disabled && r.page.buttonText == BlockedLabel
  {
    var attached := p.(listening := true);
    match query
    case GetRejected => Step(attached, [QuerySubscription])
    case GetResolved(existing) =>
      var q := attached.(isSubscribed := existing.Some?);
      Step(UpdateBtn(UpdateSubscriptionOnServer(q, existing), perm), [QuerySubscription])
  }

  /**
   The start-up code: feature detection, worker registration, and
   `initializeUI` once registration resolves. Without push support only the
   button text changes; a failed registration changes nothing.
   */
  function Startup(p: Page, supported: bool, registered: bool, perm: Permission,
                   query: SubscriptionQuery): (r: Step)
    ensures !supported ==> r.page == p.(buttonText := UnsupportedLabel) && r.effects == []
    ensures supported && !registered ==> r.page == p && r.effects == [RegisterWorker]
    ensures supported && registered ==> r.effects == [RegisterWorker, QuerySubscription]
    ensures supported && registered ==> r.page == InitializeUI(p, perm, query).page
  {
    if !supported then Step(p.(buttonText := UnsupportedLabel), [])
    else if !registered then Step(p, [RegisterWorker])
    else
      var r := InitializeUI(p, perm, query);
      Step(r.page, [RegisterWorker] + r.effects)
  }

  /** The application-server key, if the fetch succeeded and the key decodes. */
  function ApplicationServerKey(key: KeyFetch): Option<seq<Base64.byte>> {
    match key
    case KeyFetchFailed => None
    case KeyFetched(k) =>
      match Base64.UrlB64ToUint8Array(k)
      case Success(bytes) => Some(bytes)
      case Failure(_) => None
  }

  /**
   `subscribeUser`. A failed key fetch, JSON parse or key decode throws out of
   the async function before anything else happens; otherwise the platform is
   asked for a user-visible-only subscription with the decoded key.
   */
  function SubscribeUser(p: Page, perm: Permission, key: KeyFetch, result: SubscribeResult): (r: Step)
    ensures ApplicationServerKey(key).None? ==> r == Step(p, [FetchKey])
    ensures ApplicationServerKey(key).Some? ==>
              r.effects == [FetchKey, RequestSubscription(true, ApplicationServerKey(key).value)]
    ensures ApplicationServerKey(key).Some? && result.SubscribeRejected? ==>
              r.page == UpdateBtn(p, perm) && r.page.isSubscribed == p.isSubscribed
    ensures ApplicationServerKey(key).Some? && result.SubscribeResolved? ==>
              r.page.isSubscribed && r.page.detailsText == result.subscription.json
    ensures ApplicationServerKey(key).Some? && result.SubscribeResolved? && perm != Denied ==>
              r.page.detailsVisible && !r.page.disabled && r.page.buttonText == DisableLabel
  {
    match ApplicationServerKey(key)
    case None => Step(p, [FetchKey])
    case Some(bytes) =>
      var effects := [FetchKey, RequestSubscription(true, bytes)];
      match result
      case SubscribeRejected => Step(UpdateBtn(p, perm), effects)
      case SubscribeResolved(s) =>
        var q := UpdateSubscriptionOnServer(p, Some(s)).(isSubscribed := true);
        Step(UpdateBtn(q, perm), effects)
  }

  /**
   `unsubscribeUser`: revoke the current subscription if there is one; a
   failure anywhere in that chain is caught, and the page then reports `null`
   and marks itself unsubscribed in every case.
   */
  function UnsubscribeUser(p: Page, perm: Permission, outcome: UnsubscribeOutcome): (r: Step)
    ensures !r.page.isSubscribed && !r.page.detailsVisible
    ensures r.page.detailsText == p.detailsText && r.page.listening == p.listening
    ensures perm != Denied ==> !r.page.disabled && r.page.buttonText == EnableLabel
    ensures |r.effects| > 0 && r.effects[0] == QuerySubscription
    ensures RevokeSubscription in r.effects <==> outcome.Revoked? || outcome.RevokeFailed?
  {
    var q := UpdateSubscriptionOnServer(p, None).(isSubscribed := false);
    var effects := if outcome.Revoked? || outcome.RevokeFailed? then [QuerySubscription, RevokeSubscription]
                   else [QuerySubscription];
    Step(UpdateBtn(q, perm), effects)
  }

  /**
   A click on the push button. A browser delivers no click to a disabled
   button, and none reaches the page before `initializeUI` attached the
   listener; otherwise the handler disables the button and dispatches on
   `isSubscribed`.
   */
  function Click(p: Page, perm: Permission, env: Platform): (r: Step)
    ensures !p.listening || p.disabled ==> r == Step(p, [])
    ensures p.listening && !p.disabled ==>
              |r.effects| > 0 &&
              (r.effects[0] == QuerySubscription <==> p.isSubscribed) &&
              (r.effects[0] == FetchKey <==> !p.isSubscribed)
    ensures p.listening && !p.disabled && p.isSubscribed ==> !r.page.isSubscribed
    ensures p.listening && !p.disabled && !p.isSubscribed && ApplicationServerKey(env.key).None? ==>
              r.page == p.(disabled := true)
  {
    if !p.listening || p.disabled then Step(p, [])
    else
      var q := p.(disabled := true);
      if q.isSubscribed then UnsubscribeUser(q, perm, env.unsubscribe)
      else SubscribeUser(q, perm, env.key, env.subscribe)
  }

  // ---------------------------------------------------------------------------
  // Properties over several transitions
  // ---------------------------------------------------------------------------

  /** Every click keeps the page coherent, whatever the permission and the platform answer. */
  lemma ClickPreservesCoherent(p: Page, perm: Permission, env: Platform)
    requires Coherent(p)
    ensures Coherent(Click(p, perm, env).page)
  {
  }

  /** Start-up from a page whose listener is not yet attached leaves it coherent. */
  lemma StartupPreservesCoherent(p: Page, supported: bool, registered: bool, perm: Permission,
                                 query: SubscriptionQuery)
    requires Coherent(p) && !p.listening
    ensures Coherent(Startup(p, supported, registered, perm, query).page)
  {
  }

  /**
   A key that cannot be fetched or decoded leaves the button disabled with its
   old buttonText, and the page then ignores every further click.
   */
  lemma KeyFailureLeavesButtonDisabled(p: Page, perm: Permission, env: Platform,
                                       perm': Permission, env': Platform)
    requires p.listening && !p.disabled && !p.isSubscribed
    requires ApplicationServerKey(env.key).None?
    ensures var q := Click(p, perm, env).page;
            q.disabled && q.buttonText == p.buttonText && !q.isSubscribed &&
            Click(q, perm', env') == Step(q, [])
  {
  }

  /**
   Subscribe, unsubscribe, subscribe again: the details panel ends up showing
   the subscription obtained by the last successful subscribe.
   */
  lemma ResubscribeShowsLatest(p: Page, perm: Permission, key: string,
                               first: Subscription, outcome: UnsubscribeOutcome, last: Subscription)
    requires p.listening && !p.disabled && !p.isSubscribed && perm != Denied
    requires Base64.UrlB64ToUint8Array(key).Success?
    ensures var p1 := Click(p, perm, Platform(KeyFetched(key), SubscribeResolved(first), outcome)).page;
            var p2 := Click(p1, perm, Platform(KeyFetched(key), SubscribeResolved(first), outcome)).page;
            var p3 := Click(p2, perm, Platform(KeyFetched(key), SubscribeResolved(last), outcome)).page;
            p1.isSubscribed && !p2.isSubscribed && p3.isSubscribed &&
            p3.detailsVisible && p3.detailsText == last.json
  {
  }
}
