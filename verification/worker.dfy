/**
 The service worker: the `push` listener that shows a notification, the
 `notificationclick` listener that closes and routes, and `navigateOnYes`.

 Each listener is a function from the event and whatever the platform answers
 (the open window clients, the displayed notifications) to the ordered list of
 platform calls it makes.
 */
module Worker {
  import opened Wrappers

  const Title: string := "Push Codelab"
  const Icon: string := "images/icon.png"
  const Badge: string := "images/badge.png"
  const Vibrate: seq<nat> := [200, 100, 200, 100, 200, 100, 400]
  const TargetUrl: string := "/about.html"
  const YesAction: string := "yes"

  datatype NotificationAction = NotificationAction(action: string, title: string)

  /** The `data` attached to a notification. */
  datatype NotificationData = NotificationData(url: string)

  /** The options argument of `showNotification`. */
  datatype NotificationOptions = NotificationOptions(
    body: string,
    icon: string,
    badge: string,
    vibrate: seq<nat>,
    actions: seq<NotificationAction>,
    data: NotificationData)

  /** A notification the registration currently displays. */
  datatype Notification = Notification(id: nat, data: NotificationData)

  datatype Visibility = Visible | Hidden

  /** A window client as `clients.matchAll()` enumerates it. */
  datatype Client = Client(visibilityState: Visibility)

  /**
   A call the worker makes into the platform. Clients are named by their
   position in the enumeration; `WaitUntil(k)` extends the event's lifetime
   with the promise returned by effect number `k`.
   */
  datatype Effect =
    | ShowNotification(title: string, options: NotificationOptions)
    | WaitUntil(promiseOf: nat)
    | Close(notification: nat)
    | Navigate(client: nat, url: string)
    | Focus(client: nat)
    | OpenWindow(url: string)

  predicate IsRouting(e: Effect) {
    e.Navigate? || e.Focus? || e.OpenWindow?
  }

  // ---------------------------------------------------------------------------
  // push
  // ---------------------------------------------------------------------------

  /** The notification options built from the text of a push message. */
  function Descriptor(body: string): (o: NotificationOptions)
    ensures o.body == body
    ensures o.actions == [NotificationAction("yes", "Yes"), NotificationAction("no", "No")]
    ensures o.data.url == "/about.html"
    ensures o.vibrate == [200, 100, 200, 100, 200, 100, 400]
    ensures o.icon == "images/icon.png" && o.badge == "images/badge.png"
  {
    NotificationOptions(body, Icon, Badge, Vibrate,
                        [NotificationAction(YesAction, "Yes"), NotificationAction("no", "No")],
                        NotificationData(TargetUrl))
  }

  /**
   The `push` listener. `data` is `event.data`: a message without data makes
   `event.data.text()` throw before anything is shown.
   */
  function OnPush(data: Option<string>): (effects: seq<Effect>)
    ensures data.None? ==> effects == []
    ensures data.Some? ==>
              |effects| == 2 &&
              effects[0] == ShowNotification("Push Codelab", Descriptor(data.value)) &&
              effects[1] == WaitUntil(0)
  {
    match data
    case None => []
    case Some(text) => [ShowNotification(Title, Descriptor(text)), WaitUntil(0)]
  }

  /** Every push with data shows exactly one notification, and the event waits on that very call. */
  lemma PushShowsExactlyOne(text: string)
    ensures var effects := OnPush(Some(text));
            |set k | 0 <= k < |effects| && effects[k].ShowNotification? :: k| == 1 &&
            forall k :: 0 <= k < |effects| && effects[k].WaitUntil? ==>
              effects[k].promiseOf < |effects| && effects[effects[k].promiseOf].ShowNotification?
  {
    var effects := OnPush(Some(text));
    assert (set k | 0 <= k < |effects| && effects[k].ShowNotification? :: k) == {0};
  }

  // ---------------------------------------------------------------------------
  // notificationclick
  // ---------------------------------------------------------------------------

  /** The independent statement of the routing rule: `k` is the first visible client. */
  predicate IsFirstVisible(clients: seq<Client>, k: nat) {
    && k < |clients|
    && clients[k].visibilityState == Visible
    && forall j :: 0 <= j < k ==> clients[j].visibilityState != Visible
  }

  predicate NoneVisible(clients: seq<Client>) {
    forall j :: 0 <= j < |clients| ==> clients[j].visibilityState != Visible
  }

  /** `clis.find(c => c.visibilityState === 'visible')`, searching from position `from`. */
  function FindVisible(clients: seq<Client>, from: nat): (r: Option<nat>)
    requires from <= |clients|
    requires forall j :: 0 <= j < from ==> clients[j].visibilityState != Visible
    ensures r.Some? ==> IsFirstVisible(clients, r.value)
    ensures r.None? ==> NoneVisible(clients)
    decreases |clients| - from
  {
    if from == |clients| then None
    else if clients[from].visibilityState == Visible then Some(from)
    else FindVisible(clients, from + 1)
  }

  /** `navigateOnYes`: navigate and focus the first visible client, or open one window. */
  function NavigateOnYes(url: string, clients: seq<Client>): (effects: seq<Effect>)
    ensures forall k :: IsFirstVisible(clients, k) ==> effects == [Navigate(k, url), Focus(k)]
    ensures NoneVisible(clients) ==> effects == [OpenWindow(url)]
    ensures effects != [] && forall e :: e in effects ==> IsRouting(e)
  {
    match FindVisible(clients, 0)
    case Some(k) => [Navigate(k, url), Focus(k)]
    case None => [OpenWindow(url)]
  }

  /** Closing every notification `getNotifications` returned, in order. */
  function CloseAll(displayed: seq<Notification>): (effects: seq<Effect>)
    ensures |effects| == |displayed|
    ensures forall i :: 0 <= i < |displayed| ==> effects[i] == Close(displayed[i].id)
  {
    if displayed == [] then [] else [Close(displayed[0].id)] + CloseAll(displayed[1..])
  }

  /**
   The `notificationclick` listener: close the clicked notification, route
   only on the `yes` action, and close every notification still displayed.
   */
  function OnNotificationClick(action: string, clicked: Notification, clients: seq<Client>,
                               displayed: seq<Notification>): (effects: seq<Effect>)
    ensures |effects| > 0 && effects[0] == Close(clicked.id)
    ensures forall n :: n in displayed ==> Close(n.id) in effects
    ensures action != "yes" ==> forall e :: e in effects ==> !IsRouting(e)
    ensures action == "yes" ==> |effects| > 1 && IsRouting(effects[1])
    ensures forall e :: e in effects ==> e.Close? || IsRouting(e)
  {
    [Close(clicked.id)]
    + (if action == YesAction then NavigateOnYes(clicked.data.url, clients) else [])
    + CloseAll(displayed)
  }

  /** With a visible client, `yes` navigates and focuses the first one and opens no window. */
  lemma YesRoutesToFirstVisible(clicked: Notification, clients: seq<Client>,
                                displayed: seq<Notification>, k: nat)
    requires IsFirstVisible(clients, k)
    ensures var effects := OnNotificationClick("yes", clicked, clients, displayed);
            Navigate(k, clicked.data.url) in effects && Focus(k) in effects &&
            forall e :: e in effects ==>
              (!e.OpenWindow? &&
               (e.Navigate? ==> e == Navigate(k, clicked.data.url)) &&
               (e.Focus? ==> e == Focus(k)))
  {
    var effects := OnNotificationClick("yes", clicked, clients, displayed);
    var closeAll := CloseAll(displayed);
    assert effects == [Close(clicked.id), Navigate(k, clicked.data.url), Focus(k)] + closeAll;
    assert forall e :: e in closeAll ==> e.Close?;
  }

  /** With no visible client (no client at all included), `yes` opens exactly one window and navigates none. */
  lemma YesWithoutVisibleOpensOneWindow(clicked: Notification, clients: seq<Client>,
                                        displayed: seq<Notification>)
    requires NoneVisible(clients)
    ensures var effects := OnNotificationClick("yes", clicked, clients, displayed);
            multiset(effects)[OpenWindow(clicked.data.url)] == 1 &&
            forall e :: e in effects ==>
              (!e.Navigate? && !e.Focus? && (e.OpenWindow? ==> e.url == clicked.data.url))
  {
    var effects := OnNotificationClick("yes", clicked, clients, displayed);
    var closeAll := CloseAll(displayed);
    var open := OpenWindow(clicked.data.url);
    var head := [Close(clicked.id), open];
    assert NavigateOnYes(clicked.data.url, clients) == [open];
    assert effects == head + closeAll;
    assert forall e :: e in closeAll ==> e.Close?;
    assert open !in closeAll;
    assert multiset(effects) == multiset(head) + multiset(closeAll);
    assert multiset(head)[open] == 1;
  }

  /** A client that is not visible is never navigated or focused. */
  lemma HiddenClientsUntouched(action: string, clicked: Notification, clients: seq<Client>,
                               displayed: seq<Notification>)
    ensures forall e :: e in OnNotificationClick(action, clicked, clients, displayed) &&
                        (e.Navigate? || e.Focus?) ==>
              e.client < |clients| && clients[e.client].visibilityState == Visible
  {
    var effects := OnNotificationClick(action, clicked, clients, displayed);
    var closeAll := CloseAll(displayed);
    assert forall e :: e in closeAll ==> e.Close?;
    if action == YesAction {
      match FindVisible(clients, 0)
      case Some(k) =>
        assert effects == [Close(clicked.id), Navigate(k, clicked.data.url), Focus(k)] + closeAll;
      case None =>
        assert effects == [Close(clicked.id), OpenWindow(clicked.data.url)] + closeAll;
    } else {
      assert effects == [Close(clicked.id)] + closeAll;
    }
  }
}
