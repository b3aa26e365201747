# Push subscription page and notification worker, in Dafny

This project models the two scripts of a small web-push demo:

- **the subscription page** (`scripts/main.js`): a push button and a details
  panel. They show whether the browser is subscribed to push messages and
  display the subscription as JSON. The page decodes the server's base64url
  public key with `urlB64ToUint8Array`, subscribes and unsubscribes, and keeps
  the button's text, its `disabled` flag and the panel in step with the
  `isSubscribed` flag and the notification permission;
- **the service worker** (`sw.js`): it shows a "Push Codelab" notification with
  `yes`/`no` actions for every push message. When the notification is clicked,
  it closes it, routes `yes` to the first visible window (or opens a new one),
  and closes every remaining notification.

The files:

- `wrappers.dfy`: `Option` stands for `null`. `Result` stands for a call that
  either returns a value or throws.
- `base64.dfy` (module `Base64`): the key decoder. `atob` is modelled as the
  forgiving-base64 decode of the WHATWG Infra standard, which is decoding per
  section 4 of RFC 4648. The steps are: remove ASCII whitespace; remove one or
  two trailing `=` when the length is a multiple of four; reject a length of 1
  mod 4 or any non-alphabet character; then read the digits as a bit stream.
  An unpadded base64url encoder (`EncodeUrl`) is the encoder used to state the
  round trip of the decoder. The page itself never encodes.
- `controller.dfy` (module `Controller`): the page as an immutable `Page`
  record. Each handler is a pure transition to a `Step`, which holds the new
  page and the ordered platform calls made. Everything the platform answers is
  a parameter: the permission, how the start-up `getSubscription()` settles,
  the key fetch, the outcome of `pushManager.subscribe`, and the outcome of
  revoking.
- `worker.dfy` (module `Worker`): each listener is a function from the event,
  the enumerated window clients and the displayed notifications to an ordered
  list of effects (`ShowNotification`, `WaitUntil`, `Close`, `Navigate`,
  `Focus`, `OpenWindow`).

Some behaviours of the code are not what a reader might expect. The model
follows the code:

- A push message without data makes `event.data.text()` (sw.js:25) throw, so
  no notification appears (`OnPush(None)` is empty). One might expect an
  empty-bodied notification; the code shows none.
- If the key fetch, the JSON parse or the key decode fails, `subscribeUser`
  (scripts/main.js:88-90) stops before `updateBtn`. The button then stays
  disabled, and it keeps the text "Enable Push Messaging"
  (`KeyFailureLeavesButtonDisabled`). No error message explains the disabled
  button.
- Without push support the code only sets the text "Push Not Supported"
  (scripts/main.js:39). It does not disable the button. Clicks do nothing
  because no listener is ever attached.
- `updateSubscriptionOnServer` sends nothing to a server (its body is a TODO).
  It only shows or hides the details panel, and that is what is modelled.
- After a failed revoke, unsubscribing still reports `null` and marks the page
  unsubscribed (`UnsubscribeUser`), although the browser may still hold the
  subscription.
- If the start-up `getSubscription()` rejects (scripts/main.js:54 has no
  rejection handler), the click listener is attached but `updateBtn` never
  runs, so the button keeps its initial text and `disabled` flag
  (`InitializeUI` with `GetRejected`).
- Decoding followed by re-encoding does not always give back the original
  string. Decoding drops the low bits of a last group of two or three digits,
  so `AB` and `AA` decode to the same byte (`NonCanonicalKeysCollide`). Only
  encode-then-decode is a round trip (`UrlKeyRoundTrip`).

## Model

| member | source | states |
|---|---|---|
| `Base64.Repeat` | scripts/main.js:12 | `"=".repeat(k)` has length `k` and every character is `=` |
| `Base64.PaddingLength` | scripts/main.js:12 | the number of `=` appended is below 4 and brings the length to a multiple of 4 |
| `Base64.ReplaceAll` | scripts/main.js:13 | a global single-character `replace` keeps the length, rewrites every occurrence and leaves every other character alone |
| `Base64.ToStandardAlphabet` | scripts/main.js:12-13 | the padded string is a multiple of 4 long; `-` becomes `+` and `_` becomes `/`; all other characters are kept; the added tail is all `=`; no `-` or `_` remains |
| `Base64.RemoveWhitespace` | scripts/main.js:15 | `atob` step 1: the result holds exactly the non-whitespace characters of the input and is never longer; a whitespace-free string is unchanged |
| `Base64.RemoveWhitespaceFilters` | scripts/main.js:15 | whitespace removal is an in-order filter: it keeps one non-whitespace character, drops one whitespace character, and maps a concatenation to the concatenation of the results |
| `Base64.StripPadding` | scripts/main.js:15 | `atob` step 2: removes only trailing `=`, at most two; a length that is not a multiple of 4 is left alone; for a multiple of 4, a final `==` loses two characters, a single final `=` one, and no final `=` nothing |
| `Base64.DecodeGroup` | scripts/main.js:15 | a group of k digits (2 to 4) decodes to k-1 bytes |
| `Base64.DecodeSextets` | scripts/main.js:15 | n digits decode to 3·(n div 4) bytes, plus 1 or 2 for a last group of 2 or 3 digits |
| `Base64.Latin1` | scripts/main.js:15 | the binary string from `atob` has one character per byte, with char code equal to the byte |
| `Base64.Atob` | scripts/main.js:15 | every character `atob` returns has a code below 256 |
| `Base64.CharCodes` | scripts/main.js:16-20 | the output array is as long as the binary string; element i equals char code i whenever that code fits a byte |
| `Base64.CopyCharCodes` | scripts/main.js:16-20 | the copy loop produces exactly `CharCodes` of the decoded string |
| `Base64.UrlB64ToUint8Array` | scripts/main.js:11-22 | the decoder throws exactly when `atob` does; otherwise its bytes are the char codes of `atob`'s result, one for one |
| `Base64.UrlDigitsDecode` | scripts/main.js:12-15 | for a base64url string without `=`, `atob` sees exactly the translated digits with the padding removed, and accepts them |
| `Base64.UrlKeyLength` | scripts/main.js:11-22 | a base64url key of length n with n mod 4 ≠ 1 decodes to 3·(n div 4) + [0, –, 1, 2][n mod 4] bytes |
| `Base64.RejectsLengthOneModFour` | scripts/main.js:12-15 | a key without whitespace whose length is 1 mod 4 makes the decoder throw |
| `Base64.RejectsForeignCharacter` | scripts/main.js:13-15 | a character outside both alphabets that is neither whitespace nor `=` makes the decoder throw |
| `Base64.SextetsRoundTrip` | scripts/main.js:15 | the bit-stream decoding inverts the three-bytes-to-four-digits split |
| `Base64.UrlKeyRoundTrip` | scripts/main.js:11-22 | the decoder returns every byte string from its unpadded base64url encoding |
| `Base64.ZeroByteKey` | scripts/main.js:11-22 | any two-digit key `A` followed by `A`–`P` decodes to the single byte 0 |
| `Base64.NonCanonicalKeysCollide` | scripts/main.js:11-22 | `AB` and `AA` decode to the same bytes, and re-encoding gives `AA` |
| `Controller.UpdateSubscriptionOnServer` | scripts/main.js:112-121 | the panel is visible exactly when a subscription is given, and then shows its JSON; `null` hides it and keeps the old text; nothing else changes |
| `Controller.UpdateSubscriptionIdempotent` | scripts/main.js:112-121 | reporting the same subscription (or `null`) twice leaves the same page as reporting it once |
| `Controller.UpdateBtn` | scripts/main.js:69-85 | a denied permission gives the text "Push Messaging Blocked.", disables the button and hides the panel, whatever `isSubscribed` is; any other permission enables the button with "Disable Push Messaging" when subscribed and "Enable Push Messaging" otherwise; `isSubscribed` never changes |
| `Controller.InitializeUI` | scripts/main.js:42-66 | always attaches the listener; if `getSubscription()` rejects, nothing else changes; otherwise sets `isSubscribed` to whether a subscription exists, shows that subscription, then applies `updateBtn`'s rule |
| `Controller.Startup` | scripts/main.js:24-40 | without push support only the text changes to "Push Not Supported"; a failed registration changes nothing; a successful one leaves exactly the page `initializeUI` produces |
| `Controller.SubscribeUser` | scripts/main.js:87-110 | an unusable key leaves the page unchanged and stops after the fetch; otherwise a user-visible-only subscription is requested with the decoded key; a rejection only re-runs `updateBtn`; success sets `isSubscribed` and shows the new subscription |
| `Controller.UnsubscribeUser` | scripts/main.js:123-142 | in every outcome the page ends unsubscribed with the panel hidden; the revoke is attempted exactly when a subscription was found |
| `Controller.Click` | scripts/main.js:43-51 | a click on an enabled, listening button disables it and starts unsubscribe when subscribed, subscribe otherwise; an unusable key leaves the button disabled |
| `Controller.ClickPreservesCoherent` | scripts/main.js:43-142 | every click keeps two facts: the panel is only shown while subscribed, and an enabled button has a listener and the text matching `isSubscribed` |
| `Controller.StartupPreservesCoherent` | scripts/main.js:24-66 | start-up keeps the same two facts |
| `Controller.KeyFailureLeavesButtonDisabled` | scripts/main.js:43-90 | after a failed key fetch or decode, the button stays disabled with its old text, and the page ignores every later click |
| `Controller.ResubscribeShowsLatest` | scripts/main.js:87-141 | after subscribe, unsubscribe and subscribe, the page is subscribed and shows the subscription from the last subscribe |
| `Worker.Descriptor` | sw.js:29-43 | the body is the payload text; the actions are `yes`/"Yes" then `no`/"No"; `data.url` is "/about.html"; the vibration pattern is 200,100,200,100,200,100,400 |
| `Worker.OnPush` | sw.js:24-60 | a push with data shows one "Push Codelab" notification built from its text, then extends the event with that call's promise; a push without data shows nothing |
| `Worker.PushShowsExactlyOne` | sw.js:58-59 | exactly one effect is a `showNotification` call, and every `waitUntil` waits on it |
| `Worker.FindVisible` | sw.js:87 | the search returns the first visible client in enumeration order, or nothing when none is visible |
| `Worker.NavigateOnYes` | sw.js:83-97 | with a first visible client k, navigates k to the URL and then focuses k; with none visible, opens exactly one window at the URL |
| `Worker.CloseAll` | sw.js:74-79 | closes each displayed notification, in order |
| `Worker.OnNotificationClick` | sw.js:63-80 | closes the clicked notification first; routes only on `yes`; closes every displayed notification; makes no other kind of call |
| `Worker.YesRoutesToFirstVisible` | sw.js:68-91 | on `yes` with a visible client, the first visible client is navigated and focused, no other client is, and no window is opened |
| `Worker.YesWithoutVisibleOpensOneWindow` | sw.js:68-95 | on `yes` with no visible client (an empty list included), exactly one window is opened at the URL and no client is navigated or focused |
| `Worker.HiddenClientsUntouched` | sw.js:83-97 | a client that is not visible is never navigated or focused |

## Left out

- DOM lookups, event-listener wiring and console logging (scripts/main.js:3-6, 25-39): the DOM state they touch is fields of `Page`, and logging has no observable effect.
- A disabled button receives no clicks. `Click` models this DOM rule rather than any line of the scripts.
- `fetchAPI` and the copy button's `POST` (scripts/main.js:144-171) are opaque HTTP calls. The key fetch is only an input that either fails or yields a string.
- A `publicVapidKey` that is not a string is not modelled: the key is a `string` or the fetch failed.
- Service-worker registration and feature detection are platform calls. They are the boolean inputs of `Startup`.
- The page's initial markup (the button's first text and `disabled` flag) is not part of this model. `StartupPreservesCoherent` takes any page whose listener is not yet attached.
- Promise scheduling and interleaving between page and worker are left out. Each handler is one atomic transition.
- Worker.OnNotificationClick: the routing effects come before the close-all effects. The code starts these as two independent promise chains (sw.js:70 and sw.js:74), so their real order is not fixed.
- The promises returned by `navigate`, `focus` and `openWindow` are ignored by the code, and so by the model.
- The structure of a subscription and `JSON.stringify` are left out. A `Subscription` is opaque and carries its serialisation.
- Notifications whose `data` has no `url` are not modelled. Every notification this worker shows carries one.
- The commented-out "app already open" branch (sw.js:45-56) is dead code.
- JavaScript measures `length` in UTF-16 code units, while a Dafny `char` is a Unicode scalar value. The two differ only on characters outside the base64 alphabets, and `atob` rejects those either way.
- Base64.Atob: its own contract states only that every returned code is below 256. Its length, rejection and round-trip behaviour are stated by the lemmas `UrlKeyLength`, `RejectsLengthOneModFour`, `RejectsForeignCharacter` and `UrlKeyRoundTrip`.
- `Uint8Array` stores use the mod-256 `ToUint8` conversion. It is modelled, but never matters, because `atob` only returns codes below 256.
