# mailnotif — a Dafny model of the mail-notification core

mailnotif watches an IMAP inbox and turns new messages into desktop
notifications with two actions, "Open" (fetch the message to a temporary
`.eml` file and hand it to a mail viewer) and "Mark as read". Its logic lives in
`mailnotif.js`, wrapped around an IMAP library, a notification library and
process spawning. This project models that logic:

- **Online-state edge detector** (`onlineStateChanged`): module state `isOnline`
  and `mailclient`. Repeated values are suppressed. An offline→online edge sets
  one 250 ms connect timer. An online→offline edge closes the current client if
  there is one.
- **Connection and mailbox callbacks**: `connectMail` replaces the current
  client. The connect callback opens `INBOX` read-write, lists the last 25
  messages (`listMessages(-25)`) and notifies the `\Recent` ones in list order.
  The error callback reconnects the current client only on a timeout.
- **Notification text**: the sender line `name <address>`, the markup escape
  `escapeHTML` (`&` then `<`), and the coloured body.
- **Action dispatch**: "read" adds `\Seen`. "open" streams the message to
  `/tmp/mail-<UID>-<modSeq>.eml` and launches the viewer with that path as its
  last argument. When the viewer exits, `\Seen` is added only if the exit code
  is falsy. The notification is closed after either action has been dispatched.
- **Reachability sources**: NetworkManager, wpa_supplicant and ConnMan, reduced
  to the boolean each feeds into the edge detector. With no source configured,
  the watcher connects once at start-up.

The pure logic is written as functions with lemmas (`text.dfy`, `messages.dfy`,
`reachability.dfy`). The module state is the class `Notifier.MailNotifier`
(`notifier.dfy`). Its fields are `isOnline`, `mailclient` and the pushed
notifications. Every library call it makes is appended to the log `effects`:
timer, connection, mailbox, notification, viewer and flag calls. Each callback
is a method. What the library hands to the callback (error object, listing,
exit code) is a parameter of that method. Its `ensures` gives the new log in
terms of the old state and a function of the inputs. The lemmas state what
those functions promise.

The object invariant `Valid()` says:

- the current client is always the most recently created one;
- every connect scheduled has either fired or is still pending, and none is
  scheduled when no reachability source is configured;
- every logged call names an existing client and an existing notification.

Clients are numbered in creation order.

What the code does, where one might expect otherwise:

- Nothing cancels a pending connect timer.
- `connectMail` does not close the client it replaces.
- So the code does not promise that there are never two live connections, or
  that an off/on flap shorter than 250 ms makes no connect.
  `Notifier.FlappingScenario` shows both happening.
- The viewer's exit is tested with JavaScript truthiness. A `null` code (the
  process was ended by a signal) also marks the message seen, not only code 0.
- A second "Mark as read" issues a second `addFlags`.
- Every callback acts on the *current* `mailclient`. This holds even when the
  callback was registered on an older client: the error handler reconnects the
  newest client, and the viewer's exit marks the message seen through it.
- Notifications are not deduplicated. Each listed or pushed recent message gets
  its own notification.
- No temporary file is removed.
- Only the first-stage command `mailer.cmd`/`mailer.args` is used, with no
  text/HTML part selection.

## Model

| member | source | states |
|---|---|---|
| `Text.ReplaceAllWithoutMatch` | mailnotif.js:41-44 | a global literal `replace` leaves a string without the pattern's first character unchanged |
| `Text.EscapeHTMLIsPerChar` | mailnotif.js:41-44 | the two chained replaces (`&` first, then `<`) equal escaping each character on its own, so an introduced `&lt;` is never escaped again |
| `Text.EscapeHTML` | mailnotif.js:41-44 | the escaped text contains no `<`, so it cannot open a tag |
| `Text.EscapeLeavesPlainText` | mailnotif.js:41-44 | text without `&` and `<` (for instance with `>`) comes out unchanged |
| `Text.EscapeRoundTrip` | mailnotif.js:41-44 | replacing `&lt;` by `<` and then `&amp;` by `&` restores any input |
| `Text.DecimalString` | mailnotif.js:50 | a number concatenated into a string is a non-empty digit string without leading zero |
| `Text.DecimalRoundTrip` | mailnotif.js:50 | reading the rendered digits back gives the number |
| `Messages.Sender` | mailnotif.js:73-74 | the sender line is empty exactly when the message has no `from` |
| `Messages.SenderRoundTrip` | mailnotif.js:73-74 | name and address can be split back out of `name <address>` when the address holds no `<` |
| `Messages.Body` | mailnotif.js:72-78 | sender line and subject can be recovered from the body: the first `<` after the opening tag starts `</span>`, and un-escaping each part restores it |
| `Messages.BodyMarkupOnlyInTags` | mailnotif.js:77-78 | the only `<` in a body are at the opening and the closing span tag, whatever sender and subject hold |
| `Messages.IndexOf` | mailnotif.js:96 | `indexOf` is -1 exactly when the flag is absent, else the position of its first occurrence |
| `Messages.IsMailRecent` | mailnotif.js:95-97 | a message is recent iff `\Recent` is among its flags |
| `Messages.RecentOnly` | mailnotif.js:106 | the filtered listing holds exactly the recent messages of the listing |
| `Messages.RecentOnlyAppend` | mailnotif.js:106 | filtering distributes over concatenation, so recent messages keep their list order |
| `Messages.RecentOnlyAllRecent` | mailnotif.js:106 | a listing of recent messages only is handled in full, unchanged |
| `Messages.TempFileName` | mailnotif.js:50 | the UID and modSeq of the message can be parsed back from the name of its temporary file |
| `Messages.TempFileRoundTrip` | mailnotif.js:50 | the UID and modSeq can be parsed back from `/tmp/mail-<UID>-<modSeq>.eml` |
| `Messages.TempFileNameInjective` | mailnotif.js:50 | two different (UID, modSeq) pairs never share a temporary file |
| `Messages.ClassifyError` | mailnotif.js:111-120 | `EHOSTUNREACH` wins over a `TimeoutError` type; otherwise `ETIMEDOUT` or `TimeoutError` means reconnect; anything else is only reported |
| `Messages.ViewerMarksSeen` | mailnotif.js:55-57 | the message is marked seen unless the exit code is present and non-zero |
| `Reachability.NmStateOnline` | mailnotif.js:150-155 | `CONNECTED_GLOBAL` means online, states up to `CONNECTING` mean offline, the states in between are ignored |
| `Reachability.WpaStateOnline` | mailnotif.js:162-164 | a wpa_supplicant state means online exactly when it is `completed` |
| `Reachability.ConnmanStateOnline` | mailnotif.js:171-173 | a ConnMan `State` means online exactly when it is `online` |
| `Reachability.ConnmanPropertyOnline` | mailnotif.js:171-181 | only the `State` property is looked at, and it means online exactly when it is `online` |
| `Reachability.EdgesAlternate` | mailnotif.js:137-139 | the values acted upon alternate and the first differs from the starting state |
| `Reachability.EdgesReachFinalState` | mailnotif.js:137-139 | suppressing repeats never loses the last reported state |
| `Notifier.EdgeEffects` | mailnotif.js:140-145 | acting on "online" schedules a connect and does nothing else; acting on "offline" closes the current client exactly once if there is one, and does nothing otherwise |
| `Notifier.OnlineStateEffects` | mailnotif.js:137-146 | a repeated value does nothing; off→on schedules exactly one connect after 250 ms; on→off closes the current client if there is one, and does nothing else |
| `Notifier.SignalsFollowEdges` | mailnotif.js:137-146 | a run of the handler over any sequence of values does exactly what its edges call for |
| `Notifier.OneConnectPerRisingEdge` | mailnotif.js:140-141 | the number of connects scheduled equals the number of off→on edges |
| `Notifier.ErrorEffects` | mailnotif.js:111-120 | only a timeout that is not a host-unreachable error calls `connect()`, once, on the current client |
| `Notifier.NotificationFor` | mailnotif.js:78-87 | the notification for a message gets the next number, app name "mail", summary "New mail" and the actions `open` ("Open") and `read` ("Mark as read") |
| `Notifier.NotificationShowsMessage` | mailnotif.js:72-81 | the notification's body gives back the message's sender line and subject |
| `Notifier.ActionEffects` | mailnotif.js:47-91 | "read" adds `\Seen` to the message's UID and "open" streams it to `/tmp/mail-<UID>-<modSeq>.eml` (a name from which UID and modSeq parse back), each followed by closing the notification; an unknown key does nothing; no other client or notification is touched |
| `Notifier.OfferedActionsDispatch` | mailnotif.js:83-89 | an action key does something exactly when the notification offers it |
| `Notifier.ViewerLaunch` | mailnotif.js:52-54 | the viewer gets the configured arguments followed by `/tmp/mail-<UID>-<modSeq>.eml` of this very message, from which its UID and modSeq parse back |
| `Notifier.ViewerExitEffects` | mailnotif.js:55-60 | `\Seen` is added on exit code 0 or null; a non-zero code changes no flag |
| `Notifier.FlappingScenario` | mailnotif.js:126-146 | off→on→off→on before the timer fires creates two clients, and the next offline edge closes only the newer one |
| `Notifier.MailNotifier.constructor` | mailnotif.js:185-188 | the watcher starts offline; with no reachability source configured (an empty wpa_supplicant interface name counts as none) it creates and connects a client at once, otherwise it does nothing |
| `Notifier.MailNotifier.ConnectMail` | mailnotif.js:126-135 | a new client becomes current and is connected; the previous one is not closed |
| `Notifier.MailNotifier.FireConnectTimer` | mailnotif.js:141 | a pending timer runs `connectMail` whatever the online state is by then, and one fewer timer is pending |
| `Notifier.MailNotifier.OnlineStateChanged` | mailnotif.js:137-146 | `isOnline` becomes the reported value and the log grows by `OnlineStateEffects` of the old state |
| `Notifier.MailNotifier.OnNmState` | mailnotif.js:150-156 | a NetworkManager state is passed on as online or offline, or ignored; one more timer is pending exactly after an off→on edge |
| `Notifier.MailNotifier.OnWpaState` | mailnotif.js:162-164 | only registered for a non-empty interface name; the wpa_supplicant state is passed on as online exactly when it is `completed`; one more timer is pending exactly after an off→on edge |
| `Notifier.MailNotifier.OnConnmanProperties` | mailnotif.js:174-177 | ConnMan's initial `State` is passed on, with one more pending timer exactly after an off→on edge; a failed query changes nothing |
| `Notifier.MailNotifier.OnConnmanPropertyChanged` | mailnotif.js:178-181 | a `State` change is passed on, with one more pending timer exactly after an off→on edge; other properties change nothing |
| `Notifier.MailNotifier.OnMailClientConnect` | mailnotif.js:99-101 | the current client opens `INBOX` with `readOnly: false` |
| `Notifier.MailNotifier.OnMailboxOpened` | mailnotif.js:101-104 | on success the last 25 messages are listed; on error nothing happens |
| `Notifier.MailNotifier.OnMessagesListed` | mailnotif.js:104-107 | exactly the recent messages get notifications, one each, in list order; a failed listing changes nothing |
| `Notifier.MailNotifier.HandleEach` | mailnotif.js:106 | `forEach(handleMail)`: each message gets its notification, numbered in list order, and nothing else changes |
| `Notifier.MailNotifier.HandleMail` | mailnotif.js:72-93 | one notification is pushed with app name "mail", summary "New mail", the escaped body and the two actions |
| `Notifier.MailNotifier.OnMailClientError` | mailnotif.js:111-120 | the log grows by `ErrorEffects` for the current client; no other state changes |
| `Notifier.MailNotifier.OnNotificationAction` | mailnotif.js:88-91 | the log grows by `ActionEffects` for the notification's message and the current client |
| `Notifier.MailNotifier.OnMessageStreamEnd` | mailnotif.js:52-54 | the viewer is launched on the message's temporary file |
| `Notifier.MailNotifier.OnViewerClose` | mailnotif.js:55-60 | the log grows by `ViewerExitEffects` for the current client |

## Left out

- The IMAP library (`inbox`): connection, mailbox opening, listing, message streams, `addFlags`. Each call is an `Effect` in the log, and each result is a parameter of the callback method that receives it.
- The notification library, `setTimeout` timing, process spawning, file writes and streams: each is recorded as an `Effect` only. The pending timer is a counter, not a clock.
- `console` output, the date shown in the log line (mailnotif.js:75-76), `process.exit` when no configuration is found, and the `uncaughtException` handler. A handler that would throw records no further effect.
- `onMailClientDisconnect` (mailnotif.js:122-124): it only logs.
- The `Math.random` identifier (mailnotif.js:71): unused and nondeterministic.
- The callback passed to `addFlags` only logs an error, so it is not modelled.
- Configuration contents: host, port, options and credentials are opaque. The viewer command and arguments are constructor inputs. config.example.js exports `network` and `viewer`, while the code reads `networkManager`/`wpaSupplicant`/`connman` and `mailer.cmd`/`mailer.args`. The model follows what the code reads. `networkManager` and `connman` are their truthiness as booleans. `wpaSupplicant` is an optional interface name, and the empty name is falsy like an absent one.
- The nm-state package is not part of this model. Its two constants are taken to be NetworkManager's `NM_STATE_CONNECTING` (40) and `NM_STATE_CONNECTED_GLOBAL` (70).
- Messages.Sender: `address` and `name` are taken to be strings. JavaScript would also render `undefined` parts as text, which is not modelled.
- Text.DecimalString: UID and modSeq are modelled as non-negative integers rendered in plain decimal. JavaScript's exponent notation for numbers of 10^21 and above is not modelled.
- Notifier.ActionEffects: only the keys `open` and `read` dispatch. Inherited object properties used as keys are not modelled.
- Notifier.MailNotifier.OnNotificationAction: does not track which notifications are closed. The notification library is assumed not to report an action on a closed notification.
