/**
 * The watcher's module-level state (the online flag and the current mailbox
 * client) and the event handlers that read and update it. Every call into a
 * library (timer, mailbox client, notification, viewer process) is recorded as
 * an `Effect` appended to a log; what a library hands back to a callback is a
 * parameter of the handler that models that callback.
 */
module Notifier {
  import opened Common
  import opened Messages
  import Reachability

  /** A mailbox client, numbered in the order `createConnection` made them. */
  type Client = nat

  datatype Effect =
    | ScheduleConnect(delayMs: nat)                              // setTimeout(connectMail, delay)
    | CreateConnection(client: Client)                           // inbox.createConnection(...)
    | Connect(client: Client)                                    // client.connect()
    | Close(client: Client)                                      // client._close()
    | OpenMailbox(client: Client, path: string, readOnly: bool)  // client.openMailbox(path, {readOnly})
    | ListMessages(client: Client, from: int)                    // client.listMessages(from)
    | PushNotification(notification: nat, appName: string, summary: string, body: string,
                       actions: seq<(string, string)>)     // createNotification({...}).push()
    | StreamMessage(client: Client, uid: nat, file: string)      // createMessageStream(uid) piped to file
    | SpawnViewer(cmd: string, args: seq<string>)
    | AddFlags(client: Client, uid: nat, flag: string)
    | CloseNotification(notification: nat)

  /** Delay before connecting after the network comes up, in milliseconds. */
  const ConnectDelayMs: nat := 250

  const Mailbox: string := "INBOX"
  const AppName: string := "mail"
  const NotificationSummary: string := "New mail"

  /** The action buttons of every notification, as (key, label) pairs in display order. */
  const NotificationActions: seq<(string, string)> := [("open", "Open"), ("read", "Mark as read")]

  // ---------------------------------------------------------------------------
  // Effects of one handler, as functions of what the handler reads

  /**
   * What `onlineStateChanged` does once it has decided to act on `online`:
   * going online only schedules a connect, going offline only closes the
   * current client, if there is one.
   */
  function EdgeEffects(client: Option<Client>, online: bool): (r: seq<Effect>)
    ensures ScheduleConnect(ConnectDelayMs) in r <==> online
    ensures online ==> |r| == 1
    ensures !online ==> r == (if client.Some? then [Close(client.value)] else [])
  {
    if online then [ScheduleConnect(ConnectDelayMs)]
    else if client.Some? then [Close(client.value)]
    else []
  }

  /** The effects of `onlineStateChanged(online)` when the current state is `wasOnline`. */
  function OnlineStateEffects(wasOnline: bool, client: Option<Client>, online: bool): (r: seq<Effect>)
    ensures online == wasOnline ==> r == []
    ensures !wasOnline && online ==> r == [ScheduleConnect(ConnectDelayMs)]
    ensures wasOnline && !online ==> r == (if client.Some? then [Close(client.value)] else [])
    ensures forall e :: e in r && e.Close? ==> Some(e.client) == client
  {
    if online == wasOnline then [] else EdgeEffects(client, online)
  }

  /** The effects of `onMailClientError(err)` when `client` is the current client. */
  function ErrorEffects(client: Client, err: TransportError): (r: seq<Effect>)
    ensures err.code == Some("EHOSTUNREACH") ==> r == []
    ensures IsTimeout(err) && err.code != Some("EHOSTUNREACH") ==> r == [Connect(client)]
    ensures !IsTimeout(err) ==> r == []
  {
    if ClassifyError(err) == ReconnectNow then [Connect(client)] else []
  }

  /**
   * The notification `handleMail` pushes for `m` as notification number `n`
   * (`NotificationShowsMessage`: its body gives back the sender line and the
   * subject of `m`).
   */
  function NotificationFor(n: nat, m: Message): (r: Effect)
    ensures r.PushNotification? && r.notification == n && r.appName == AppName && r.summary == NotificationSummary
    ensures r.actions == NotificationActions
  {
    PushNotification(n, AppName, NotificationSummary, Body(m.from, m.title), NotificationActions)
  }

  /** A pushed notification shows who sent the message and its subject, and nothing else. */
  lemma NotificationShowsMessage(n: nat, m: Message)
    ensures DecodeBody(NotificationFor(n, m).body) == Some((Sender(m.from), m.title))
  {
  }

  /** The notifications pushed for `ms`, numbered from `first`, in list order. */
  function NotifyEffects(first: nat, ms: seq<Message>): seq<Effect>
  {
    seq(|ms|, i requires 0 <= i < |ms| => NotificationFor(first + i, ms[i]))
  }

  lemma NotifyEffectsExtend(first: nat, ms: seq<Message>, i: nat)
    requires i < |ms|
    ensures ms[..i + 1] == ms[..i] + [ms[i]]
    ensures NotifyEffects(first, ms[..i + 1]) == NotifyEffects(first, ms[..i]) + [NotificationFor(first + i, ms[i])]
  {
  }

  /**
   * The effects of choosing `action` on notification `n`, which shows `m`:
   * the action's own call on the current client, then closing the notification.
   * A key other than `open` or `read` names no handler, so the call throws
   * before the notification is closed.
   */
  function ActionEffects(client: Client, n: nat, m: Message, action: string): (r: seq<Effect>)
    ensures action == "read" ==> r == [AddFlags(client, m.uid, SeenFlag), CloseNotification(n)]
    ensures action == "open" ==>
      |r| == 2 && r[0].StreamMessage? && r[0].uid == m.uid && r[0].file == TempFileName(m.uid, m.modSeq) &&
      ParseTempFile(r[0].file) == Some((m.uid, m.modSeq)) && r[1] == CloseNotification(n)
    ensures action != "open" && action != "read" ==> r == []
    ensures forall e :: e in r ==> e == CloseNotification(n) || ((e.StreamMessage? || e.AddFlags?) && e.client == client)
  {
    if action == "open" then
      [StreamMessage(client, m.uid, TempFileName(m.uid, m.modSeq)), CloseNotification(n)]
    else if action == "read" then
      [AddFlags(client, m.uid, SeenFlag), CloseNotification(n)]
    else []
  }

  /** Exactly the keys the notification offers dispatch to a handler; any other key does nothing. */
  lemma OfferedActionsDispatch(client: Client, n: nat, m: Message, action: string)
    ensures ActionEffects(client, n, m, action) != [] <==>
      exists i :: 0 <= i < |NotificationActions| && NotificationActions[i].0 == action
  {
    if action == "open" {
      assert NotificationActions[0].0 == action;
    } else if action == "read" {
      assert NotificationActions[1].0 == action;
    }
  }

  /** Launching the viewer once the message has been written: the file is the last argument. */
  function ViewerLaunch(cmd: string, args: seq<string>, m: Message): (r: Effect)
    ensures r.SpawnViewer? && r.cmd == cmd && |r.args| == |args| + 1 && r.args[..|args|] == args
    ensures r.args[|args|] == TempFileName(m.uid, m.modSeq)
    ensures ParseTempFile(r.args[|args|]) == Some((m.uid, m.modSeq))
  {
    SpawnViewer(cmd, args + [TempFileName(m.uid, m.modSeq)])
  }

  /** After the viewer exits, the message is marked seen only when the exit code is falsy. */
  function ViewerExitEffects(client: Client, m: Message, code: Option<int>): (r: seq<Effect>)
    ensures code == Some(0) || code.None? ==> r == [AddFlags(client, m.uid, SeenFlag)]
    ensures code.Some? && code.value != 0 ==> r == []
  {
    if ViewerMarksSeen(code) then [AddFlags(client, m.uid, SeenFlag)] else []
  }

  // ---------------------------------------------------------------------------
  // Runs of the online-state handler

  /** The effects of `onlineStateChanged` called with each of `signals` in turn. */
  function SignalsEffects(wasOnline: bool, client: Option<Client>, signals: seq<bool>): seq<Effect>
    decreases |signals|
  {
    if signals == [] then []
    else OnlineStateEffects(wasOnline, client, signals[0]) + SignalsEffects(signals[0], client, signals[1..])
  }

  /** The effects of acting on each of `edges` in turn. */
  function EdgesEffects(client: Option<Client>, edges: seq<bool>): seq<Effect>
    decreases |edges|
  {
    if edges == [] then [] else EdgeEffects(client, edges[0]) + EdgesEffects(client, edges[1..])
  }

  /** Number of connects scheduled in an effect log. */
  function ScheduledConnects(log: seq<Effect>): nat
    decreases |log|
  {
    if log == [] then 0
    else (if log[0].ScheduleConnect? then 1 else 0) + ScheduledConnects(log[1..])
  }

  /** Number of rising edges in a sequence of acted-upon values. */
  function RisingEdges(edges: seq<bool>): nat
    decreases |edges|
  {
    if edges == [] then 0 else (if edges[0] then 1 else 0) + RisingEdges(edges[1..])
  }

  lemma {:induction false} ScheduledConnectsAppend(a: seq<Effect>, b: seq<Effect>)
    ensures ScheduledConnects(a + b) == ScheduledConnects(a) + ScheduledConnects(b)
    decreases |a|
  {
    if a == [] {
      assert a + b == b;
    } else {
      assert (a + b)[1..] == a[1..] + b;
      ScheduledConnectsAppend(a[1..], b);
    }
  }

  lemma {:induction false} NoScheduledConnects(log: seq<Effect>)
    requires forall e :: e in log ==> !e.ScheduleConnect?
    ensures ScheduledConnects(log) == 0
    decreases |log|
  {
    if log != [] {
      assert forall e :: e in log[1..] ==> e in log;
      NoScheduledConnects(log[1..]);
    }
  }

  /** Repeated values have no effect: a run of the handler does exactly what its edges call for. */
  lemma {:induction false} SignalsFollowEdges(wasOnline: bool, client: Option<Client>, signals: seq<bool>)
    ensures SignalsEffects(wasOnline, client, signals) == EdgesEffects(client, Reachability.Edges(wasOnline, signals))
    decreases |signals|
  {
    if signals != [] {
      SignalsFollowEdges(signals[0], client, signals[1..]);
      if signals[0] != wasOnline {
        var e := Reachability.Edges(signals[0], signals[1..]);
        assert ([signals[0]] + e)[1..] == e;
      }
    }
  }

  /** Exactly one connect is scheduled per offline-to-online edge, and none otherwise. */
  lemma {:induction false} OneConnectPerRisingEdge(client: Option<Client>, edges: seq<bool>)
    ensures ScheduledConnects(EdgesEffects(client, edges)) == RisingEdges(edges)
    decreases |edges|
  {
    if edges != [] {
      OneConnectPerRisingEdge(client, edges[1..]);
      ScheduledConnectsAppend(EdgeEffects(client, edges[0]), EdgesEffects(client, edges[1..]));
    }
  }

  // ---------------------------------------------------------------------------
  // The watcher's state

  /** The effect refers only to clients created so far and notifications pushed so far. */
  predicate EffectInRange(e: Effect, clients: nat, notifications: nat)
  {
    (!e.ScheduleConnect? && !e.PushNotification? && !e.SpawnViewer? && !e.CloseNotification? ==> e.client < clients) &&
    ((e.PushNotification? || e.CloseNotification?) ==> e.notification < notifications)
  }

  /** Pushing notification `n` keeps every logged effect, and the push itself, in range. */
  lemma PushInRange(effects: seq<Effect>, clients: nat, m: Message, n: nat)
    requires forall i :: 0 <= i < |effects| ==> EffectInRange(effects[i], clients, n)
    ensures forall i :: 0 <= i < |effects| ==> EffectInRange(effects[i], clients, n + 1)
    ensures forall e :: e in [NotificationFor(n, m)] ==> EffectInRange(e, clients, n + 1) && !e.ScheduleConnect?
  {
  }

  class MailNotifier {
    // configuration, read once at start-up
    const networkManager: bool
    const wpaSupplicant: Option<string>
    const connman: bool
    const mailerCmd: string
    const mailerArgs: seq<string>

    // module state
    var isOnline: bool
    var mailclient: Option<Client>

    /** Number of clients created so far; client `k` is the `k`-th. */
    var connections: nat
    /** Timers set by the online handler that have not fired yet. */
    var pendingConnects: nat
    /** Notification `n` shows message `notifications[n]`. */
    var notifications: seq<Message>
    /** Every library call made so far, in order. */
    var effects: seq<Effect>
    /** Timers that have fired. */
    ghost var firedConnects: nat

    /** True when no reachability source is configured, so the watcher connects at start-up. */
    predicate NoNetworkSource()
      reads this
    {
      !networkManager && !WpaConfigured() && !connman
    }

    /** `config.wpaSupplicant` is truthy: present and not the empty interface name. */
    predicate WpaConfigured()
      reads this
    {
      wpaSupplicant.Some? && wpaSupplicant.value != ""
    }

    ghost predicate Valid()
      reads this
    {
      // the current client is always the most recently created one
      mailclient == (if connections == 0 then None else Some(connections - 1)) &&
      // every connect scheduled has fired or is pending
      ScheduledConnects(effects) == firedConnects + pendingConnects &&
      // only the online handler sets a timer, and only a reachability source calls it
      (NoNetworkSource() ==> firedConnects == 0 && pendingConnects == 0) &&
      forall i :: 0 <= i < |effects| ==> EffectInRange(effects[i], connections, |notifications|)
    }

    constructor (networkManager: bool, wpaSupplicant: Option<string>, connman: bool,
                 mailerCmd: string, mailerArgs: seq<string>)
      ensures Valid()
      ensures this.networkManager == networkManager && this.wpaSupplicant == wpaSupplicant
      ensures this.connman == connman && this.mailerCmd == mailerCmd && this.mailerArgs == mailerArgs
      ensures !isOnline && pendingConnects == 0 && notifications == []
      ensures NoNetworkSource() ==> mailclient == Some(0) && effects == [CreateConnection(0), Connect(0)]
      ensures !NoNetworkSource() ==> mailclient == None && effects == []
    {
      this.networkManager, this.wpaSupplicant, this.connman := networkManager, wpaSupplicant, connman;
      this.mailerCmd, this.mailerArgs := mailerCmd, mailerArgs;
      isOnline, mailclient, connections := false, None, 0;
      pendingConnects, notifications, effects, firedConnects := 0, [], [], 0;
      new;
      if NoNetworkSource() {
        ConnectMail();
      }
    }

    /** `connectMail`: a new client becomes the current one and connects; the previous one is not closed. */
    method ConnectMail()
      requires Valid()
      modifies this
      ensures Valid()
      ensures mailclient == Some(old(connections)) && connections == old(connections) + 1
      ensures effects == old(effects) + [CreateConnection(old(connections)), Connect(old(connections))]
      ensures isOnline == old(isOnline) && notifications == old(notifications)
      ensures pendingConnects == old(pendingConnects) && firedConnects == old(firedConnects)
    {
      var c := connections;
      ScheduledConnectsAppend(effects, [CreateConnection(c), Connect(c)]);
      assert ScheduledConnects([CreateConnection(c), Connect(c)]) == 0 by {
        assert [CreateConnection(c), Connect(c)][1..] == [Connect(c)];
        assert [Connect(c)][1..] == [];
        assert ScheduledConnects([Connect(c)]) == 0;
      }
      effects := effects + [CreateConnection(c), Connect(c)];
      connections := connections + 1;
      mailclient := Some(c);
    }

    /** A 250 ms timer set on an online edge fires: it connects, whatever the online state is by now. */
    method FireConnectTimer()
      requires Valid() && pendingConnects > 0
      modifies this
      ensures Valid()
      ensures pendingConnects == old(pendingConnects) - 1
      ensures mailclient == Some(old(connections)) && connections == old(connections) + 1
      ensures effects == old(effects) + [CreateConnection(old(connections)), Connect(old(connections))]
      ensures isOnline == old(isOnline) && notifications == old(notifications)
    {
      pendingConnects, firedConnects := pendingConnects - 1, firedConnects + 1;
      ConnectMail();
    }

    /** `onlineStateChanged(online)`, called only by the handler of a configured reachability source. */
    method OnlineStateChanged(online: bool)
      requires Valid() && !NoNetworkSource()
      modifies this
      ensures Valid()
      ensures isOnline == online
      ensures effects == old(effects) + OnlineStateEffects(old(isOnline), old(mailclient), online)
      ensures pendingConnects == old(pendingConnects) + (if online && !old(isOnline) then 1 else 0)
      ensures mailclient == old(mailclient) && connections == old(connections)
      ensures notifications == old(notifications)
    {
      if online == isOnline {
        return;
      }
      isOnline := online;
      var added := EdgeEffects(mailclient, online);
      ScheduledConnectsAppend(effects, added);
      assert ScheduledConnects(added) == (if online then 1 else 0);
      assert forall e :: e in added ==> EffectInRange(e, connections, |notifications|);
      effects := effects + added;
      if online {
        pendingConnects := pendingConnects + 1;
      }
    }

    // -------------------------------------------------------------------------
    // Reachability sources, each registered only when configured

    /** The NetworkManager state callback. */
    method OnNmState(state: int)
      requires Valid() && networkManager
      modifies this
      ensures Valid()
      ensures Reachability.NmStateOnline(state).None? ==>
        isOnline == old(isOnline) && effects == old(effects) && pendingConnects == old(pendingConnects)
      ensures Reachability.NmStateOnline(state).Some? ==>
        var online := Reachability.NmStateOnline(state).value;
        isOnline == online &&
        effects == old(effects) + OnlineStateEffects(old(isOnline), old(mailclient), online) &&
        pendingConnects == old(pendingConnects) + (if online && !old(isOnline) then 1 else 0)
      ensures mailclient == old(mailclient) && notifications == old(notifications)
    {
      match Reachability.NmStateOnline(state)
      case Some(online) => OnlineStateChanged(online);
      case None =>
    }

    /** The wpa_supplicant `state` event. */
    method OnWpaState(state: string)
      requires Valid() && WpaConfigured()
      modifies this
      ensures Valid()
      ensures isOnline == Reachability.WpaStateOnline(state)
      ensures effects == old(effects) + OnlineStateEffects(old(isOnline), old(mailclient), isOnline)
      ensures pendingConnects == old(pendingConnects) + (if isOnline && !old(isOnline) then 1 else 0)
      ensures mailclient == old(mailclient) && notifications == old(notifications)
    {
      OnlineStateChanged(Reachability.WpaStateOnline(state));
    }

    /** The answer to ConnMan's `getProperties`: its `State`, or a failure, which is only reported. */
    method OnConnmanProperties(state: Outcome<string>)
      requires Valid() && connman
      modifies this
      ensures Valid()
      ensures state.Failed? ==>
        isOnline == old(isOnline) && effects == old(effects) && pendingConnects == old(pendingConnects)
      ensures state.Ok? ==>
        isOnline == Reachability.ConnmanStateOnline(state.value) &&
        effects == old(effects) + OnlineStateEffects(old(isOnline), old(mailclient), isOnline) &&
        pendingConnects == old(pendingConnects) + (if isOnline && !old(isOnline) then 1 else 0)
      ensures mailclient == old(mailclient) && notifications == old(notifications)
    {
      if state.Ok? {
        OnlineStateChanged(Reachability.ConnmanStateOnline(state.value));
      }
    }

    /** ConnMan's `PropertyChanged` signal. */
    method OnConnmanPropertyChanged(name: string, value: string)
      requires Valid() && connman
      modifies this
      ensures Valid()
      ensures name != "State" ==>
        isOnline == old(isOnline) && effects == old(effects) && pendingConnects == old(pendingConnects)
      ensures name == "State" ==>
        isOnline == Reachability.ConnmanStateOnline(value) &&
        effects == old(effects) + OnlineStateEffects(old(isOnline), old(mailclient), isOnline) &&
        pendingConnects == old(pendingConnects) + (if isOnline && !old(isOnline) then 1 else 0)
      ensures mailclient == old(mailclient) && notifications == old(notifications)
    {
      match Reachability.ConnmanPropertyOnline(name, value)
      case Some(online) => OnlineStateChanged(online);
      case None =>
    }

    // -------------------------------------------------------------------------
    // Callbacks of the mailbox client; each acts on the current client

    /** `onMailClientConnect`: open the inbox for reading and writing. */
    method OnMailClientConnect()
      requires Valid() && mailclient.Some?
      modifies this
      ensures Valid()
      ensures effects == old(effects) + [OpenMailbox(old(mailclient.value), Mailbox, false)]
      ensures mailclient == old(mailclient) && isOnline == old(isOnline)
      ensures notifications == old(notifications) && pendingConnects == old(pendingConnects)
    {
      AppendEffects([OpenMailbox(mailclient.value, Mailbox, false)]);
    }

    /** The `openMailbox` callback: on success, list the most recent messages. */
    method OnMailboxOpened(ok: bool)
      requires Valid() && mailclient.Some?
      modifies this
      ensures Valid()
      ensures effects == old(effects) + (if ok then [ListMessages(old(mailclient.value), InitialSyncFrom)] else [])
      ensures mailclient == old(mailclient) && isOnline == old(isOnline)
      ensures notifications == old(notifications) && pendingConnects == old(pendingConnects)
    {
      if ok {
        AppendEffects([ListMessages(mailclient.value, InitialSyncFrom)]);
      }
    }

    /** The `listMessages` callback: notify each recent message, in list order. */
    method OnMessagesListed(listing: Outcome<seq<Message>>)
      requires Valid()
      modifies this
      ensures Valid()
      ensures listing.Failed? ==> notifications == old(notifications) && effects == old(effects)
      ensures listing.Ok? ==>
        notifications == old(notifications) + RecentOnly(listing.value) &&
        effects == old(effects) + NotifyEffects(|old(notifications)|, RecentOnly(listing.value))
      ensures mailclient == old(mailclient) && isOnline == old(isOnline)
      ensures pendingConnects == old(pendingConnects)
    {
      if listing.Ok? {
        HandleEach(RecentOnly(listing.value));
      }
    }

    /** `forEach(handleMail)`: one notification per message, in order. */
    method HandleEach(ms: seq<Message>)
      requires Valid()
      modifies this
      ensures Valid()
      ensures notifications == old(notifications) + ms
      ensures effects == old(effects) + NotifyEffects(|old(notifications)|, ms)
      ensures mailclient == old(mailclient) && isOnline == old(isOnline)
      ensures pendingConnects == old(pendingConnects)
    {
      var first := |notifications|;
      for i := 0 to |ms|
        invariant Valid()
        invariant notifications == old(notifications) + ms[..i]
        invariant effects == old(effects) + NotifyEffects(first, ms[..i])
        invariant mailclient == old(mailclient) && isOnline == old(isOnline)
        invariant pendingConnects == old(pendingConnects)
      {
        NotifyEffectsExtend(first, ms, i);
        HandleMail(ms[i]);
        assert notifications == old(notifications) + ms[..i + 1];
      }
      assert ms[..|ms|] == ms;
    }

    /** `handleMail`, also the handler of the client's `new` event: push a notification for `m`. */
    method HandleMail(m: Message)
      requires Valid()
      modifies this
      ensures Valid()
      ensures notifications == old(notifications) + [m]
      ensures effects == old(effects) + [NotificationFor(|old(notifications)|, m)]
      ensures mailclient == old(mailclient) && isOnline == old(isOnline)
      ensures pendingConnects == old(pendingConnects)
    {
      var n := |notifications|;
      var push := NotificationFor(n, m);
      PushInRange(effects, connections, m, n);
      notifications := notifications + [m];
      AppendEffects([push]);
    }

    /** `onMailClientError`: reconnect the current client on a timeout only. */
    method OnMailClientError(err: TransportError)
      requires Valid() && mailclient.Some?
      modifies this
      ensures Valid()
      ensures effects == old(effects) + ErrorEffects(old(mailclient.value), err)
      ensures mailclient == old(mailclient) && isOnline == old(isOnline)
      ensures notifications == old(notifications) && pendingConnects == old(pendingConnects)
    {
      AppendEffects(ErrorEffects(mailclient.value, err));
    }

    // -------------------------------------------------------------------------
    // Notification actions and the viewer

    /** The notification's `action` event: dispatch on the action key, then close the notification. */
    method OnNotificationAction(n: nat, action: string)
      requires Valid() && mailclient.Some? && n < |notifications|
      modifies this
      ensures Valid()
      ensures effects == old(effects) + ActionEffects(old(mailclient.value), n, old(notifications[n]), action)
      ensures mailclient == old(mailclient) && isOnline == old(isOnline)
      ensures notifications == old(notifications) && pendingConnects == old(pendingConnects)
    {
      AppendEffects(ActionEffects(mailclient.value, n, notifications[n], action));
    }

    /** The end of the message stream started by `open`: launch the viewer on the written file. */
    method OnMessageStreamEnd(m: Message)
      requires Valid() && m in notifications
      modifies this
      ensures Valid()
      ensures effects == old(effects) + [ViewerLaunch(mailerCmd, mailerArgs, m)]
      ensures mailclient == old(mailclient) && isOnline == old(isOnline)
      ensures notifications == old(notifications) && pendingConnects == old(pendingConnects)
    {
      AppendEffects([ViewerLaunch(mailerCmd, mailerArgs, m)]);
    }

    /** The viewer's `close` event: mark the message seen, on the current client, if the code is falsy. */
    method OnViewerClose(m: Message, code: Option<int>)
      requires Valid() && mailclient.Some? && m in notifications
      modifies this
      ensures Valid()
      ensures effects == old(effects) + ViewerExitEffects(old(mailclient.value), m, code)
      ensures mailclient == old(mailclient) && isOnline == old(isOnline)
      ensures notifications == old(notifications) && pendingConnects == old(pendingConnects)
    {
      AppendEffects(ViewerExitEffects(mailclient.value, m, code));
    }

    /** Records library calls that schedule no connect and refer to existing clients and notifications. */
    method AppendEffects(added: seq<Effect>)
      requires Valid()
      requires forall e :: e in added ==> !e.ScheduleConnect?
      requires forall e :: e in added ==> EffectInRange(e, connections, |notifications|)
      modifies this`effects
      ensures Valid()
      ensures effects == old(effects) + added
    {
      ScheduledConnectsAppend(effects, added);
      NoScheduledConnects(added);
      effects := effects + added;
    }
  }

  /**
   * The network flaps off and on before the first timer fires, with
   * NetworkManager as the source: both timers connect, and the next offline
   * edge closes only the newer client. Nothing cancels a pending connect and
   * a new client does not close the previous one.
   */
  method FlappingScenario() returns (log: seq<Effect>)
    ensures log == [ScheduleConnect(ConnectDelayMs), ScheduleConnect(ConnectDelayMs),
                    CreateConnection(0), Connect(0), CreateConnection(1), Connect(1), Close(1)]
  {
    var w := new MailNotifier(true, None, false, "mailer", []);
    w.OnNmState(Reachability.NmStateConnectedGlobal);
    w.OnNmState(20);
    w.OnNmState(Reachability.NmStateConnectedGlobal);
    w.FireConnectTimer();
    w.FireConnectTimer();
    w.OnNmState(20);
    log := w.effects;
  }
}
