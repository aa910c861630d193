/**
  The transition handler of `GeofenceBroadcastReceiver`: a stateless
  classifier that turns one geofencing event into a list of effects on the
  device, namely a ringer-mode change, the creation of the notification
  channel and a notification posted to slot 0.

  Android services are abstracted into a `Device` record that says which
  services are present, the SDK level and whether notification-policy access
  is granted. Resource strings and drawables are symbolic names.
 */
module GeofenceBroadcastReceiver {
  import opened Platform

  /** A decoded `GeofencingEvent`: an error code when `hasError()` holds, and the transition. */
  datatype GeofencingEvent = GeofencingEvent(errorCode: Option<int>, transition: int)

  /** What the handler can observe of the device it runs on. */
  datatype Device = Device(
    sdkInt: int,
    hasNotificationManager: bool,
    policyAccessGranted: bool,
    hasAudioManager: bool)

  /** String resources the handler reads. */
  datatype StringRes =
    | NotificationChannelId
    | NotificationChannelName
    | SilentModeActivated
    | BackToNormal
    | TouchToRelaunch

  /** Drawable resources the handler reads. */
  datatype DrawableRes = IcVolumeOffWhite24dp | IcVolumeUpWhite24dp

  /** The tap action: the task-stack PendingIntent that relaunches the main activity. */
  datatype ContentIntent = RelaunchMainActivity

  /** The fields of the built notification; the large icon is named by the drawable it is decoded from. */
  datatype Notification = Notification(
    channelId: StringRes,
    smallIcon: Option<DrawableRes>,
    largeIcon: Option<DrawableRes>,
    contentTitle: Option<StringRes>,
    contentText: StringRes,
    contentIntent: ContentIntent,
    autoCancel: bool)

  datatype NotificationChannel = NotificationChannel(
    id: StringRes,
    name: StringRes,
    importance: int,
    description: string)

  /** A side effect on the device, in the order the handler performs them. */
  datatype Effect =
    | RingerModeSet(mode: int)
    | ChannelCreated(channel: NotificationChannel)
    | Posted(id: int, notification: Notification)

  const ChannelDescription: string := "Notificaton channel for Shushme."

  /** The channel `createNotificationChannel` registers. */
  const ShushmeChannel: NotificationChannel :=
    NotificationChannel(NotificationChannelId, NotificationChannelName, ImportanceDefault, ChannelDescription)

  // ---------------------------------------------------------------------
  // Reference description of what the handler is meant to do.
  // ---------------------------------------------------------------------

  /** The three outcomes of classifying one event. */
  datatype Classification = Rejected | Entering | Exiting

  /** Errors and every transition other than ENTER (1) and EXIT (2) are rejected. */
  function Classify(e: GeofencingEvent): Classification {
    if e.errorCode.Some? then Rejected
    else if e.transition == 1 then Entering
    else if e.transition == 2 then Exiting
    else Rejected
  }

  /** Entering silences the ringer (mode 0); exiting restores it (mode 2). */
  function TargetMode(c: Classification): int
    requires c != Rejected
  {
    if c == Entering then 0 else 2
  }

  /** The notification announcing the new state. */
  function NotificationFor(c: Classification): Notification
    requires c != Rejected
  {
    var icon := if c == Entering then IcVolumeOffWhite24dp else IcVolumeUpWhite24dp;
    var title := if c == Entering then SilentModeActivated else BackToNormal;
    Notification(NotificationChannelId, Some(icon), Some(icon), Some(title), TouchToRelaunch,
                 RelaunchMainActivity, true)
  }

  /**
    The ringer mode is applied only when the notification manager and the
    audio manager are both present and either the SDK is below N (24) or
    policy access is NOT granted.
   */
  predicate RingerGateOpen(d: Device) {
    d.hasNotificationManager && (d.sdkInt < 24 || !d.policyAccessGranted) && d.hasAudioManager
  }

  /** Ringer changes come first, channel creation second, the post last. */
  function Rank(e: Effect): nat {
    match e
    case RingerModeSet(_) => 0
    case ChannelCreated(_) => 1
    case Posted(_, _) => 2
  }

  /** Every kind of effect occurs at most once, in the order of `Rank`. */
  predicate Ordered(effects: seq<Effect>) {
    forall i, j :: 0 <= i < j < |effects| ==> Rank(effects[i]) < Rank(effects[j])
  }

  /** The ringer modes requested by an effect list, in order. */
  function RingerRequests(effects: seq<Effect>): seq<int> {
    if effects == [] then []
    else (if effects[0].RingerModeSet? then [effects[0].mode] else []) + RingerRequests(effects[1..])
  }

  /** The channels created by an effect list, in order. */
  function ChannelsCreated(effects: seq<Effect>): seq<NotificationChannel> {
    if effects == [] then []
    else (if effects[0].ChannelCreated? then [effects[0].channel] else []) + ChannelsCreated(effects[1..])
  }

  /** The (slot, notification) pairs posted by an effect list, in order. */
  function Posts(effects: seq<Effect>): seq<(int, Notification)> {
    if effects == [] then []
    else (if effects[0].Posted? then [(effects[0].id, effects[0].notification)] else []) + Posts(effects[1..])
  }

  lemma {:induction false} RingerRequestsOfConcat(a: seq<Effect>, b: seq<Effect>)
    ensures RingerRequests(a + b) == RingerRequests(a) + RingerRequests(b)
    decreases |a|
  {
    if a == [] {
      assert a + b == b;
    } else {
      assert (a + b)[0] == a[0];
      assert (a + b)[1..] == a[1..] + b;
      RingerRequestsOfConcat(a[1..], b);
    }
  }

  lemma {:induction false} ChannelsCreatedOfConcat(a: seq<Effect>, b: seq<Effect>)
    ensures ChannelsCreated(a + b) == ChannelsCreated(a) + ChannelsCreated(b)
    decreases |a|
  {
    if a == [] {
      assert a + b == b;
    } else {
      assert (a + b)[0] == a[0];
      assert (a + b)[1..] == a[1..] + b;
      ChannelsCreatedOfConcat(a[1..], b);
    }
  }

  lemma {:induction false} PostsOfConcat(a: seq<Effect>, b: seq<Effect>)
    ensures Posts(a + b) == Posts(a) + Posts(b)
    decreases |a|
  {
    if a == [] {
      assert a + b == b;
    } else {
      assert (a + b)[0] == a[0];
      assert (a + b)[1..] == a[1..] + b;
      PostsOfConcat(a[1..], b);
    }
  }

  /** The three projections distribute over concatenation. */
  lemma ProjectionsOfConcat(a: seq<Effect>, b: seq<Effect>)
    ensures RingerRequests(a + b) == RingerRequests(a) + RingerRequests(b)
    ensures ChannelsCreated(a + b) == ChannelsCreated(a) + ChannelsCreated(b)
    ensures Posts(a + b) == Posts(a) + Posts(b)
  {
    RingerRequestsOfConcat(a, b);
    ChannelsCreatedOfConcat(a, b);
    PostsOfConcat(a, b);
  }

  /** A ringer change followed by an ordered list without ringer changes is ordered. */
  lemma OrderedAfterRinger(ringer: seq<Effect>, rest: seq<Effect>)
    requires |ringer| <= 1 && forall i :: 0 <= i < |ringer| ==> ringer[i].RingerModeSet?
    requires Ordered(rest) && forall i :: 0 <= i < |rest| ==> Rank(rest[i]) > 0
    ensures Ordered(ringer + rest)
  {
  }

  /** The projections of a list of at most one effect. */
  lemma ProjectionsOfShort(s: seq<Effect>)
    requires |s| <= 1
    ensures RingerRequests(s) == (if |s| == 1 && s[0].RingerModeSet? then [s[0].mode] else [])
    ensures ChannelsCreated(s) == (if |s| == 1 && s[0].ChannelCreated? then [s[0].channel] else [])
    ensures Posts(s) == (if |s| == 1 && s[0].Posted? then [(s[0].id, s[0].notification)] else [])
  {
    if |s| == 1 {
      assert s[1..] == [];
    }
  }

  // ---------------------------------------------------------------------
  // The handler as written.
  // ---------------------------------------------------------------------

  /**
    `setRingerMode`: returns early without a notification manager; applies
    `mode` only when the SDK is below N or policy access is not granted on N
    and later, and then only if the audio manager is present.
   */
  function SetRingerMode(d: Device, mode: int): (effects: seq<Effect>)
    ensures RingerGateOpen(d) ==> effects == [RingerModeSet(mode)]
    ensures !RingerGateOpen(d) ==> effects == []
  {
    if !d.hasNotificationManager then []
    else if d.sdkInt < SdkN || (d.sdkInt >= SdkN && !d.policyAccessGranted) then
      if !d.hasAudioManager then [] else [RingerModeSet(mode)]
    else []
  }

  /**
    `createNotificationChannel`: on O (26) and later, registers the Shushme
    channel if the notification manager is present; otherwise does nothing.
   */
  function CreateNotificationChannel(d: Device): (effects: seq<Effect>)
    ensures d.sdkInt >= 26 && d.hasNotificationManager ==> effects == [ChannelCreated(ShushmeChannel)]
    ensures !(d.sdkInt >= 26 && d.hasNotificationManager) ==> effects == []
  {
    if d.sdkInt >= SdkO then
      if d.hasNotificationManager then [ChannelCreated(ShushmeChannel)] else []
    else []
  }

  /**
    The builder chain of `sendNotification`: icons and title depend on the
    transition, and only ENTER and EXIT set them; text, tap action and
    auto-cancel are the same for every notification.
   */
  function BuildNotification(transitionType: int): (n: Notification)
    ensures transitionType == 1 ==> n == NotificationFor(Entering)
    ensures transitionType == 2 ==> n == NotificationFor(Exiting)
    ensures n.channelId == NotificationChannelId && n.contentText == TouchToRelaunch
    ensures n.contentIntent == RelaunchMainActivity && n.autoCancel
    ensures transitionType != 1 && transitionType != 2 ==>
      n.contentTitle.None? && n.smallIcon.None? && n.largeIcon.None?
  {
    var base := Notification(NotificationChannelId, None, None, None, TouchToRelaunch,
                             RelaunchMainActivity, false);
    var styled :=
      if transitionType == TransitionEnter then
        base.(smallIcon := Some(IcVolumeOffWhite24dp), largeIcon := Some(IcVolumeOffWhite24dp),
              contentTitle := Some(SilentModeActivated))
      else if transitionType == TransitionExit then
        base.(smallIcon := Some(IcVolumeUpWhite24dp), largeIcon := Some(IcVolumeUpWhite24dp),
              contentTitle := Some(BackToNormal))
      else base;
    styled.(contentText := TouchToRelaunch, contentIntent := RelaunchMainActivity, autoCancel := true)
  }

  /**
    `sendNotification`: creates the channel first, then posts the
    notification to slot 0, unless the notification manager is absent, in
    which case nothing at all happens.
   */
  function SendNotification(d: Device, transitionType: int): (effects: seq<Effect>)
    ensures effects
         == (if !d.hasNotificationManager then []
             else if d.sdkInt >= 26
             then [ChannelCreated(ShushmeChannel), Posted(0, BuildNotification(transitionType))]
             else [Posted(0, BuildNotification(transitionType))])
  {
    CreateNotificationChannel(d)
      + (if d.hasNotificationManager then [Posted(0, BuildNotification(transitionType))] else [])
  }

  /** `sendNotification` makes no ringer change and its effects are ordered. */
  lemma NotifyOrdered(d: Device, transitionType: int)
    ensures Ordered(SendNotification(d, transitionType))
    ensures forall i :: 0 <= i < |SendNotification(d, transitionType)| ==>
      Rank(SendNotification(d, transitionType)[i]) > 0
  {
    var notify := SendNotification(d, transitionType);
    if d.hasNotificationManager && d.sdkInt >= 26 {
      assert |notify| == 2 && Rank(notify[0]) == 1 && Rank(notify[1]) == 2;
    } else {
      assert |notify| <= 1 && forall i :: 0 <= i < |notify| ==> Rank(notify[i]) == 2;
    }
  }

  /** What `sendNotification` does, seen through the projections. */
  lemma NotifyProjections(d: Device, transitionType: int)
    ensures RingerRequests(SendNotification(d, transitionType)) == []
    ensures ChannelsCreated(SendNotification(d, transitionType))
         == (if d.sdkInt >= 26 && d.hasNotificationManager then [ShushmeChannel] else [])
    ensures Posts(SendNotification(d, transitionType))
         == (if d.hasNotificationManager then [(0, BuildNotification(transitionType))] else [])
  {
    var notify := SendNotification(d, transitionType);
    var post := [Posted(0, BuildNotification(transitionType))];
    if !d.hasNotificationManager {
      assert notify == [];
    } else if d.sdkInt >= 26 {
      var channel := [ChannelCreated(ShushmeChannel)];
      assert notify == channel + post;
      ProjectionsOfShort(channel);
      ProjectionsOfShort(post);
      ProjectionsOfConcat(channel, post);
    } else {
      assert notify == post;
      ProjectionsOfShort(post);
    }
  }

  /** The effects of an accepted event are ordered ringer, channel, post. */
  lemma RingerThenNotifyOrdered(d: Device, mode: int, transitionType: int)
    ensures Ordered(SetRingerMode(d, mode) + SendNotification(d, transitionType))
  {
    NotifyOrdered(d, transitionType);
    OrderedAfterRinger(SetRingerMode(d, mode), SendNotification(d, transitionType));
  }

  /** The effects of an accepted event, seen through the three projections. */
  lemma RingerThenNotify(d: Device, mode: int, transitionType: int)
    ensures RingerRequests(SetRingerMode(d, mode) + SendNotification(d, transitionType))
         == (if RingerGateOpen(d) then [mode] else [])
    ensures ChannelsCreated(SetRingerMode(d, mode) + SendNotification(d, transitionType))
         == (if d.sdkInt >= 26 && d.hasNotificationManager then [ShushmeChannel] else [])
    ensures Posts(SetRingerMode(d, mode) + SendNotification(d, transitionType))
         == (if d.hasNotificationManager then [(0, BuildNotification(transitionType))] else [])
  {
    var ringer := SetRingerMode(d, mode);
    var notify := SendNotification(d, transitionType);
    NotifyProjections(d, transitionType);
    ProjectionsOfShort(ringer);
    ProjectionsOfConcat(ringer, notify);
  }

  /**
    `onReceive`: an error or an unknown transition produces nothing; ENTER
    and EXIT request the target ringer mode through the gate and then send
    the notification, whatever the gate decided.
   */
  function OnReceive(d: Device, e: GeofencingEvent): (effects: seq<Effect>)
    ensures Classify(e) == Rejected ==> effects == []
    ensures Ordered(effects)
    ensures RingerRequests(effects)
         == (if Classify(e) != Rejected && RingerGateOpen(d) then [TargetMode(Classify(e))] else [])
    ensures ChannelsCreated(effects)
         == (if Classify(e) != Rejected && d.sdkInt >= 26 && d.hasNotificationManager
             then [ShushmeChannel] else [])
    ensures Posts(effects)
         == (if Classify(e) != Rejected && d.hasNotificationManager
             then [(0, NotificationFor(Classify(e)))] else [])
  {
    if e.errorCode.Some? then []
    else if e.transition == TransitionEnter then
      RingerThenNotify(d, RingerModeSilent, e.transition);
      RingerThenNotifyOrdered(d, RingerModeSilent, e.transition);
      assert TargetMode(Classify(e)) == RingerModeSilent;
      assert BuildNotification(e.transition) == NotificationFor(Classify(e));
      SetRingerMode(d, RingerModeSilent) + SendNotification(d, e.transition)
    else if e.transition == TransitionExit then
      RingerThenNotify(d, RingerModeNormal, e.transition);
      RingerThenNotifyOrdered(d, RingerModeNormal, e.transition);
      assert TargetMode(Classify(e)) == RingerModeNormal;
      assert BuildNotification(e.transition) == NotificationFor(Classify(e));
      SetRingerMode(d, RingerModeNormal) + SendNotification(d, e.transition)
    else []
  }

  /**
    The notification does not depend on the ringer gate: two devices that
    differ only in policy access and audio manager get the same channel and
    the same post.
   */
  lemma NotificationIndependentOfRingerGate(d1: Device, d2: Device, e: GeofencingEvent)
    requires d1.sdkInt == d2.sdkInt && d1.hasNotificationManager == d2.hasNotificationManager
    ensures ChannelsCreated(OnReceive(d1, e)) == ChannelsCreated(OnReceive(d2, e))
    ensures Posts(OnReceive(d1, e)) == Posts(OnReceive(d2, e))
  {
  }

  // ---------------------------------------------------------------------
  // Effects on the device over a sequence of delivered events.
  // ---------------------------------------------------------------------

  /**
    The part of the device the handler changes: the ringer mode, the
    registered notification channels and the posted notifications by id.
   */
  datatype DeviceState = DeviceState(
    ringerMode: int,
    channels: set<NotificationChannel>,
    shade: map<int, Notification>)

  /**
    One effect on the device. Registering an existing channel changes nothing,
    and posting to an occupied id replaces the notification there.
   */
  function Apply(st: DeviceState, e: Effect): DeviceState {
    match e
    case RingerModeSet(mode) => st.(ringerMode := mode)
    case ChannelCreated(channel) => st.(channels := st.channels + {channel})
    case Posted(id, n) => st.(shade := st.shade[id := n])
  }

  function ApplyAll(st: DeviceState, effects: seq<Effect>): DeviceState
    decreases |effects|
  {
    if effects == [] then st else ApplyAll(Apply(st, effects[0]), effects[1..])
  }

  /** The handler run once per event, in delivery order, on a fixed device. */
  function Deliver(d: Device, st: DeviceState, events: seq<GeofencingEvent>): DeviceState
    decreases |events|
  {
    if events == [] then st else Deliver(d, ApplyAll(st, OnReceive(d, events[0])), events[1..])
  }

  lemma {:induction false} ApplyAllConcat(st: DeviceState, a: seq<Effect>, b: seq<Effect>)
    ensures ApplyAll(st, a + b) == ApplyAll(ApplyAll(st, a), b)
    decreases |a|
  {
    if a == [] {
      assert a + b == b;
    } else {
      assert (a + b)[1..] == a[1..] + b;
      ApplyAllConcat(Apply(st, a[0]), a[1..], b);
    }
  }

  lemma ApplyAllShort(st: DeviceState, s: seq<Effect>)
    requires |s| <= 1
    ensures ApplyAll(st, s) == (if |s| == 1 then Apply(st, s[0]) else st)
  {
    if |s| == 1 {
      assert s[1..] == [];
    }
  }

  /** The device after the effects of an accepted event with the given mode and transition. */
  lemma ApplyRingerThenNotify(d: Device, st: DeviceState, mode: int, transitionType: int)
    ensures ApplyAll(st, SetRingerMode(d, mode) + SendNotification(d, transitionType))
         == DeviceState(
              if RingerGateOpen(d) then mode else st.ringerMode,
              if d.sdkInt >= 26 && d.hasNotificationManager then st.channels + {ShushmeChannel} else st.channels,
              if d.hasNotificationManager then st.shade[0 := BuildNotification(transitionType)] else st.shade)
  {
    var ringer := SetRingerMode(d, mode);
    var channel := CreateNotificationChannel(d);
    var post := if d.hasNotificationManager then [Posted(0, BuildNotification(transitionType))] else [];
    assert SendNotification(d, transitionType) == channel + post;
    ApplyAllConcat(st, ringer, channel + post);
    ApplyAllShort(st, ringer);
    var st1 := ApplyAll(st, ringer);
    ApplyAllConcat(st1, channel, post);
    ApplyAllShort(st1, channel);
    ApplyAllShort(ApplyAll(st1, channel), post);
  }

  /**
    What one event does to the device: an accepted event sets the target mode
    when the ringer gate is open, registers the channel on O and later, and
    puts its notification in slot 0 when the notification manager is present;
    a rejected event changes nothing.
   */
  lemma ReceiveOnDevice(d: Device, st: DeviceState, e: GeofencingEvent)
    ensures ApplyAll(st, OnReceive(d, e)).ringerMode
         == (if Classify(e) != Rejected && RingerGateOpen(d) then TargetMode(Classify(e)) else st.ringerMode)
    ensures ApplyAll(st, OnReceive(d, e)).channels
         == (if Classify(e) != Rejected && d.sdkInt >= 26 && d.hasNotificationManager
             then st.channels + {ShushmeChannel} else st.channels)
    ensures ApplyAll(st, OnReceive(d, e)).shade
         == (if Classify(e) != Rejected && d.hasNotificationManager
             then st.shade[0 := NotificationFor(Classify(e))] else st.shade)
  {
    var c := Classify(e);
    if c != Rejected {
      assert OnReceive(d, e) == SetRingerMode(d, TargetMode(c)) + SendNotification(d, e.transition);
      assert BuildNotification(e.transition) == NotificationFor(c);
      ApplyRingerThenNotify(d, st, TargetMode(c), e.transition);
    }
  }

  /** Reference: the notification one event puts in slot 0, if any. */
  function NotificationOf(d: Device, e: GeofencingEvent): Option<Notification> {
    if Classify(e) != Rejected && d.hasNotificationManager then Some(NotificationFor(Classify(e))) else None
  }

  /** Reference: the notification of the last event that posts one, if any. */
  function LastNotification(d: Device, events: seq<GeofencingEvent>): Option<Notification>
    decreases |events|
  {
    if events == [] then None
    else
      var later := LastNotification(d, events[1..]);
      if later.Some? then later else NotificationOf(d, events[0])
  }

  /** Reference: the ringer mode one event applies, if any. */
  function ModeSetBy(d: Device, e: GeofencingEvent): Option<int> {
    if Classify(e) != Rejected && RingerGateOpen(d) then Some(TargetMode(Classify(e))) else None
  }

  /** Reference: the target mode of the last accepted event, if the gate lets modes through. */
  function LastRingerMode(d: Device, events: seq<GeofencingEvent>): Option<int>
    decreases |events|
  {
    if events == [] then None
    else
      var later := LastRingerMode(d, events[1..]);
      if later.Some? then later else ModeSetBy(d, events[0])
  }

  /** Reference: whether any event is accepted. */
  predicate AnyAccepted(events: seq<GeofencingEvent>)
    decreases |events|
  {
    events != [] && (Classify(events[0]) != Rejected || AnyAccepted(events[1..]))
  }

  /** The shade after `n`, if present, is posted to slot 0. */
  function Shown(shade: map<int, Notification>, n: Option<Notification>): map<int, Notification> {
    if n.Some? then shade[0 := n.value] else shade
  }

  /** Two posts to slot 0 leave only the later one. */
  lemma ShownTwice(shade: map<int, Notification>, first: Option<Notification>, later: Option<Notification>)
    ensures Shown(Shown(shade, first), later) == Shown(shade, if later.Some? then later else first)
  {
    if first.Some? && later.Some? {
      assert shade[0 := first.value][0 := later.value] == shade[0 := later.value];
    }
  }

  /**
    Slot 0 holds the notification of the last event that posted one; every
    other slot is untouched.
   */
  lemma {:induction false} DeliverShade(d: Device, st: DeviceState, events: seq<GeofencingEvent>)
    ensures Deliver(d, st, events).shade == Shown(st.shade, LastNotification(d, events))
    decreases |events|
  {
    if events != [] {
      var st1 := ApplyAll(st, OnReceive(d, events[0]));
      ReceiveOnDevice(d, st, events[0]);
      assert st1.shade == Shown(st.shade, NotificationOf(d, events[0]));
      DeliverShade(d, st1, events[1..]);
      ShownTwice(st.shade, NotificationOf(d, events[0]), LastNotification(d, events[1..]));
    }
  }

  /**
    The ringer ends in the target mode of the last accepted event when the
    gate is open, and where it started otherwise. Events carry no memory:
    flapping just toggles.
   */
  lemma {:induction false} DeliverRinger(d: Device, st: DeviceState, events: seq<GeofencingEvent>)
    ensures Deliver(d, st, events).ringerMode == LastRingerMode(d, events).GetOr(st.ringerMode)
    decreases |events|
  {
    if events != [] {
      ReceiveOnDevice(d, st, events[0]);
      DeliverRinger(d, ApplyAll(st, OnReceive(d, events[0])), events[1..]);
    }
  }

  /** The Shushme channel is added once any event is accepted on O and later with a manager. */
  lemma {:induction false} DeliverChannels(d: Device, st: DeviceState, events: seq<GeofencingEvent>)
    ensures Deliver(d, st, events).channels
         == (if AnyAccepted(events) && d.sdkInt >= 26 && d.hasNotificationManager
             then st.channels + {ShushmeChannel} else st.channels)
    decreases |events|
  {
    if events != [] {
      ReceiveOnDevice(d, st, events[0]);
      DeliverChannels(d, ApplyAll(st, OnReceive(d, events[0])), events[1..]);
    }
  }

  lemma OverwriteOnlySlot(shade: map<int, Notification>, n: Notification)
    requires shade.Keys <= {0}
    ensures shade[0 := n] == map[0 := n]
  {
    assert shade[0 := n].Keys == {0};
  }

  /**
    Every notification goes to id 0, so a shade that starts with nothing
    outside slot 0 ends with at most one notification: the last one posted.
   */
  lemma AtMostOneNotification(d: Device, st: DeviceState, events: seq<GeofencingEvent>)
    requires st.shade.Keys <= {0}
    ensures Deliver(d, st, events).shade.Keys <= {0}
    ensures LastNotification(d, events).Some? ==>
      Deliver(d, st, events).shade == map[0 := LastNotification(d, events).value]
  {
    DeliverShade(d, st, events);
    var last := LastNotification(d, events);
    if last.Some? {
      OverwriteOnlySlot(st.shade, last.value);
    }
  }

  /** An event reporting an error leaves the device exactly as it was. */
  lemma ErrorEventLeavesDeviceUnchanged(d: Device, st: DeviceState, e: GeofencingEvent)
    requires e.errorCode.Some?
    ensures Deliver(d, st, [e]) == st
  {
    assert [e][1..] == [];
  }
}
