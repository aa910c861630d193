# Shushme geofence engine in Dafny

Shushme silences the phone's ringer while the user is inside one of their
saved places and restores it on leaving. This project models the geofence
transition engine of the Android app and proves properties of the model. The
engine has two halves.

- **Region bookkeeping** (`Geofencing`, file `geofencing.dfy`). A `Geofencing`
  object holds three fields: whether a geofencing client is present, the
  lazily created `PendingIntent`, and the region list. The model is the record
  `GeofencingState`. `updateGeofencesList` replaces the list wholesale from a
  place buffer. Each region gets the policy radius of 50 m, an expiry of
  24 h (86,400,000 ms) and the ENTER|EXIT transition mask. `registerAllGeofences`
  submits one batch add of the whole list with initial trigger ENTER.
  `unRegisterAllGeofences` submits one remove. Both calls are keyed by the
  memoised `PendingIntent`. Every operation is a pure function.
  `UpdateGeofencesList` returns the new record. `RegisterAllGeofences` and
  `UnRegisterAllGeofences` return the new record together with the call they
  submit, if any (`Outcome`). `Step` wraps all three as an `Outcome`, and `Run`
  folds a sequence of operations and collects the calls.
- **Transition handler** (`GeofenceBroadcastReceiver`, file `receiver.dfy`).
  `onReceive` is a pure function from a device description and a decoded event
  to an ordered list of effects. The effects are a ringer-mode change, the
  creation of the notification channel, and a notification posted to id 0.
  `Deliver` applies the handler to a sequence of events on a `DeviceState`:
  the ringer mode, the registered channels, and the posted notifications by id.
  The handler is checked against an independent reference: `Classify`,
  `TargetMode`, `NotificationFor`, `LastNotification` and `LastRingerMode`.

`platform.dfy` holds the Android and Play services constants the engine uses.
These are ENTER = 1, EXIT = 2, INITIAL_TRIGGER_ENTER = 1,
RINGER_MODE_SILENT = 0, RINGER_MODE_NORMAL = 2, N = 24, O = 26 and
IMPORTANCE_DEFAULT = 3. `scenarios.dfy` walks one place through
registration, and then any device through entry and exit.

The model follows the code as written, including two quirks:

- `setCircularRegion` receives the place's **longitude first and latitude
  second** (Geofencing.java line 66). `BuiltFrom` states this order, and
  `Scenarios.OnePlaceIsRegisteredAsOneBatch` shows it on a concrete place.
  `Geofence.Builder.build()` requires its first coordinate to be a latitude
  in [-90, 90]. So the region of any place whose longitude lies outside
  [-90, 90] is rejected, and `updateGeofencesList` throws
  `IllegalArgumentException` for it. `Geofencing.SwappedRegionAccepted` and
  `Geofencing.UpdateBuildsIffLongitudesInRange` state exactly when this happens.
  `Scenarios.WesternPlaceFailsBuilderCheck` shows it for a place at
  (37.0, -122.0). The throw itself is not modelled (see "Left out").
- The ringer gate (GeofenceBroadcastReceiver.java line 53) applies the mode
  below N, or on N and later only when notification-policy access is
  **not** granted. `RingerGateOpen` states this, and
  `Scenarios.GrantedAccessOnNougatSkipsRinger` shows that a device with access
  granted keeps its ringer mode but still gets the notification. On N and
  later the gate is therefore open only when policy access is missing. For an
  app targeting N or later, `AudioManager.setRingerMode` then throws
  `SecurityException` whenever the change enters or leaves silent mode.
  Nothing catches it, so `onReceive` stops before `sendNotification`. The
  model does not model that throw (see "Left out").

Behaviour worth noting:

- Place records are never skipped. Every place yields one region.
- The mode change is skipped when policy access *is* granted on N and later,
  not when it is missing.
- The notification channel is created on every post on O and later when the
  notification manager is present. It is never created below O.
- Nothing de-duplicates events. A repeated event re-applies its effects. Since
  the ringer mode and slot 0 are overwritten, the end state depends only on the
  last accepted event (`DeliverRinger`, `DeliverShade`).
- A `SecurityException` from `addGeofences` or `removeGeofences` is thrown
  after the arguments are evaluated. So a refused call still memoises the
  `PendingIntent`, even though it submits nothing.

Parameters stand in for the platform: `clientPresent` is the result of
`getGeofencingClient`. `minted` is the `PendingIntent` that `getBroadcast`
would return. `authorized` says whether the client accepts the call or throws
`SecurityException`. A `Device` record holds the SDK level, the presence of the
notification and audio managers, and whether policy access is granted.

## Model

| member | source | states |
|---|---|---|
| Geofencing.New | app/src/main/java/com/example/android/shushme/Geofencing.java:32-37 | A new object holds no PendingIntent and an empty region list. |
| Geofencing.BuildGeofence | app/src/main/java/com/example/android/shushme/Geofencing.java:63-68 | The region for a place has the place's id as request id, radius 50, expiry 86,400,000 ms and mask 3 (ENTER and EXIT). Its circular-region arguments are (longitude, latitude), in that order. |
| Geofencing.BuildGeofences | app/src/main/java/com/example/android/shushme/Geofencing.java:62-71 | The loop yields exactly one region per place, in iteration order. Region i is built from place i. |
| Geofencing.UpdateGeofencesList | app/src/main/java/com/example/android/shushme/Geofencing.java:59-72 | A null buffer leaves the list empty. Otherwise the list has one region per place, region i built from place i, so an empty buffer also gives an empty list. The client and the PendingIntent are untouched. |
| Geofencing.GetGeofencingRequest | app/src/main/java/com/example/android/shushme/Geofencing.java:74-79 | The request carries initial trigger ENTER and exactly the current list. |
| Geofencing.GetGeofencePendingIntent | app/src/main/java/com/example/android/shushme/Geofencing.java:81-90 | A stored handle is returned unchanged. Without one, the platform's new handle is returned and stored. Nothing else in the object changes. |
| Geofencing.RegisterAllGeofences | app/src/main/java/com/example/android/shushme/Geofencing.java:39-47 | A call is submitted iff the client is present, the list is non-empty and the client does not refuse. The call is one add of the whole list with initial trigger ENTER, keyed by the stored handle. The list is unchanged. The handle is memoised whenever the guard passes, even when the call is refused. |
| Geofencing.UnRegisterAllGeofences | app/src/main/java/com/example/android/shushme/Geofencing.java:49-57 | Nothing happens without a client. Otherwise one remove keyed by the memoised handle is submitted unless refused. The region list is never changed. |
| Geofencing.Step | app/src/main/java/com/example/android/shushme/Geofencing.java:39-72 | No operation clears or replaces a stored handle. Every submitted call is keyed by the handle held afterwards. Add and remove leave the list alone. |
| Geofencing.HandleNeverReverts | app/src/main/java/com/example/android/shushme/Geofencing.java:81-90 | Once stored, the handle stays the same for every later sequence of operations. Every later add or remove uses it. |
| Geofencing.CallsShareOneHandle | app/src/main/java/com/example/android/shushme/Geofencing.java:43-53 | Over any run, every submitted call is keyed by the single handle the object ends with. |
| Geofencing.SameHandleForEveryCall | app/src/main/java/com/example/android/shushme/Geofencing.java:81-90 | Any two calls of a run carry the same PendingIntent, so the handle is created at most once. |
| Geofencing.RegisterTwiceResubmitsSameBatch | app/src/main/java/com/example/android/shushme/Geofencing.java:39-47 | Registering twice without an update resubmits the identical batch with the identical handle, whatever the platform would mint the second time. |
| Geofencing.UpdateDiscardsPrevious | app/src/main/java/com/example/android/shushme/Geofencing.java:59-61 | The list after an update depends only on the places, never on the previous list. |
| Geofencing.UpdateIdempotent | app/src/main/java/com/example/android/shushme/Geofencing.java:59-72 | Updating twice with the same places gives the same object as updating once. |
| Geofencing.EmptyUpdateRegistersNothing | app/src/main/java/com/example/android/shushme/Geofencing.java:40 | After an update with a null or empty buffer, registering submits nothing. |
| GeofenceBroadcastReceiver.SetRingerMode | app/src/main/java/com/example/android/shushme/GeofenceBroadcastReceiver.java:48-60 | The mode is set iff the notification manager is present, the SDK is below 24 or policy access is not granted, and the audio manager is present. Otherwise there is no effect. |
| GeofenceBroadcastReceiver.CreateNotificationChannel | app/src/main/java/com/example/android/shushme/GeofenceBroadcastReceiver.java:97-113 | The Shushme channel is created iff the SDK is at least 26 and the notification manager is present. |
| GeofenceBroadcastReceiver.BuildNotification | app/src/main/java/com/example/android/shushme/GeofenceBroadcastReceiver.java:74-88 | ENTER gets the volume-off icons and title silent_mode_activated. EXIT gets the volume-up icons and title back_to_normal. Other codes get neither. The text is always touch_to_relaunch, the tap action relaunches the main activity, and autoCancel is true. |
| GeofenceBroadcastReceiver.SendNotification | app/src/main/java/com/example/android/shushme/GeofenceBroadcastReceiver.java:62-95 | Without a notification manager nothing happens. On SDK 26 and later it creates the Shushme channel and then posts to id 0. Below 26 it only posts to id 0. |
| GeofenceBroadcastReceiver.OnReceive | app/src/main/java/com/example/android/shushme/GeofenceBroadcastReceiver.java:25-46 | Errors and transitions other than ENTER and EXIT produce no effect. ENTER requests mode SILENT and EXIT requests NORMAL, each only through the gate. Then the notification for that transition goes to id 0 whenever the manager is present, whatever the gate decided. Effects are ordered ringer, channel, post. |
| GeofenceBroadcastReceiver.NotificationIndependentOfRingerGate | app/src/main/java/com/example/android/shushme/GeofenceBroadcastReceiver.java:37-45 | Policy access and the audio manager do not affect which channel is created or which notification is posted. |
| GeofenceBroadcastReceiver.ReceiveOnDevice | app/src/main/java/com/example/android/shushme/GeofenceBroadcastReceiver.java:25-46 | One accepted event sets the target mode if the gate is open, adds the channel on O+, and overwrites slot 0 with its notification. A rejected event changes nothing. |
| GeofenceBroadcastReceiver.DeliverShade | app/src/main/java/com/example/android/shushme/GeofenceBroadcastReceiver.java:93 | After any event sequence, slot 0 holds the notification of the last event that posted one. Every other slot is untouched. |
| GeofenceBroadcastReceiver.DeliverRinger | app/src/main/java/com/example/android/shushme/GeofenceBroadcastReceiver.java:36-39 | After any event sequence, the ringer is in the target mode of the last accepted event if the gate is open. Otherwise it is where it started. |
| GeofenceBroadcastReceiver.DeliverChannels | app/src/main/java/com/example/android/shushme/GeofenceBroadcastReceiver.java:97-113 | The channel set gains exactly the Shushme channel once any event is accepted on O+ with a manager. Otherwise it is unchanged. |
| GeofenceBroadcastReceiver.AtMostOneNotification | app/src/main/java/com/example/android/shushme/GeofenceBroadcastReceiver.java:93 | Starting with nothing outside slot 0, at most one notification is ever shown. If any was posted, the shown one is the last. |
| GeofenceBroadcastReceiver.ErrorEventLeavesDeviceUnchanged | app/src/main/java/com/example/android/shushme/GeofenceBroadcastReceiver.java:29-32 | An event with an error leaves the ringer mode, channels and notifications exactly as they were. |
| Geofencing.SwappedRegionAccepted | app/src/main/java/com/example/android/shushme/Geofencing.java:66-68 | For a place on the globe, the region built with swapped arguments passes the builder's coordinate check iff the place's longitude lies within [-90, 90]. |
| Geofencing.UpdateBuildsIffLongitudesInRange | app/src/main/java/com/example/android/shushme/Geofencing.java:59-72 | An update builds every region without the builder throwing iff every place's longitude lies within [-90, 90]. |
| Scenarios.OnePlaceIsRegisteredAsOneBatch | app/src/main/java/com/example/android/shushme/Geofencing.java:59-79 | Place p1 at (48.85, 2.35) is submitted as one batch with one region. The region has radius 50 and expiry 86,400,000 ms, and its arguments are (2.35, 48.85), which pass the builder's coordinate check. |
| Scenarios.WesternPlaceFailsBuilderCheck | app/src/main/java/com/example/android/shushme/Geofencing.java:66-68 | A place at (37.0, -122.0) gets -122.0 as its region's latitude, so the builder's coordinate check rejects the region. |
| Scenarios.EnterSilencesAndNotifies | app/src/main/java/com/example/android/shushme/GeofenceBroadcastReceiver.java:36-37 | On any device whose ringer gate is open, an ENTER event sets the ringer to SILENT. It also puts the ENTER notification, titled silent_mode_activated, in slot 0 and changes nothing else in the shade. |
| Scenarios.EnterThenExitRestoresRinger | app/src/main/java/com/example/android/shushme/GeofenceBroadcastReceiver.java:36-39 | With the gate open, ENTER followed by EXIT leaves the ringer in NORMAL. |
| Scenarios.EnterThenExitLeavesOneNotification | app/src/main/java/com/example/android/shushme/GeofenceBroadcastReceiver.java:93 | With a notification manager, ENTER followed by EXIT leaves exactly one notification, the EXIT one, titled back_to_normal. |
| Scenarios.GrantedAccessOnNougatSkipsRinger | app/src/main/java/com/example/android/shushme/GeofenceBroadcastReceiver.java:53 | On SDK 24 or later with policy access granted and a notification manager present, ENTER leaves the ringer mode unchanged. The ENTER notification still overwrites slot 0 and nothing else in the shade changes. |

## Left out

- The completion listener `onComplete` and all `Log` calls: they only log and never affect control flow.
- Asynchronous completion of add and remove: a submitted call is treated as handed to the client, with no later success or failure.
- `GeofencingEvent.fromIntent` and intent decoding: the event arrives already decoded as an optional error code and a transition code. A null event, which would crash the Java handler, is not modelled.
- The construction of the `PendingIntent` and the task-stack intent, bitmap decoding and icon loading: each is an opaque token or a symbolic resource name.
- Resource string contents: strings are symbolic names. The channel description literal is kept.
- Geofencing.UpdateGeofencesList: does not model the `IllegalArgumentException` that `Geofence.Builder.build()` throws at Geofencing.java line 68. Because of the swapped arguments, any place whose longitude lies outside [-90, 90] triggers it. In the code, `updateGeofencesList` then throws with the list holding only the regions built before that place, and nothing is registered. The model always builds the full list. `BuilderAcceptsCoordinates` and `UpdateBuildsIffLongitudesInRange` say when the code would throw instead. The builder's other argument checks are left out too.
- GeofenceBroadcastReceiver.OnReceive: does not model the `SecurityException` that `AudioManager.setRingerMode` throws for an app targeting N or later without policy access when the change enters or leaves silent mode. The gate as written sends exactly those devices to `setRingerMode`. In the code the exception escapes `onReceive`, so neither the mode change nor the notification happens. The model applies the mode and posts the notification as if the call succeeded. This applies equally to `SetRingerMode`, `Deliver`, `DeliverRinger`, `DeliverShade` and the ENTER and EXIT scenarios when the SDK is 24 or later.
- Other exceptions, beyond the caught `SecurityException` of `addGeofences` and `removeGeofences` and the two above, are not modelled.
- Coordinates and the radius are exact reals. No floating-point rounding is modelled because the engine only passes these values through.
- The null check on the region list in `registerAllGeofences` is dead code, because the list is never null. The list is a sequence.
- The place-list adapter (`PlaceListAdapter.java`) is UI rendering and content-provider I/O. It is not part of this model.
- Concurrency: operations and events are handled one at a time, as the single-threaded host delivers them.
