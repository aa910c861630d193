/**
  End-to-end walks through both halves of the engine: one concrete place is
  registered, then a device enters and leaves a region.
 */
module Scenarios {
  import opened Platform
  import G = Geofencing
  import R = GeofenceBroadcastReceiver

  /** A place whose longitude lies within [-90, 90], so its swapped region passes the builder. */
  const HomePlace: G.Place := G.Place("p1", G.LatLng(48.85, 2.35))

  /** A place further west than 90 degrees. */
  const WesternPlace: G.Place := G.Place("p2", G.LatLng(37.0, -122.0))

  /**
    One place yields one batch with one region of radius 50 m and expiry
    86,400,000 ms, whose circular-region arguments are the longitude and then
    the latitude.
   */
  lemma OnePlaceIsRegisteredAsOneBatch(minted: PendingIntentToken)
    ensures
      var s := G.UpdateGeofencesList(G.New(true), Some([HomePlace]));
      G.RegisterAllGeofences(s, minted, true).submitted
        == Some(G.AddGeofences(
             G.GeofencingRequest(1, [G.Geofence("p1", 86_400_000, 2.35, 48.85, 50.0, 3)]),
             minted))
    ensures G.BuilderAcceptsCoordinates(G.BuildGeofence(HomePlace))
  {
    var s := G.UpdateGeofencesList(G.New(true), Some([HomePlace]));
    assert |s.geofenceList| == 1 && G.BuiltFrom(s.geofenceList[0], HomePlace);
    assert s.geofenceList == [G.Geofence("p1", 86_400_000, 2.35, 48.85, 50.0, 3)];
  }

  /**
    The swapped arguments put a longitude of -122 where the builder expects a
    latitude, so the region of a place in western North America fails the
    builder's check and `updateGeofencesList` throws for it.
   */
  lemma WesternPlaceFailsBuilderCheck()
    ensures G.OnGlobe(WesternPlace.latLng)
    ensures G.BuildGeofence(WesternPlace).latitude == -122.0
    ensures !G.BuilderAcceptsCoordinates(G.BuildGeofence(WesternPlace))
  {
  }

  /** Entering silences the ringer and shows "silent mode activated" wherever the gate is open. */
  lemma EnterSilencesAndNotifies(d: R.Device, st: R.DeviceState, enter: R.GeofencingEvent)
    requires R.RingerGateOpen(d) && R.Classify(enter) == R.Entering
    ensures R.Deliver(d, st, [enter]).ringerMode == 0
    ensures 0 in R.Deliver(d, st, [enter]).shade
    ensures R.Deliver(d, st, [enter]).shade[0].contentTitle == Some(R.SilentModeActivated)
    ensures R.Deliver(d, st, [enter]).shade == st.shade[0 := R.NotificationFor(R.Entering)]
  {
    assert [enter][1..] == [];
    assert R.LastRingerMode(d, [enter]) == Some(0);
    assert R.LastNotification(d, [enter]) == Some(R.NotificationFor(R.Entering));
    R.DeliverRinger(d, st, [enter]);
    R.DeliverShade(d, st, [enter]);
  }

  /** The last of two events for an open gate decides the ringer: leaving restores NORMAL. */
  lemma EnterThenExitRestoresRinger(d: R.Device, st: R.DeviceState,
                                    enter: R.GeofencingEvent, exit: R.GeofencingEvent)
    requires R.RingerGateOpen(d)
    requires R.Classify(enter) == R.Entering && R.Classify(exit) == R.Exiting
    ensures R.Deliver(d, st, [enter, exit]).ringerMode == 2
  {
    var events := [enter, exit];
    assert events[1..] == [exit];
    assert [exit][1..] == [];
    assert R.LastRingerMode(d, [exit]) == Some(2);
    assert R.LastRingerMode(d, events) == Some(2);
    R.DeliverRinger(d, st, events);
  }

  /**
    Entering and then leaving leaves a single notification, "back to normal",
    which replaced the first.
   */
  lemma EnterThenExitLeavesOneNotification(d: R.Device, st: R.DeviceState,
                                           enter: R.GeofencingEvent, exit: R.GeofencingEvent)
    requires d.hasNotificationManager && st.shade.Keys <= {0}
    requires R.Classify(enter) == R.Entering && R.Classify(exit) == R.Exiting
    ensures R.Deliver(d, st, [enter, exit]).shade
         == map[0 := R.NotificationFor(R.Exiting)]
    ensures R.NotificationFor(R.Exiting).contentTitle == Some(R.BackToNormal)
  {
    var events := [enter, exit];
    assert events[1..] == [exit];
    assert [exit][1..] == [];
    assert R.LastNotification(d, [exit]) == Some(R.NotificationFor(R.Exiting));
    assert R.LastNotification(d, events) == Some(R.NotificationFor(R.Exiting));
    R.AtMostOneNotification(d, st, events);
  }

  /**
    On N and later with notification-policy access granted, the gate as
    written skips the ringer change, yet the notification is still posted.
   */
  lemma GrantedAccessOnNougatSkipsRinger(d: R.Device, st: R.DeviceState, enter: R.GeofencingEvent)
    requires d.sdkInt >= 24 && d.policyAccessGranted && d.hasNotificationManager
    requires R.Classify(enter) == R.Entering
    ensures R.Deliver(d, st, [enter]).ringerMode == st.ringerMode
    ensures R.Deliver(d, st, [enter]).shade == st.shade[0 := R.NotificationFor(R.Entering)]
  {
    assert [enter][1..] == [];
    assert R.LastRingerMode(d, [enter]) == None;
    assert R.LastNotification(d, [enter]) == Some(R.NotificationFor(R.Entering));
    R.DeliverRinger(d, st, [enter]);
    R.DeliverShade(d, st, [enter]);
  }
}
