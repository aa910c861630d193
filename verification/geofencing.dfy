/**
  Region bookkeeping of `Geofencing`: the list of monitored circular regions
  built from the user's places, the batch add and remove requests sent to the
  geofencing client, and the lazily created PendingIntent through which the
  monitoring engine delivers transitions.

  The Java object is a record of three fields here, and every operation is a
  pure function from the old record to the new one together with the call it
  hands to the geofencing client, if any. The client itself is reduced to
  whether it is present; what the platform would answer is a parameter.
 */
module Geofencing {
  import opened Platform

  // Policy constants of the engine (radius in meters, expiry in milliseconds).
  const GeofenceRadius: real := 50.0
  // Evaluated in Java's 32-bit int arithmetic; 86,400,000 < 2^31, so no wrap-around.
  const GeofenceTimeout: int := 24 * 60 * 60 * 1000
  // GEOFENCE_TRANSITION_ENTER | GEOFENCE_TRANSITION_EXIT, a bitwise or.
  const EnterOrExit: int := ((TransitionEnter as bv32) | (TransitionExit as bv32)) as int

  /** A coordinate pair; the engine only moves the two numbers around. */
  datatype LatLng = LatLng(latitude: real, longitude: real)

  /** The part of a place record the engine reads: its id and its coordinates. */
  datatype Place = Place(id: string, latLng: LatLng)

  /**
    A region as `Geofence.Builder` records it. `latitude` and `longitude` are
    the first and the second argument passed to `setCircularRegion`, whatever
    the caller put there.
   */
  datatype Geofence = Geofence(
    requestId: string,
    expirationDuration: int,
    latitude: real,
    longitude: real,
    radius: real,
    transitionTypes: int)

  /** A batch registration request. */
  datatype GeofencingRequest = GeofencingRequest(initialTrigger: int, geofences: seq<Geofence>)

  /** A call submitted to the geofencing client. */
  datatype Call =
    | AddGeofences(request: GeofencingRequest, intent: PendingIntentToken)
    | RemoveGeofences(intent: PendingIntentToken)

  /**
    The fields of a `Geofencing` object. The list field is never null: both the
    constructor and `updateGeofencesList` allocate a fresh list.
   */
  datatype GeofencingState = GeofencingState(
    clientPresent: bool,
    pendingIntent: Option<PendingIntentToken>,
    geofenceList: seq<Geofence>)

  /** The PendingIntent handed out and the object after handing it out. */
  datatype Handle = Handle(intent: PendingIntentToken, state: GeofencingState)

  /** The object after an operation and the call it submitted, if any. */
  datatype Outcome = Outcome(state: GeofencingState, submitted: Option<Call>)

  /** Radius 50 m, expiry 24 h and a mask of ENTER and EXIT (1 | 2). */
  predicate IsPolicyRegion(g: Geofence) {
    && g.radius == 50.0
    && g.expirationDuration == 86_400_000
    && g.transitionTypes == 3
  }

  /**
    `g` is the region built for `p`: same request id, the policy constants,
    and the place's longitude as the first circular-region argument and its
    latitude as the second, in that order.
   */
  predicate BuiltFrom(g: Geofence, p: Place) {
    && g.requestId == p.id
    && g.latitude == p.latLng.longitude
    && g.longitude == p.latLng.latitude
    && IsPolicyRegion(g)
  }

  /**
    How the handle field may change in an operation: untouched when the
    operation stops before asking for the PendingIntent, otherwise the old
    handle if there was one and the newly minted one if not.
   */
  predicate Memoised(before: Option<PendingIntentToken>, after: Option<PendingIntentToken>,
                     minted: PendingIntentToken, asked: bool) {
    if asked then after == Some(before.GetOr(minted)) else after == before
  }

  /** The constructor: no PendingIntent yet and an empty region list. */
  function New(clientPresent: bool): (s: GeofencingState)
    ensures s.clientPresent == clientPresent
    ensures s.pendingIntent.None? && |s.geofenceList| == 0
  {
    GeofencingState(clientPresent, None, [])
  }

  /** One iteration of the builder loop in `updateGeofencesList`. */
  function BuildGeofence(place: Place): (g: Geofence)
    ensures BuiltFrom(g, place)
  {
    Geofence(place.id, GeofenceTimeout, place.latLng.longitude, place.latLng.latitude,
             GeofenceRadius, EnterOrExit)
  }

  /** The whole builder loop: one region per place, in iteration order. */
  function BuildGeofences(places: seq<Place>): (r: seq<Geofence>)
    ensures |r| == |places|
    ensures forall i :: 0 <= i < |places| ==> BuiltFrom(r[i], places[i])
  {
    if places == [] then [] else [BuildGeofence(places[0])] + BuildGeofences(places[1..])
  }

  /**
    `updateGeofencesList`: the old list is discarded in every case; a null or
    empty place buffer leaves the list empty, any other yields exactly one
    region per place.
   */
  function UpdateGeofencesList(s: GeofencingState, places: Option<seq<Place>>): (s': GeofencingState)
    ensures s'.clientPresent == s.clientPresent && s'.pendingIntent == s.pendingIntent
    ensures places.None? ==> s'.geofenceList == []
    ensures places.Some? ==> |s'.geofenceList| == |places.value|
    ensures places.Some? ==>
      forall i :: 0 <= i < |places.value| ==> BuiltFrom(s'.geofenceList[i], places.value[i])
  {
    var cleared := s.(geofenceList := []);
    if places.None? || |places.value| == 0 then cleared
    else cleared.(geofenceList := BuildGeofences(places.value))
  }

  /** `getGeofencingRequest`: the whole current list, with initial trigger ENTER. */
  function GetGeofencingRequest(s: GeofencingState): (r: GeofencingRequest)
    ensures r.initialTrigger == 1
    ensures r.geofences == s.geofenceList
  {
    GeofencingRequest(InitialTriggerEnter, s.geofenceList)
  }

  /**
    `getGeofencePendingIntent`: the stored PendingIntent if there is one;
    otherwise `minted`, the one the platform's `getBroadcast` returns, which
    is stored for every later call.
   */
  function GetGeofencePendingIntent(s: GeofencingState, minted: PendingIntentToken): (h: Handle)
    ensures h.state == s.(pendingIntent := Some(h.intent))
    ensures s.pendingIntent.Some? ==> h.intent == s.pendingIntent.value
    ensures s.pendingIntent.None? ==> h.intent == minted
  {
    if s.pendingIntent.Some? then Handle(s.pendingIntent.value, s)
    else Handle(minted, s.(pendingIntent := Some(minted)))
  }

  /**
    `registerAllGeofences`. Nothing happens without a client or with an empty
    list. Otherwise the arguments of `addGeofences` are evaluated, so the
    PendingIntent is memoised, and the batch is submitted unless the client
    refuses it for want of authorization (`authorized` false), a
    SecurityException that is caught and only logged.
   */
  function RegisterAllGeofences(s: GeofencingState, minted: PendingIntentToken, authorized: bool): (o: Outcome)
    ensures o.state.clientPresent == s.clientPresent
    ensures o.state.geofenceList == s.geofenceList
    ensures Memoised(s.pendingIntent, o.state.pendingIntent, minted, s.clientPresent && |s.geofenceList| > 0)
    ensures o.submitted.Some? <==> s.clientPresent && |s.geofenceList| > 0 && authorized
    ensures o.submitted.Some? ==>
      && o.state.pendingIntent.Some?
      && o.submitted.value == AddGeofences(GeofencingRequest(1, s.geofenceList), o.state.pendingIntent.value)
  {
    if !s.clientPresent || |s.geofenceList| == 0 then Outcome(s, None)
    else
      var request := GetGeofencingRequest(s);
      var h := GetGeofencePendingIntent(s, minted);
      if authorized then Outcome(h.state, Some(AddGeofences(request, h.intent)))
      else Outcome(h.state, None)
  }

  /**
    `unRegisterAllGeofences`. Nothing happens without a client; otherwise one
    remove keyed by the memoised PendingIntent is submitted unless refused for
    want of authorization. The region list is never touched.
   */
  function UnRegisterAllGeofences(s: GeofencingState, minted: PendingIntentToken, authorized: bool): (o: Outcome)
    ensures o.state.clientPresent == s.clientPresent
    ensures o.state.geofenceList == s.geofenceList
    ensures Memoised(s.pendingIntent, o.state.pendingIntent, minted, s.clientPresent)
    ensures o.submitted.Some? <==> s.clientPresent && authorized
    ensures o.submitted.Some? ==>
      o.state.pendingIntent.Some? && o.submitted.value == RemoveGeofences(o.state.pendingIntent.value)
  {
    if !s.clientPresent then Outcome(s, None)
    else
      var h := GetGeofencePendingIntent(s, minted);
      if authorized then Outcome(h.state, Some(RemoveGeofences(h.intent)))
      else Outcome(h.state, None)
  }

  /**
    The public operations of a `Geofencing` object, with the answers of the
    platform each one may need: the PendingIntent `getBroadcast` would mint
    and whether the caller holds the location authorization.
   */
  datatype Op =
    | Update(places: Option<seq<Place>>)
    | Register(minted: PendingIntentToken, authorized: bool)
    | Unregister(minted: PendingIntentToken, authorized: bool)

  /** One operation. */
  function Step(s: GeofencingState, op: Op): (o: Outcome)
    ensures o.state.clientPresent == s.clientPresent
    ensures s.pendingIntent.Some? ==> o.state.pendingIntent == s.pendingIntent
    ensures o.submitted.Some? ==> o.state.pendingIntent == Some(o.submitted.value.intent)
    ensures !op.Update? ==> o.state.geofenceList == s.geofenceList
  {
    match op
    case Update(places) => Outcome(UpdateGeofencesList(s, places), None)
    case Register(minted, authorized) => RegisterAllGeofences(s, minted, authorized)
    case Unregister(minted, authorized) => UnRegisterAllGeofences(s, minted, authorized)
  }

  /** The final object and every call submitted, in order. */
  datatype Trace = Trace(state: GeofencingState, calls: seq<Call>)

  /** A sequence of operations on one object. */
  function Run(s: GeofencingState, ops: seq<Op>): Trace
    decreases |ops|
  {
    if ops == [] then Trace(s, [])
    else
      var o := Step(s, ops[0]);
      var rest := Run(o.state, ops[1..]);
      Trace(rest.state, (if o.submitted.Some? then [o.submitted.value] else []) + rest.calls)
  }

  /**
    Once a PendingIntent is stored it is never replaced nor cleared, and every
    later add or remove is keyed by it.
   */
  lemma {:induction false} HandleNeverReverts(s: GeofencingState, ops: seq<Op>)
    requires s.pendingIntent.Some?
    ensures Run(s, ops).state.pendingIntent == s.pendingIntent
    ensures forall c :: c in Run(s, ops).calls ==> c.intent == s.pendingIntent.value
    decreases |ops|
  {
    if ops != [] {
      HandleNeverReverts(Step(s, ops[0]).state, ops[1..]);
    }
  }

  /**
    The PendingIntent is created at most once: over any run, every submitted
    call is keyed by the one handle the object holds at the end.
   */
  lemma {:induction false} CallsShareOneHandle(s: GeofencingState, ops: seq<Op>)
    ensures forall c :: c in Run(s, ops).calls ==> Run(s, ops).state.pendingIntent == Some(c.intent)
    decreases |ops|
  {
    if ops != [] {
      var o := Step(s, ops[0]);
      CallsShareOneHandle(o.state, ops[1..]);
      if o.submitted.Some? {
        HandleNeverReverts(o.state, ops[1..]);
      }
    }
  }

  /** Any two calls of a run carry the same PendingIntent. */
  lemma SameHandleForEveryCall(s: GeofencingState, ops: seq<Op>, i: nat, j: nat)
    requires i < |Run(s, ops).calls| && j < |Run(s, ops).calls|
    ensures Run(s, ops).calls[i].intent == Run(s, ops).calls[j].intent
  {
    CallsShareOneHandle(s, ops);
    assert Run(s, ops).calls[i] in Run(s, ops).calls;
    assert Run(s, ops).calls[j] in Run(s, ops).calls;
  }

  /**
    Registering twice without an update in between submits the same batch
    under the same PendingIntent; the second platform answer is not used.
   */
  lemma RegisterTwiceResubmitsSameBatch(s: GeofencingState, m1: PendingIntentToken, m2: PendingIntentToken)
    requires s.clientPresent && |s.geofenceList| > 0
    ensures RegisterAllGeofences(s, m1, true).submitted.Some?
    ensures RegisterAllGeofences(RegisterAllGeofences(s, m1, true).state, m2, true)
         == RegisterAllGeofences(s, m1, true)
  {
  }

  /** The region list after an update depends on the places alone. */
  lemma UpdateDiscardsPrevious(s: GeofencingState, t: GeofencingState, places: Option<seq<Place>>)
    ensures UpdateGeofencesList(s, places).geofenceList == UpdateGeofencesList(t, places).geofenceList
  {
  }

  /** Updating twice with the same places is the same as updating once. */
  lemma UpdateIdempotent(s: GeofencingState, places: Option<seq<Place>>)
    ensures UpdateGeofencesList(UpdateGeofencesList(s, places), places) == UpdateGeofencesList(s, places)
  {
  }

  /** After an update with no places, registering submits nothing. */
  lemma EmptyUpdateRegistersNothing(s: GeofencingState, places: Option<seq<Place>>,
                                    minted: PendingIntentToken, authorized: bool)
    requires places.None? || places == Some([])
    ensures RegisterAllGeofences(UpdateGeofencesList(s, places), minted, authorized).submitted.None?
  {
  }

  /** A coordinate pair on the globe: latitude within [-90, 90], longitude within [-180, 180]. */
  predicate OnGlobe(ll: LatLng) {
    -90.0 <= ll.latitude <= 90.0 && -180.0 <= ll.longitude <= 180.0
  }

  /**
    The coordinate check `Geofence.Builder.build()` applies to the two
    `setCircularRegion` arguments: the first must be a latitude and the second
    a longitude. A region failing it makes `build()` throw.
   */
  predicate BuilderAcceptsCoordinates(g: Geofence) {
    OnGlobe(LatLng(g.latitude, g.longitude))
  }

  /**
    With the arguments swapped, the region of a place on the globe passes the
    builder's check exactly when the place's longitude lies within [-90, 90].
   */
  lemma SwappedRegionAccepted(p: Place)
    requires OnGlobe(p.latLng)
    ensures BuilderAcceptsCoordinates(BuildGeofence(p)) <==> -90.0 <= p.latLng.longitude <= 90.0
  {
  }

  /**
    An update builds every region without the builder throwing exactly when
    every place's longitude lies within [-90, 90]; one place further east or
    west than that makes `updateGeofencesList` throw.
   */
  lemma UpdateBuildsIffLongitudesInRange(s: GeofencingState, places: seq<Place>)
    requires forall i :: 0 <= i < |places| ==> OnGlobe(places[i].latLng)
    ensures (forall i :: 0 <= i < |places| ==>
               BuilderAcceptsCoordinates(UpdateGeofencesList(s, Some(places)).geofenceList[i]))
        <==> (forall i :: 0 <= i < |places| ==> -90.0 <= places[i].latLng.longitude <= 90.0)
  {
    var list := UpdateGeofencesList(s, Some(places)).geofenceList;
    forall i | 0 <= i < |places|
      ensures BuilderAcceptsCoordinates(list[i]) <==> -90.0 <= places[i].latLng.longitude <= 90.0
    {
      assert BuiltFrom(list[i], places[i]);
    }
  }
}
