/**
  The slice of the Android and Google Play services platform that the
  geofence engine talks to, reduced to the values the engine reads or writes.
  Services are not modelled: their presence becomes a boolean and the handles
  they hand out become opaque tokens.
 */
module Platform {

  /** A nullable reference: `None` stands for Java's `null`. */
  datatype Option<+T> = None | Some(value: T) {

    /** The value held, or `default` when there is none. */
    function GetOr(default: T): T {
      match this
      case Some(v) => v
      case None => default
    }
  }

  // Geofence.GEOFENCE_TRANSITION_* codes reported by the monitoring engine.
  const TransitionEnter: int := 1
  const TransitionExit: int := 2

  // GeofencingRequest.INITIAL_TRIGGER_ENTER.
  const InitialTriggerEnter: int := 1

  // AudioManager.RINGER_MODE_* values.
  const RingerModeSilent: int := 0
  const RingerModeNormal: int := 2

  // Build.VERSION_CODES.N and Build.VERSION_CODES.O.
  const SdkN: int := 24
  const SdkO: int := 26

  // NotificationManager.IMPORTANCE_DEFAULT.
  const ImportanceDefault: int := 3

  /**
    An opaque PendingIntent as returned by `PendingIntent.getBroadcast`.
    Only its identity matters to the engine.
   */
  datatype PendingIntentToken = PendingIntentToken(id: nat)
}
