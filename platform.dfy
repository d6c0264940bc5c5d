/**
 * The Android services the alarm code talks to, reduced to the state they
 * keep: the alarm service's exact registrations, the posted notifications and
 * the log of `AlarmActivity` launches.
 *
 * A `PendingIntent` for `AlarmReceiver` is identified by its request code;
 * extras do not take part in the match, so a registration is keyed by the
 * request code alone, a new registration under the same code replaces the old
 * one, and cancelling a code with no registration changes nothing.
 */
module Platform {
  import opened Wrappers

  /** One exact registration: when it fires and the extras `AlarmReceiver` then reads. */
  datatype Registration = Registration(triggerAt: int, snooze: bool, ringtone: Option<string>)

  /** The extras of one `AlarmActivity` launch; an absent extra reads as 0, false, null and false. */
  datatype Launch = Launch(alarmId: int, snooze: bool, ringtone: Option<string>, finish: bool)

  /** A posted alarm notification: the ringtone handed to its Snooze action and the request codes of its two actions. */
  datatype Notice = Notice(ringtone: Option<string>, snoozeCode: int, stopCode: int)

  datatype DeviceState = DeviceState(
    timers: map<int, Registration>,
    notifications: map<int, Notice>,
    launches: seq<Launch>)

  class Device {
    var timers: map<int, Registration>
    var notifications: map<int, Notice>
    var launches: seq<Launch>
    /** Whether `POST_NOTIFICATIONS` has been granted. */
    const notificationsAllowed: bool

    function State(): DeviceState
      reads this
    {
      DeviceState(timers, notifications, launches)
    }

    constructor (notificationsAllowed: bool)
      ensures State() == DeviceState(map[], map[], [])
      ensures this.notificationsAllowed == notificationsAllowed
    {
      timers := map[];
      notifications := map[];
      launches := [];
      this.notificationsAllowed := notificationsAllowed;
    }

    /** `setExactAndAllowWhileIdle` with the pending intent of request code `code`: replaces any registration under that code. */
    method SetExact(code: int, r: Registration)
      modifies this
      ensures State() == old(State()).(timers := old(timers)[code := r])
    {
      timers := timers[code := r];
    }

    /** `AlarmManager.cancel`: drops the registration under `code`, if any. */
    method Cancel(code: int)
      modifies this
      ensures State() == old(State()).(timers := old(timers) - {code})
      ensures code !in old(timers) ==> timers == old(timers)
    {
      timers := timers - {code};
    }

    /**
     * The alarm service delivering the registration under `code`: an exact
     * alarm fires once, so it is dropped and its extras are handed over.
     */
    method Deliver(code: int) returns (r: Option<Registration>)
      modifies this
      ensures r == if code in old(timers) then Some(old(timers)[code]) else None
      ensures State() == old(State()).(timers := old(timers) - {code})
    {
      r := if code in timers then Some(timers[code]) else None;
      timers := timers - {code};
    }

    /** `NotificationManagerCompat.notify`: replaces any notification with the same id. */
    method Notify(id: int, n: Notice)
      modifies this
      ensures State() == old(State()).(notifications := old(notifications)[id := n])
    {
      notifications := notifications[id := n];
    }

    /** `NotificationManagerCompat.cancel`. */
    method CancelNotification(id: int)
      modifies this
      ensures State() == old(State()).(notifications := old(notifications) - {id})
    {
      notifications := notifications - {id};
    }

    /** `startActivity` for `AlarmActivity`. */
    method StartAlarmScreen(l: Launch)
      modifies this
      ensures State() == old(State()).(launches := old(launches) + [l])
    {
      launches := launches + [l];
    }
  }
}
