/**
 * `SnoozeReceiver`: the Snooze action of the fallback notification. It removes
 * the notification, starts the ring screen again (with no extras at all) and
 * registers a snooze delivery for the same id ten minutes from now, replacing
 * whatever registration that id had.
 */
module SnoozeReceiver {
  import opened Wrappers
  import opened Clock
  import opened Platform
  import opened Alarms

  /** The fixed snooze delay: ten minutes, whatever snooze duration the alarm stores. */
  const SnoozeDelayMs := 10 * MinuteMs

  /** The registration a snooze makes: a snooze delivery with no ringtone extra. */
  function SnoozeRegistration(now: int): (r: Registration)
    ensures r.triggerAt - now == 600000 && r.snooze && r.ringtone.None?
  {
    Registration(now + SnoozeDelayMs, true, None)
  }

  /**
   * The snooze delay ignores the alarm's own snooze setting: for every alarm
   * whose snooze duration is not 10 minutes, the snooze delivery is not that
   * many minutes after `now`.
   */
  lemma SnoozeIgnoresDuration(a: AlarmData, now: int)
    ensures SnoozeRegistration(now).triggerAt == now + a.snoozeDuration * MinuteMs <==> a.snoozeDuration == 10
  {
  }

  /** `onReceive` for the Snooze action of alarm `alarmId`. */
  method OnReceive(device: Device, alarmId: int, now: int)
    modifies device
    ensures device.notifications == old(device.notifications) - {alarmId}
    ensures device.launches == old(device.launches) + [Launch(0, false, None, false)]
    ensures device.timers == old(device.timers)[alarmId := SnoozeRegistration(now)]
  {
    device.CancelNotification(alarmId);
    device.StartAlarmScreen(Launch(0, false, None, false));
    device.SetExact(alarmId, SnoozeRegistration(now));
  }
}
