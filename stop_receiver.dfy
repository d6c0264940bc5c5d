/**
 * `StopReceiver`: the Stop action of the fallback notification. It removes the
 * notification, cancels the id's registration and starts the ring screen with
 * only the `finish` extra; that launch fails with `SuperNotCalledException`
 * (`RingScreen.AlarmActivity`). The stored alarm is not touched.
 */
module StopReceiver {
  import opened Wrappers
  import opened Platform

  /** `onReceive` for the Stop action of alarm `alarmId`. */
  method OnReceive(device: Device, alarmId: int)
    modifies device
    ensures device.notifications == old(device.notifications) - {alarmId}
    ensures device.timers == old(device.timers) - {alarmId}
    ensures device.launches == old(device.launches) + [Launch(0, false, None, true)]
  {
    device.CancelNotification(alarmId);
    device.Cancel(alarmId);
    device.StartAlarmScreen(Launch(0, false, None, true));
  }
}
