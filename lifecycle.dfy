/**
 * How a stored alarm's record and its registration evolve when the pieces
 * run one after another: the alarm service delivers a registration to
 * `AlarmReceiver`, which launches the ring screen, and the user presses a
 * button there or on the fallback notification.
 *
 * Each scenario ends in a state where the alarm reads as enabled while no
 * registration is left under its id, so nothing will ring it again: the
 * natural invariant "enabled implies armed" does not hold for this app.
 */
module Lifecycle {
  import opened Wrappers
  import opened Clock
  import opened Alarms
  import opened Platform
  import opened Database
  import AlarmReceiver
  import SnoozeReceiver
  import StopReceiver
  import RingScreen

  /** The alarm stored under `id`, as the app reads it back. */
  function Stored(db: DatabaseHelper, id: int): (a: AlarmData)
    requires db.Valid() && id in db.rows
    reads db
    ensures a.id == id && Some(a) == ReadBack(id, db.rows[id])
  {
    AlarmReceiver.StoredAlarm(db.rows, id)
  }

  /**
   * The registration under `id` fires at `now`: the alarm service drops it
   * and `AlarmReceiver` runs with its extras. Returns the launch it makes.
   */
  method Fire(db: DatabaseHelper, device: Device, id: int, now: int) returns (launch: Launch)
    requires db.Valid() && id in device.timers
    modifies db, device
    ensures db.Valid() && db.ids == old(db.ids) && db.nextId == old(db.nextId)
    ensures var r := old(device.timers)[id];
      launch == Launch(id, r.snooze, r.ringtone, false) &&
      device.launches == old(device.launches) + [launch]
    ensures var r := old(device.timers)[id];
      id !in old(db.rows) ==> db.rows == old(db.rows) && device.timers == old(device.timers) - {id}
    ensures var r := old(device.timers)[id];
      id in old(db.rows) ==>
      var a := AlarmReceiver.StoredAlarm(old(db.rows), id);
      if r.snooze then
        db.rows == old(db.rows)[id := EncodeRow(a.(isSnoozing := true, enabled := true))] &&
        device.timers == old(device.timers) - {id}
      else if |a.daysOfWeek| > 0 then
        db.rows == old(db.rows)[id := EncodeRow(a.(nextAlarmTime := AlarmReceiver.Rearmed(a, now).triggerAt, isSnoozing := false))] &&
        device.timers == old(device.timers)[id := AlarmReceiver.Rearmed(a, now)]
      else
        db.rows == old(db.rows) && device.timers == old(device.timers) - {id}
    ensures device.notificationsAllowed ==> id in device.notifications
  {
    var r := device.Deliver(id);
    AlarmReceiver.OnReceive(db, device, id, r.value.snooze, r.value.ringtone, now);
    launch := Launch(id, r.value.snooze, r.value.ringtone, false);
  }

  /**
   * A repeating alarm rings and the user presses Stop on the ring screen.
   * The receiver has just re-armed it for its next weekday under its id, and
   * Stop cancels that very registration: the alarm stays enabled in the
   * store with nothing registered for it.
   */
  method StopRepeatingOnScreen(db: DatabaseHelper, device: Device, id: int, now: int)
    requires db.Valid() && id in db.rows && id in device.timers && !device.timers[id].snooze
    requires Stored(db, id).enabled && |Stored(db, id).daysOfWeek| > 0
    modifies db, device
    ensures db.Valid() && id in db.rows
    ensures Stored(db, id).enabled && !Stored(db, id).isSnoozing
    ensures id !in device.timers
  {
    var a := Stored(db, id);
    var launch := Fire(db, device, id, now);
    StoreRoundTrip(a.(nextAlarmTime := AlarmReceiver.Rearmed(a, now).triggerAt, isSnoozing := false), id);
    assert id in device.timers;
    var screen := new RingScreen.AlarmActivity(launch, db, device, now);
    screen.PressStop();
  }

  /**
   * A repeating alarm rings, the user presses Snooze, the snooze delivery
   * rings ten minutes later and the user presses Stop. Snooze replaces the
   * weekly re-arm with the snooze delivery; the snooze delivery marks the
   * alarm snoozing again instead of clearing the flag; Stop leaves a
   * repeating record alone. The alarm ends enabled and still snoozing, with
   * nothing registered for it.
   */
  method SnoozeThenStop(db: DatabaseHelper, device: Device, id: int, now: int)
    requires db.Valid() && id in db.rows && id in device.timers && !device.timers[id].snooze
    requires |Stored(db, id).daysOfWeek| > 0
    modifies db, device
    ensures db.Valid() && id in db.rows
    ensures Stored(db, id).enabled && Stored(db, id).isSnoozing
    ensures id !in device.timers
  {
    var a := Stored(db, id);
    var first := Fire(db, device, id, now);
    var rearmed := a.(nextAlarmTime := AlarmReceiver.Rearmed(a, now).triggerAt, isSnoozing := false);
    StoreRoundTrip(rearmed, id);
    var screen := new RingScreen.AlarmActivity(first, db, device, now);
    screen.PressSnooze(now);
    // the Snooze press replaced the re-arm with a snooze delivery ten minutes ahead
    assert device.timers[id] == SnoozeReceiver.SnoozeRegistration(now);
    var snoozing := ReadBack(id, EncodeRow(rearmed)).value.(isSnoozing := true, enabled := true);
    StoreRoundTrip(snoozing, id);
    var later := now + SnoozeReceiver.SnoozeDelayMs;
    var second := Fire(db, device, id, later);
    StoreRoundTrip(snoozing.(isSnoozing := true, enabled := true), id);
    var again := new RingScreen.AlarmActivity(second, db, device, later);
    assert !again.snoozeButtonEnabled;
    again.PressStop();
  }

  /**
   * A one-shot alarm rings with notifications allowed, and the user presses
   * Stop on the notification. The receiver leaves a one-shot record alone
   * and the Stop action never touches the store, so the alarm stays enabled
   * with its registration gone. The screen the Stop action launches returns
   * from `onCreate` before calling `super.onCreate`, so that launch fails
   * with `SuperNotCalledException`: `crashed` says so.
   */
  method StopOneShotFromNotification(db: DatabaseHelper, device: Device, id: int, now: int) returns (crashed: bool)
    requires db.Valid() && id in db.rows && id in device.timers && !device.timers[id].snooze
    requires device.notificationsAllowed
    requires Stored(db, id).enabled && |Stored(db, id).daysOfWeek| == 0
    modifies db, device
    ensures db.Valid() && db.rows == old(db.rows) && Stored(db, id).enabled
    ensures id !in device.timers && id !in device.notifications
    ensures crashed
  {
    var launch := Fire(db, device, id, now);
    StopReceiver.OnReceive(device, id);
    var finishing := device.launches[|device.launches| - 1];
    var screen := new RingScreen.AlarmActivity(finishing, db, device, now);
    crashed := screen.superNotCalled;
  }
}
