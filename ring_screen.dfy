/**
 * `AlarmActivity`: the full-screen ring screen. It plays the ringtone, posts
 * an auto-snooze to run three minutes later, and offers Snooze (disabled when
 * the screen was opened by a snooze delivery) and Stop.
 *
 * Sound playback is reduced to a `playing` flag and the main-thread handler
 * to the instant its pending auto-snooze runnable is due.
 */
module RingScreen {
  import opened Wrappers
  import opened Clock
  import opened Alarms
  import opened Platform
  import opened Database
  import SnoozeReceiver

  /** How long the screen rings before snoozing by itself: 180 seconds. */
  const AutoSnoozeDelayMs := 180 * SecondMs
  /** How far ahead the auto-snooze registers the next delivery: ten minutes. */
  const AutoSnoozeTimeMs := 10 * MinuteMs

  class AlarmActivity {
    var alarmId: int
    var snooze: bool
    /** The `ringtone` extra of the launching intent. */
    var ringtone: Option<string>
    var playing: bool
    /** Whether `onCreate` got as far as creating the handler. */
    var hasHandler: bool
    /** When the posted auto-snooze runnable is due, while it is still posted. */
    var autoSnoozeAt: Option<int>
    var snoozeButtonEnabled: bool
    var finished: bool
    /**
     * Whether `onCreate` returned without calling `super.onCreate`, which makes
     * the framework throw `SuperNotCalledException` for this launch.
     */
    var superNotCalled: bool
    const db: DatabaseHelper
    const device: Device

    /**
     * `onCreate` for a launch at `now`. With the `finish` extra it calls
     * `finish()` and returns before `super.onCreate`, so the launch fails with
     * `SuperNotCalledException` and nothing else happens; otherwise it starts
     * ringing, posts the auto-snooze and enables Snooze only for a delivery
     * that is not itself a snooze.
     */
    constructor (launch: Launch, db: DatabaseHelper, device: Device, now: int)
      ensures this.db == db && this.device == device
      ensures superNotCalled == launch.finish
      ensures launch.finish ==>
        finished && !playing && !hasHandler && autoSnoozeAt.None? && alarmId == 0 && !snooze
      ensures !launch.finish ==>
        !finished && playing && hasHandler &&
        alarmId == launch.alarmId && snooze == launch.snooze && ringtone == launch.ringtone &&
        autoSnoozeAt == Some(now + AutoSnoozeDelayMs) && snoozeButtonEnabled == !launch.snooze
    {
      this.db := db;
      this.device := device;
      if launch.finish {
        alarmId := 0;
        snooze := false;
        ringtone := None;
        playing := false;
        hasHandler := false;
        autoSnoozeAt := None;
        snoozeButtonEnabled := false;
        finished := true;
        superNotCalled := true;
      } else {
        alarmId := launch.alarmId;
        snooze := launch.snooze;
        ringtone := launch.ringtone;
        playing := true;
        hasHandler := true;
        autoSnoozeAt := Some(now + AutoSnoozeDelayMs);
        snoozeButtonEnabled := !launch.snooze;
        finished := false;
        superNotCalled := false;
      }
    }

    /** Marks the stored alarm of this screen as snoozing and enabled, if it is stored. */
    method MarkSnoozing()
      requires db.Valid()
      modifies db
      ensures db.Valid() && db.ids == old(db.ids) && db.nextId == old(db.nextId)
      ensures db.rows == if alarmId in old(db.rows)
        then old(db.rows)[alarmId := EncodeRow(ReadBack(alarmId, old(db.rows)[alarmId]).value.(isSnoozing := true, enabled := true))]
        else old(db.rows)
    {
      var found := FindStored(db, alarmId);
      if found.Some? {
        var alarm := found.value;
        alarm.SetSnoozing(true);
        alarm.SetEnabled(true);
        db.UpdateAlarm(alarm);
      }
    }

    /**
     * The Snooze button. While disabled a press does nothing. Otherwise the
     * auto-snooze is withdrawn, the stored alarm is marked snoozing, the
     * Snooze action's receiver runs for this id, the sound stops and the
     * screen closes.
     */
    method PressSnooze(now: int)
      requires db.Valid() && !finished
      modifies this, db, device
      ensures db.Valid() && db.ids == old(db.ids) && db.nextId == old(db.nextId)
      ensures !old(snoozeButtonEnabled) ==>
        db.rows == old(db.rows) && device.State() == old(device.State()) &&
        !finished && autoSnoozeAt == old(autoSnoozeAt) && playing == old(playing)
      ensures old(snoozeButtonEnabled) ==>
        db.rows == (if alarmId in old(db.rows)
          then old(db.rows)[alarmId := EncodeRow(ReadBack(alarmId, old(db.rows)[alarmId]).value.(isSnoozing := true, enabled := true))]
          else old(db.rows)) &&
        device.notifications == old(device.notifications) - {alarmId} &&
        device.launches == old(device.launches) + [Launch(0, false, None, false)] &&
        device.timers == old(device.timers)[alarmId := SnoozeReceiver.SnoozeRegistration(now)] &&
        finished && !playing && autoSnoozeAt.None?
      ensures alarmId == old(alarmId) && ringtone == old(ringtone) && snooze == old(snooze)
      ensures hasHandler == old(hasHandler) && snoozeButtonEnabled == old(snoozeButtonEnabled)
    {
      if !snoozeButtonEnabled {
        return;
      }
      autoSnoozeAt := None;
      MarkSnoozing();
      SnoozeReceiver.OnReceive(device, alarmId, now);
      playing := false;
      finished := true;
    }

    /**
     * The Stop button: withdraws the auto-snooze, turns a stored one-shot
     * alarm off (a repeating one keeps its state), removes the notification,
     * cancels the id's registration, stops the sound and closes the screen.
     */
    method PressStop()
      requires db.Valid() && !finished
      modifies this, db, device
      ensures db.Valid() && db.ids == old(db.ids) && db.nextId == old(db.nextId)
      ensures db.rows == if alarmId in old(db.rows) && |ReadBack(alarmId, old(db.rows)[alarmId]).value.daysOfWeek| == 0
        then old(db.rows)[alarmId := EncodeRow(ReadBack(alarmId, old(db.rows)[alarmId]).value.(enabled := false, nextAlarmTime := 0))]
        else old(db.rows)
      ensures device.State() == old(device.State()).(
        notifications := old(device.notifications) - {alarmId},
        timers := old(device.timers) - {alarmId})
      ensures finished && !playing && autoSnoozeAt.None?
      ensures alarmId == old(alarmId) && ringtone == old(ringtone) && snooze == old(snooze)
      ensures hasHandler == old(hasHandler) && snoozeButtonEnabled == old(snoozeButtonEnabled)
    {
      autoSnoozeAt := None;
      var found := FindStored(db, alarmId);
      if found.Some? && |found.value.daysOfWeek| == 0 {
        var alarm := found.value;
        alarm.SetEnabled(false);
        alarm.SetNextAlarmTime(0);
        db.UpdateAlarm(alarm);
      }
      device.CancelNotification(alarmId);
      device.Cancel(alarmId);
      playing := false;
      finished := true;
    }

    /**
     * The auto-snooze runnable, run at `now` while it is still posted: a
     * stored alarm is marked snoozing and a snooze delivery, carrying this
     * screen's ringtone extra, is registered ten minutes ahead; then the
     * sound stops and the screen closes. An id that is not stored registers
     * nothing.
     */
    method RunAutoSnooze(now: int)
      requires db.Valid() && !finished && autoSnoozeAt.Some?
      modifies this, db, device
      ensures db.Valid() && db.ids == old(db.ids) && db.nextId == old(db.nextId)
      ensures db.rows == if alarmId in old(db.rows)
        then old(db.rows)[alarmId := EncodeRow(ReadBack(alarmId, old(db.rows)[alarmId]).value.(isSnoozing := true, enabled := true))]
        else old(db.rows)
      ensures device.State() == old(device.State()).(timers :=
        if alarmId in old(db.rows) then old(device.timers)[alarmId := Registration(now + AutoSnoozeTimeMs, true, ringtone)]
        else old(device.timers))
      ensures finished && !playing && autoSnoozeAt.None?
      ensures alarmId == old(alarmId) && ringtone == old(ringtone) && snooze == old(snooze)
      ensures hasHandler == old(hasHandler) && snoozeButtonEnabled == old(snoozeButtonEnabled)
    {
      autoSnoozeAt := None;
      var stored := alarmId in db.rows;
      MarkSnoozing();
      if stored {
        device.SetExact(alarmId, Registration(now + AutoSnoozeTimeMs, true, ringtone));
      }
      playing := false;
      finished := true;
    }

    /**
     * `onDestroy`: withdraws the auto-snooze and stops the sound. Without a
     * handler the call would throw `NullPointerException` before anything
     * changes; `crashed` says so. Only a `finish` launch lacks a handler, and
     * that launch already fails in `onCreate`, so on the app's own paths
     * `onDestroy` runs with a handler.
     */
    method OnDestroy() returns (crashed: bool)
      modifies this
      ensures crashed == !old(hasHandler)
      ensures crashed ==> autoSnoozeAt == old(autoSnoozeAt) && playing == old(playing)
      ensures !crashed ==> autoSnoozeAt.None? && !playing
      ensures alarmId == old(alarmId) && ringtone == old(ringtone) && snooze == old(snooze) && finished == old(finished)
      ensures hasHandler == old(hasHandler) && snoozeButtonEnabled == old(snoozeButtonEnabled)
    {
      if !hasHandler {
        return true;
      }
      autoSnoozeAt := None;
      playing := false;
      return false;
    }
  }
}
