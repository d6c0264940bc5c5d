/**
 * `AlarmReceiver`: what happens when a registration fires. The ring screen is
 * launched with the registration's extras, a fallback notification is posted
 * when notifications are allowed, and the stored alarm with that id is marked
 * as snoozing (a snooze delivery) or re-armed for its next listed weekday (a
 * repeating alarm). A one-shot alarm is left as it is; turning it off is left
 * to the stop paths.
 */
module AlarmReceiver {
  import opened Wrappers
  import opened JavaInt
  import opened Clock
  import opened Alarms
  import opened Platform
  import opened Database

  /** Offsets added to the alarm id for the request codes of the notification's two actions. */
  const SnoozeActionOffset := 1000
  const StopActionOffset := 2000

  /**
   * The fallback notification for `alarmId`, posted under `alarmId`. The
   * notification id and the request codes of its Snooze and Stop actions are
   * pairwise distinct.
   */
  function FallbackNotice(alarmId: int, ringtone: Option<string>): (n: Notice)
    ensures n.ringtone == ringtone
    ensures alarmId != n.snoozeCode && alarmId != n.stopCode && n.snoozeCode != n.stopCode
    ensures n.snoozeCode - alarmId == SnoozeActionOffset && n.stopCode - alarmId == StopActionOffset
  {
    Notice(ringtone, alarmId + SnoozeActionOffset, alarmId + StopActionOffset)
  }

  /** The alarm the receiver finds for a stored id. */
  function StoredAlarm(rows: map<int, Row>, id: int): (a: AlarmData)
    requires id in rows && Readable(rows[id])
    ensures a.id == id && Some(a) == ReadBack(id, rows[id])
  {
    ReadBack(id, rows[id]).value
  }

  /** The registration that re-arms a repeating alarm after it has rung. */
  function Rearmed(a: AlarmData, now: int): Registration {
    Registration(NextTrigger(a.hour, a.minute, a.daysOfWeek, now), false, Some(a.ringtone))
  }

  /** `onReceive` for a delivery with extras `alarmId`, `snooze` and `ringtone`. */
  method OnReceive(db: DatabaseHelper, device: Device, alarmId: int, snooze: bool, ringtone: Option<string>, now: int)
    requires db.Valid()
    modifies db, device
    ensures db.Valid() && db.ids == old(db.ids) && db.nextId == old(db.nextId)
    ensures device.launches == old(device.launches) + [Launch(alarmId, snooze, ringtone, false)]
    ensures device.notifications == if device.notificationsAllowed
      then old(device.notifications)[alarmId := FallbackNotice(alarmId, ringtone)]
      else old(device.notifications)
    ensures alarmId !in old(db.rows) ==> db.rows == old(db.rows) && device.timers == old(device.timers)
    ensures alarmId in old(db.rows) ==>
      var a := StoredAlarm(old(db.rows), alarmId);
      if snooze then
        db.rows == old(db.rows)[alarmId := EncodeRow(a.(isSnoozing := true, enabled := true))] &&
        device.timers == old(device.timers)
      else if |a.daysOfWeek| > 0 then
        db.rows == old(db.rows)[alarmId := EncodeRow(a.(nextAlarmTime := Rearmed(a, now).triggerAt, isSnoozing := false))] &&
        device.timers == old(device.timers)[alarmId := Rearmed(a, now)]
      else
        db.rows == old(db.rows) && device.timers == old(device.timers)
  {
    device.StartAlarmScreen(Launch(alarmId, snooze, ringtone, false));
    if device.notificationsAllowed {
      device.Notify(alarmId, FallbackNotice(alarmId, ringtone));
    }
    var found := FindStored(db, alarmId);
    if found.Some? {
      var alarm := found.value;
      if snooze {
        alarm.SetSnoozing(true);
        alarm.SetEnabled(true);
        db.UpdateAlarm(alarm);
      } else if |alarm.daysOfWeek| > 0 {
        var triggerTime := alarm.CalculateNextAlarmTime(now);
        alarm.SetNextAlarmTime(triggerTime);
        alarm.SetSnoozing(false);
        db.UpdateAlarm(alarm);
        device.SetExact(alarm.id, Registration(triggerTime, false, Some(alarm.ringtone)));
      }
    }
  }

  /**
   * A repeating alarm re-armed after ringing fires strictly later, at its own
   * time of day, on a listed weekday, no later than a week ahead and never
   * after any qualifying occurrence. Its registration carries the default
   * ringtone, whatever ringtone the alarm was armed with before: the store
   * keeps no ringtone.
   */
  lemma RearmedAfterRinging(rows: map<int, Row>, id: int, now: int)
    requires id in rows && Readable(rows[id])
    requires var a := StoredAlarm(rows, id); ValidTime(a.hour, a.minute) && |a.daysOfWeek| > 0 && ValidDays(a.daysOfWeek)
    ensures var a := StoredAlarm(rows, id); var r := Rearmed(a, now);
      now < r.triggerAt <= Occurrence(a.hour, a.minute, now, 7) &&
      r.triggerAt % DayMs == a.hour * HourMs + a.minute * MinuteMs &&
      Weekday(r.triggerAt) in a.daysOfWeek &&
      (forall k: nat :: Occurrence(a.hour, a.minute, now, k) > now && Weekday(Occurrence(a.hour, a.minute, now, k)) in a.daysOfWeek ==>
        r.triggerAt <= Occurrence(a.hour, a.minute, now, k)) &&
      !r.snooze && r.ringtone == Some(DefaultRingtone)
  {
    var a := StoredAlarm(rows, id);
    RepeatingNextTrigger(a.hour, a.minute, a.daysOfWeek, now);
  }

  /** A snooze delivery leaves the stored alarm enabled and snoozing, with every other stored field as it was. */
  lemma SnoozeDeliveryKeepsAlarm(rows: map<int, Row>, id: int)
    requires id in rows && Readable(rows[id])
    ensures var a := StoredAlarm(rows, id);
      var row := EncodeRow(a.(isSnoozing := true, enabled := true));
      Readable(row) &&
      ReadBack(id, row) == Some(a.(isSnoozing := true, enabled := true))
  {
    var a := StoredAlarm(rows, id);
    StoreRoundTrip(a.(isSnoozing := true, enabled := true), id);
  }
}
