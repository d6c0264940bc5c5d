/**
 * `AlarmAdapter`: the alarm list behind the recycler view, its toggle
 * handler, and the registrations it makes and cancels.
 *
 * The adapter does not own its list: it holds the very `List<Alarm>` object
 * the fragment loaded, so changes through either are seen by both. That list
 * object is `SharedList` here.
 */
module Adapter {
  import opened Wrappers
  import opened Alarms
  import opened Platform
  import opened Database

  /** A `java.util.List<Alarm>` object: a sequence of references changed in place. */
  class SharedList {
    var items: seq<Alarm>

    constructor (items: seq<Alarm>)
      ensures this.items == items
    {
      this.items := items;
    }
  }

  /** The registration the list screens make for an alarm: its next trigger, no snooze flag, its ringtone. */
  function Armed(a: AlarmData, now: int): Registration {
    Registration(NextTrigger(a.hour, a.minute, a.daysOfWeek, now), false, Some(a.ringtone))
  }

  /** The index of the first alarm with that id, or -1. */
  function IndexOfId(items: seq<Alarm>, id: int): (index: int)
    reads items`id
    ensures -1 <= index < |items|
    ensures index == -1 <==> forall i :: 0 <= i < |items| ==> items[i].id != id
    ensures index >= 0 ==> items[index].id == id && forall i :: 0 <= i < index ==> items[i].id != id
  {
    if |items| == 0 then -1
    else if items[0].id == id then 0
    else
      var rest := IndexOfId(items[1..], id);
      if rest == -1 then -1 else rest + 1
  }

  /** The sequence with position `p` removed. */
  function RemoveAt<T>(s: seq<T>, p: int): (r: seq<T>)
    requires 0 <= p < |s|
    ensures |r| == |s| - 1
    ensures forall i :: 0 <= i < p ==> r[i] == s[i]
    ensures forall i :: p <= i < |r| ==> r[i] == s[i + 1]
  {
    s[..p] + s[p + 1..]
  }

  class AlarmAdapter {
    const alarms: SharedList
    const db: DatabaseHelper
    const device: Device

    constructor (alarms: SharedList, db: DatabaseHelper, device: Device)
      ensures this.alarms == alarms && this.db == db && this.device == device
    {
      this.alarms := alarms;
      this.db := db;
      this.device := device;
    }

    /** `addAlarm`: appends; every earlier element stays where it was. */
    method AddAlarm(alarm: Alarm)
      modifies alarms
      ensures alarms.items == old(alarms.items) + [alarm]
    {
      alarms.items := alarms.items + [alarm];
    }

    /** `findAlarmIndex`: scans from the front for the first id match. */
    method FindAlarmIndex(alarmId: int) returns (index: int)
      ensures index == IndexOfId(alarms.items, alarmId)
    {
      var i := 0;
      while i < |alarms.items|
        invariant 0 <= i <= |alarms.items|
        invariant forall j :: 0 <= j < i ==> alarms.items[j].id != alarmId
      {
        if alarms.items[i].id == alarmId {
          return i;
        }
        i := i + 1;
      }
      return -1;
    }

    /** `updateAlarm`: puts the object in place of the first element with its id; with no such element nothing changes. */
    method UpdateAlarm(alarm: Alarm)
      modifies alarms
      ensures var index := IndexOfId(old(alarms.items), alarm.id);
        alarms.items == if index == -1 then old(alarms.items) else old(alarms.items)[index := alarm]
    {
      var index := FindAlarmIndex(alarm.id);
      if index != -1 {
        alarms.items := alarms.items[index := alarm];
      }
    }

    /** `removeAlarm`: out-of-range positions are ignored; otherwise cancels that alarm's registration and removes exactly that element. */
    method RemoveAlarm(position: int)
      modifies alarms, device
      ensures if 0 <= position < |old(alarms.items)| then
          alarms.items == RemoveAt(old(alarms.items), position) &&
          device.State() == old(device.State()).(timers := old(device.timers) - {old(alarms.items[position].id)})
        else
          alarms.items == old(alarms.items) && device.State() == old(device.State())
    {
      if 0 <= position < |alarms.items| {
        var alarm := alarms.items[position];
        CancelAlarm(alarm.id);
        alarms.items := alarms.items[..position] + alarms.items[position + 1..];
      }
    }

    /** `scheduleAlarm`: sets the next alarm time and registers the id for that instant, replacing any earlier registration. */
    method ScheduleAlarm(alarm: Alarm, now: int)
      modifies alarm, device
      ensures alarm.Data() == old(alarm.Data()).(nextAlarmTime := NextTrigger(alarm.hour, alarm.minute, alarm.daysOfWeek, now))
      ensures device.State() == old(device.State()).(timers := old(device.timers)[alarm.id := Armed(old(alarm.Data()), now)])
    {
      var triggerTime := alarm.CalculateNextAlarmTime(now);
      alarm.SetNextAlarmTime(triggerTime);
      device.SetExact(alarm.id, Registration(triggerTime, false, Some(alarm.ringtone)));
    }

    /** `cancelAlarm`: drops the id's registration; with none registered nothing changes. */
    method CancelAlarm(alarmId: int)
      modifies device
      ensures device.State() == old(device.State()).(timers := old(device.timers) - {alarmId})
      ensures alarmId !in old(device.timers) ==> device.State() == old(device.State())
    {
      device.Cancel(alarmId);
    }

    /**
     * The switch listener of one row, up to the call of the fragment's
     * `onAlarmToggle`: the new enabled state is written to the store, then
     * the alarm is armed at its next trigger or its registration is cancelled.
     */
    method OnSwitchToggled(alarm: Alarm, isChecked: bool, now: int)
      requires db.Valid()
      modifies alarm, db, device
      ensures db.Valid() && db.ids == old(db.ids) && db.nextId == old(db.nextId)
      ensures db.rows == if alarm.id in old(db.rows)
        then old(db.rows)[alarm.id := EncodeRow(old(alarm.Data()).(enabled := isChecked))]
        else old(db.rows)
      ensures alarm.Data() == old(alarm.Data()).(
        enabled := isChecked,
        nextAlarmTime := if isChecked then NextTrigger(alarm.hour, alarm.minute, alarm.daysOfWeek, now)
                         else old(alarm.nextAlarmTime))
      ensures device.State() == old(device.State()).(timers :=
        if isChecked then old(device.timers)[alarm.id := Armed(old(alarm.Data()), now)]
        else old(device.timers) - {alarm.id})
    {
      alarm.SetEnabled(isChecked);
      db.UpdateAlarm(alarm);
      if isChecked {
        ScheduleAlarm(alarm, now);
        var next := alarm.CalculateNextAlarmTime(now);
        alarm.SetNextAlarmTime(next);
      } else {
        CancelAlarm(alarm.id);
      }
    }
  }
}
