/**
 * `AlarmFragment`: the alarm list screen. It loads the stored alarms, refreshes
 * the next trigger of the enabled ones, hands the same list object to a fresh
 * adapter, and applies the editor's results, deletions (with undo) and switch
 * toggles to the store, the registrations and the list.
 *
 * The fragment's `alarmList` field and the adapter's list are one object
 * (`SharedList`); `Valid` records that aliasing.
 */
module AlarmList {
  import opened Wrappers
  import opened Alarms
  import opened Platform
  import opened Database
  import opened Adapter

  /** The state a loaded alarm is shown in: enabled alarms carry their next trigger, the others what was read. */
  function Refreshed(a: AlarmData, now: int): (r: AlarmData)
    ensures r.(nextAlarmTime := a.nextAlarmTime) == a
    ensures r.enabled ==> r.nextAlarmTime == NextTrigger(a.hour, a.minute, a.daysOfWeek, now)
    ensures !r.enabled ==> r == a
  {
    if a.enabled then a.(nextAlarmTime := NextTrigger(a.hour, a.minute, a.daysOfWeek, now)) else a
  }

  /** What loading row `id` produces: the row read back, then refreshed. */
  function Loaded(id: int, row: Row, now: int): Option<AlarmData> {
    match ReadBack(id, row)
    case Some(a) => Some(Refreshed(a, now))
    case None => None
  }

  /** The refresh loop of `loadAlarms` and `onResume`, over distinct alarm objects. */
  method RefreshNextTimes(alarms: seq<Alarm>, now: int)
    requires forall i, j :: 0 <= i < j < |alarms| ==> alarms[i] != alarms[j]
    modifies set a | a in alarms
    ensures forall i :: 0 <= i < |alarms| ==> alarms[i].Data() == Refreshed(old(alarms[i].Data()), now)
  {
    var k := 0;
    while k < |alarms|
      invariant 0 <= k <= |alarms|
      invariant forall i :: 0 <= i < k ==> alarms[i].Data() == Refreshed(old(alarms[i].Data()), now)
      invariant forall i :: k <= i < |alarms| ==> alarms[i].Data() == old(alarms[i].Data())
    {
      var alarm := alarms[k];
      if alarm.enabled {
        var t := alarm.CalculateNextAlarmTime(now);
        alarm.SetNextAlarmTime(t);
      }
      k := k + 1;
    }
  }

  /** `loadAlarms`: one new alarm object per stored row, in row order, refreshed, behind a new adapter over the same list. */
  method LoadList(db: DatabaseHelper, device: Device, now: int) returns (list: SharedList, adapter: AlarmAdapter)
    requires db.Valid()
    ensures fresh(list) && fresh(adapter)
    ensures adapter.alarms == list && adapter.db == db && adapter.device == device
    ensures |list.items| == |db.ids|
    ensures forall i :: 0 <= i < |list.items| ==>
      fresh(list.items[i]) && Loaded(db.ids[i], db.rows[db.ids[i]], now) == Some(list.items[i].Data())
  {
    var alarms := db.GetAllAlarms();
    RefreshNextTimes(alarms, now);
    list := new SharedList(alarms);
    adapter := new AlarmAdapter(list, db, device);
  }

  class AlarmFragment {
    var alarmList: SharedList
    var adapter: AlarmAdapter
    const db: DatabaseHelper
    const device: Device

    /** The store is consistent and the adapter works on the fragment's own list, store and device. */
    ghost predicate Valid()
      reads this, db
    {
      db.Valid() && adapter.alarms == alarmList && adapter.db == db && adapter.device == device
    }

    /** `onCreateView` followed by `loadAlarms`. */
    constructor (db: DatabaseHelper, device: Device, now: int)
      requires db.Valid()
      ensures Valid() && this.db == db && this.device == device
      ensures fresh(alarmList) && |alarmList.items| == |db.ids|
      ensures forall i :: 0 <= i < |alarmList.items| ==>
        fresh(alarmList.items[i]) && Loaded(db.ids[i], db.rows[db.ids[i]], now) == Some(alarmList.items[i].Data())
    {
      this.db := db;
      this.device := device;
      var list, adapter := LoadList(db, device, now);
      alarmList := list;
      this.adapter := adapter;
    }

    /** `onResume`: reloads the list exactly as the first load did. */
    method OnResume(now: int)
      requires Valid()
      modifies this
      ensures Valid()
      ensures fresh(alarmList) && |alarmList.items| == |db.ids|
      ensures forall i :: 0 <= i < |alarmList.items| ==>
        fresh(alarmList.items[i]) && Loaded(db.ids[i], db.rows[db.ids[i]], now) == Some(alarmList.items[i].Data())
    {
      var list, adapter := LoadList(db, device, now);
      alarmList := list;
      this.adapter := adapter;
    }

    /** The fragment's `scheduleAlarm`: registers the id at the next trigger, without touching the alarm's own fields. */
    method ScheduleAlarm(alarm: Alarm, now: int)
      modifies device
      ensures device.State() == old(device.State()).(timers := old(device.timers)[alarm.id := Armed(alarm.Data(), now)])
    {
      var triggerTime := alarm.CalculateNextAlarmTime(now);
      device.SetExact(alarm.id, Registration(triggerTime, false, Some(alarm.ringtone)));
    }

    /** The fragment's `cancelAlarm`. */
    method CancelAlarm(alarmId: int)
      modifies device
      ensures device.State() == old(device.State()).(timers := old(device.timers) - {alarmId})
    {
      device.Cancel(alarmId);
    }

    /** The middle step of `updateAlarm`: an enabled alarm gets its next trigger and is armed; a disabled one is cancelled. */
    method ArmOrCancel(alarm: Alarm, now: int)
      modifies alarm, device
      ensures alarm.Data() == old(alarm.Data()).(nextAlarmTime :=
        if alarm.enabled then NextTrigger(alarm.hour, alarm.minute, alarm.daysOfWeek, now) else old(alarm.nextAlarmTime))
      ensures device.State() == old(device.State()).(timers :=
        if alarm.enabled then old(device.timers)[alarm.id := Armed(old(alarm.Data()), now)]
        else old(device.timers) - {alarm.id})
    {
      if alarm.enabled {
        var t := alarm.CalculateNextAlarmTime(now);
        alarm.SetNextAlarmTime(t);
        ScheduleAlarm(alarm, now);
      } else {
        CancelAlarm(alarm.id);
      }
    }

    /** `onAlarmToggle`: enabling arms the alarm and shows its trigger; disabling cancels it and clears the shown time. */
    method OnAlarmToggle(alarm: Alarm, enabled: bool, now: int)
      modifies alarm, device
      ensures alarm.Data() == old(alarm.Data()).(nextAlarmTime :=
        if enabled then NextTrigger(alarm.hour, alarm.minute, alarm.daysOfWeek, now) else 0)
      ensures device.State() == old(device.State()).(timers :=
        if enabled then old(device.timers)[alarm.id := Armed(old(alarm.Data()), now)]
        else old(device.timers) - {alarm.id})
    {
      if enabled {
        var t := alarm.CalculateNextAlarmTime(now);
        alarm.SetNextAlarmTime(t);
        ScheduleAlarm(alarm, now);
      } else {
        CancelAlarm(alarm.id);
        alarm.SetNextAlarmTime(0);
      }
    }

    /**
     * A row's switch: the adapter's listener followed by `onAlarmToggle`.
     * Either way the stored and in-memory enabled flags agree with the switch,
     * and the id is registered at the next trigger exactly when it is on.
     */
    method OnSwitchChanged(alarm: Alarm, isChecked: bool, now: int)
      requires Valid()
      modifies alarm, db, device
      ensures Valid() && db.ids == old(db.ids) && db.nextId == old(db.nextId)
      ensures db.rows == if alarm.id in old(db.rows)
        then old(db.rows)[alarm.id := EncodeRow(old(alarm.Data()).(enabled := isChecked))]
        else old(db.rows)
      ensures alarm.Data() == old(alarm.Data()).(
        enabled := isChecked,
        nextAlarmTime := if isChecked then NextTrigger(alarm.hour, alarm.minute, alarm.daysOfWeek, now) else 0)
      ensures device.State() == old(device.State()).(timers :=
        if isChecked then old(device.timers)[alarm.id := Armed(old(alarm.Data()), now)]
        else old(device.timers) - {alarm.id})
    {
      adapter.OnSwitchToggled(alarm, isChecked, now);
      OnAlarmToggle(alarm, isChecked, now);
    }

    /**
     * `addAlarm`: stores the editor's alarm under the next row id, gives the
     * object that id, arms it when enabled and appends it to the list.
     */
    method AddAlarm(alarm: Alarm, now: int)
      requires Valid()
      modifies alarm, db, device, alarmList
      ensures Valid()
      ensures var id := old(db.nextId);
        db.rows == old(db.rows)[id := EncodeRow(old(alarm.Data()))] &&
        db.ids == old(db.ids) + [id] && db.nextId == id + 1 &&
        alarm.Data() == old(alarm.Data()).(id := id, nextAlarmTime :=
          if alarm.enabled then NextTrigger(alarm.hour, alarm.minute, alarm.daysOfWeek, now) else old(alarm.nextAlarmTime)) &&
        device.State() == old(device.State()).(timers :=
          if alarm.enabled then old(device.timers)[id := Armed(old(alarm.Data()), now)] else old(device.timers))
      ensures alarmList.items == old(alarmList.items) + [alarm]
    {
      var id := db.AddAlarm(alarm);
      alarm.SetId(id);
      if alarm.enabled {
        var t := alarm.CalculateNextAlarmTime(now);
        alarm.SetNextAlarmTime(t);
        ScheduleAlarm(alarm, now);
      }
      adapter.AddAlarm(alarm);
    }

    /**
     * `updateAlarm`: rewrites the stored row of the alarm's id (if there is
     * one), arms or cancels the id, and puts the object in place of the list
     * element with that id.
     */
    method UpdateAlarm(alarm: Alarm, now: int)
      requires Valid()
      modifies alarm, db, device, alarmList
      ensures Valid() && db.ids == old(db.ids) && db.nextId == old(db.nextId)
      ensures db.rows == if alarm.id in old(db.rows) then old(db.rows)[alarm.id := EncodeRow(old(alarm.Data()))] else old(db.rows)
      ensures alarm.Data() == old(alarm.Data()).(nextAlarmTime :=
        if alarm.enabled then NextTrigger(alarm.hour, alarm.minute, alarm.daysOfWeek, now) else old(alarm.nextAlarmTime))
      ensures device.State() == old(device.State()).(timers :=
        if alarm.enabled then old(device.timers)[alarm.id := Armed(old(alarm.Data()), now)]
        else old(device.timers) - {alarm.id})
      ensures var index := old(IndexOfId(alarmList.items, alarm.id));
        alarmList.items == if index == -1 then old(alarmList.items) else old(alarmList.items)[index := alarm]
    {
      ghost var index := IndexOfId(alarmList.items, alarm.id);
      db.UpdateAlarm(alarm);
      ArmOrCancel(alarm, now);
      assert IndexOfId(alarmList.items, alarm.id) == index;
      adapter.UpdateAlarm(alarm);
    }

    /**
     * `deleteAlarm` (a swipe): an out-of-range position changes nothing;
     * otherwise the alarm at that position leaves the store, the
     * registrations and the list, and is returned for the undo action.
     */
    method DeleteAlarm(position: int) returns (removed: Option<Alarm>)
      requires Valid()
      modifies db, device, alarmList
      ensures Valid()
      ensures if 0 <= position < |old(alarmList.items)| then
          var id := old(alarmList.items[position].id);
          removed == Some(old(alarmList.items[position])) &&
          db.rows == old(db.rows) - {id} && db.ids == Without(old(db.ids), id) && db.nextId == old(db.nextId) &&
          device.State() == old(device.State()).(timers := old(device.timers) - {id}) &&
          alarmList.items == RemoveAt(old(alarmList.items), position)
        else
          removed == None && db.rows == old(db.rows) && db.ids == old(db.ids) && db.nextId == old(db.nextId) &&
          device.State() == old(device.State()) && alarmList.items == old(alarmList.items)
    {
      if position < 0 || position >= |alarmList.items| {
        return None;
      }
      var alarm := alarmList.items[position];
      db.DeleteAlarm(alarm.id);
      CancelAlarm(alarm.id);
      adapter.RemoveAlarm(position);
      return Some(alarm);
    }

    /**
     * `restoreAlarm` (undo): stores the alarm again under a new row id, arms
     * it when enabled and inserts it at its old position, or at the end when
     * the list has become shorter. A negative position makes the insertion
     * throw after the store and the registration have been written; the
     * exception is caught and the list stays as it was.
     */
    method RestoreAlarm(alarm: Alarm, position: int, now: int)
      requires Valid()
      modifies alarm, db, device, alarmList
      ensures Valid()
      ensures var id := old(db.nextId);
        db.rows == old(db.rows)[id := EncodeRow(old(alarm.Data()))] &&
        db.ids == old(db.ids) + [id] && db.nextId == id + 1 &&
        alarm.Data() == old(alarm.Data()).(id := id, nextAlarmTime :=
          if alarm.enabled then NextTrigger(alarm.hour, alarm.minute, alarm.daysOfWeek, now) else old(alarm.nextAlarmTime)) &&
        device.State() == old(device.State()).(timers :=
          if alarm.enabled then old(device.timers)[id := Armed(old(alarm.Data()), now)] else old(device.timers))
      ensures var at := if position < |old(alarmList.items)| then position else |old(alarmList.items)|;
        alarmList.items == if at < 0 then old(alarmList.items)
          else old(alarmList.items)[..at] + [alarm] + old(alarmList.items)[at..]
    {
      var id := db.AddAlarm(alarm);
      alarm.SetId(id);
      if alarm.enabled {
        var t := alarm.CalculateNextAlarmTime(now);
        alarm.SetNextAlarmTime(t);
        ScheduleAlarm(alarm, now);
      }
      var at := if position < |alarmList.items| then position else |alarmList.items|;
      if at < 0 {
        return;
      }
      alarmList.items := alarmList.items[..at] + [alarm] + alarmList.items[at..];
    }
  }
}
