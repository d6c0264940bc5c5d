# Alarm clock core in Dafny

This project models the deterministic core of an Android alarm clock app, and proves properties of that model. The app has four parts:

- **Alarm list.** A list of alarms, each with a time of day, optional repeat weekdays and on/off state. They are kept in an SQLite table and armed with exact registrations at the alarm service.
- **Editor dialog.** A dialog that edits one alarm, with seven day buttons and Once / Weekdays / Daily preset chips.
- **Ringing path.** `AlarmReceiver` fires and opens the full-screen `AlarmActivity`. That screen, and a fallback notification whose actions go to `SnoozeReceiver` and `StopReceiver`, handle Snooze and Stop.
- **Timer and stopwatch.** A countdown timer and a stopwatch.

## How the model is organised

| Dafny module | Models |
|---|---|
| `Clock` | Epoch milliseconds in local time. A day is 86 400 000 ms. `Weekday(t)` follows `Calendar.DAY_OF_WEEK` (1 = Sunday … 7 = Saturday); epoch day 0 was a Thursday. |
| `JavaInt` | Java's truncating `/` and `%`, and the wrap-around of a cast to `int`. |
| `JavaText` | `Integer.toString`, `Integer.parseInt` (`None` where it throws), `String.trim` and `String.split`. |
| `Alarms` | The `Alarm` class. `AlarmData` is the value of all its fields. The next-trigger calculation comes as a specification function plus the looping method. Also the display helpers. |
| `Platform` | The alarm service, notifications and activity launches, reduced to their state (the `Device` class): registrations keyed by request code, posted notifications, and a log of launches. |
| `Database` | `DatabaseHelper`: the row codec (days as comma-joined text, flags as 0/1) and the table as a map from id to row, with AUTOINCREMENT ids. |
| `Adapter`, `AlarmList` | `AlarmAdapter` and `AlarmFragment`. Both hold the same list object (`SharedList`), so a change through one is seen by the other. |
| `Editor` | `AlarmDialogFragment`: the seven-slot `selectedDays` array, the chip classifier, day-list conversion, snooze preselection and `saveAlarm`. |
| `AlarmReceiver`, `SnoozeReceiver`, `StopReceiver`, `RingScreen` | The ringing lifecycle. |
| `Lifecycle` | Scenarios that run these pieces one after another. |
| `Countdown`, `Stopwatch` | `TimerFragment` and `StopwatchFragment`. |

Inputs that come from outside the app are parameters:

- `now` is the current instant, read once per handler.
- Whether `POST_NOTIFICATIONS` was granted is `Device.notificationsAllowed`.
- The editor's widgets are the `Form` value.

Each run of a `Handler` runnable is one method call (`Tick`, `RunAutoSnooze`). Whether a runnable is posted is a field.

### Behaviour of the code worth knowing

- **One-shot alarm whose slot equals `now`.** The code moves today's slot on by a day only when it is strictly *before* `now` (`Calendar.before`). A slot equal to `now` is returned as is, so the result is not strictly in the future (`Alarms.OneShotNextTrigger`).
- **Snooze delay.** Snoozing always registers the next delivery 10 minutes ahead. It does not use the alarm's `snoozeDuration`, and it does not record the snooze instant in `nextAlarmTime` (`SnoozeReceiver.SnoozeIgnoresDuration`, `RingScreen.AlarmActivity.RunAutoSnooze`).
- **Snooze delivery.** A snooze delivery *sets* `isSnoozing` and `enabled`. It does not clear the flag or arm the next weekday (`AlarmReceiver.OnReceive`, `Lifecycle.SnoozeThenStop`).
- **Auto-snooze timing.** The ring screen auto-snoozes after 180 s (`AUTO_SNOOZE_DELAY`), three minutes, although the comment beside the constant reads one minute.

### Behaviour the model exhibits

Each of these scenarios ends with the alarm enabled while no registration is left under its id. The invariant "enabled implies armed" therefore does not hold for this app.

- **Stop on the ring screen of a repeating alarm** (`Lifecycle.StopRepeatingOnScreen`). Stop cancels the registration keyed by the id, and that is the re-arm the receiver has just made.
- **Snooze, then Stop** (`Lifecycle.SnoozeThenStop`). The alarm ends enabled and still snoozing, and nothing is registered for it.
- **Stop on the notification of a one-shot alarm** (`Lifecycle.StopOneShotFromNotification`). This never turns the alarm off. The screen that Stop launches with the `finish` extra returns from `onCreate` before calling `super.onCreate`, so that launch fails with `SuperNotCalledException` (`RingScreen.AlarmActivity.constructor`).

Further behaviour of the code:

- **Snooze relaunch.** Pressing Snooze relaunches the ring screen with no extras, i.e. for alarm id 0 and not as a snooze.
- **Ringtone on re-arm.** A re-armed repeating alarm carries the ringtone `"default"`, because the store keeps no ringtone.
- **Timer minutes overflow.** The timer's `minutes * 60 * 1000` overflows `int` from 35 792 minutes (`Countdown.LongInputWraps`).
- **Timer start/stop flag.** Start/Stop flips the running flag even when the minutes field is empty and nothing is posted.
- **Stopwatch wrap.** The stopwatch display wraps after 2^31 whole seconds (`Stopwatch.FaceWrapsAfterIntSeconds`).

## Model

| member | source | states |
|---|---|---|
| Clock.StartOfDay | app/src/main/java/com/example/alarmclock/Alarm.java:202-205 | Midnight of the instant's day: a whole number of days, at most `t` and less than a day before it. |
| Clock.Weekday | app/src/main/java/com/example/alarmclock/Alarm.java:207-208 | The weekday is in 1..7. |
| Clock.WeekdayAhead | app/src/main/java/com/example/alarmclock/Alarm.java:222 | `k` days later the weekday is `(current + k - 1) % 7 + 1`, the source's wrap of an offset into 1..7. |
| Alarms.Alarm.constructor | app/src/main/java/com/example/alarmclock/Alarm.java:26-41 | Full constructor. A null day list becomes empty and a null label becomes "". Ringtone is "default", not snoozing, next time 0. The day list is a value, so the alarm holds its own copy. |
| Alarms.Alarm.Basic | app/src/main/java/com/example/alarmclock/Alarm.java:21-24 | Six-argument constructor: label "", vibration on, snooze duration 10, with the full constructor's defaults otherwise. |
| Alarms.Alarm.SetId | app/src/main/java/com/example/alarmclock/Alarm.java:93-95 | Only the id changes. |
| Alarms.Alarm.SetHour | app/src/main/java/com/example/alarmclock/Alarm.java:97-99 | Only the hour changes. |
| Alarms.Alarm.SetMinute | app/src/main/java/com/example/alarmclock/Alarm.java:101-103 | Only the minute changes. |
| Alarms.Alarm.SetSnooze | app/src/main/java/com/example/alarmclock/Alarm.java:109-111 | Only the snooze switch changes. |
| Alarms.Alarm.SetVibrationEnabled | app/src/main/java/com/example/alarmclock/Alarm.java:121-123 | Only the vibration switch changes. |
| Alarms.Alarm.SetSnoozeDuration | app/src/main/java/com/example/alarmclock/Alarm.java:125-127 | Only the snooze duration changes. |
| Alarms.Alarm.SetDaysOfWeek | app/src/main/java/com/example/alarmclock/Alarm.java:105-107 | Only the day list changes; null becomes empty. |
| Alarms.Alarm.SetLabel | app/src/main/java/com/example/alarmclock/Alarm.java:117-119 | Only the label changes; null becomes "". |
| Alarms.Alarm.SetRingtone | app/src/main/java/com/example/alarmclock/Alarm.java:129-131 | Only the ringtone changes; null becomes "default". |
| Alarms.Alarm.SetEnabled | app/src/main/java/com/example/alarmclock/Alarm.java:113-115 | Only `enabled` changes. |
| Alarms.Alarm.SetSnoozing | app/src/main/java/com/example/alarmclock/Alarm.java:133-135 | Only `isSnoozing` changes. |
| Alarms.Alarm.SetNextAlarmTime | app/src/main/java/com/example/alarmclock/Alarm.java:137-139 | Only `nextAlarmTime` changes. |
| Alarms.DisplayHour | app/src/main/java/com/example/alarmclock/Alarm.java:150-151 | For hours 0..23 the 12-hour display is in 1..12 and agrees with the hour modulo 12. |
| Alarms.TwelveHourRoundTrip | app/src/main/java/com/example/alarmclock/Alarm.java:146-153 | "AM" exactly for hours below 12. The display hour together with AM/PM gives back the hour (0 shows as 12, 13..23 as hour − 12). |
| Alarms.NamesUpTo | app/src/main/java/com/example/alarmclock/Alarm.java:173-183 | At most `n` names, each of three letters (the lengths `JoinedLength` relies on). |
| Alarms.JoinedLength | app/src/main/java/com/example/alarmclock/Alarm.java:178-181 | `n` names joined by ", " take `5n − 2` characters. |
| Alarms.NamedDays | app/src/main/java/com/example/alarmclock/Alarm.java:176-183 | The custom text names weekday `k + 1` exactly when it is listed; values outside 1..7 are dropped. |
| Alarms.NamesInCalendarOrder | app/src/main/java/com/example/alarmclock/Alarm.java:176-183 | The names come in Sunday..Saturday order: each is `DayNames[k]` for a listed slot `k`, at strictly increasing slots, so none appears twice whatever the order or repetitions of the day list. |
| Alarms.OnceIffNotRepeating | app/src/main/java/com/example/alarmclock/Alarm.java:155-158 | The text is "Once" exactly when the alarm does not repeat (`isRepeating`, line 188). |
| Alarms.Alarm.DaysString | app/src/main/java/com/example/alarmclock/Alarm.java:155-186 | The loop builds the "Once" / "Daily" / "Weekdays" / day-name text of `DaysText`. |
| Alarms.DaysToAddLeast | app/src/main/java/com/example/alarmclock/Alarm.java:219-233 | The offset is the least eligible one in 0..6, where offset 0 counts only while today's slot is still ahead. It is 7 when none is eligible. |
| Alarms.DaysToAddIs | app/src/main/java/com/example/alarmclock/Alarm.java:219-233 | Conversely, an offset whose predecessors are all ineligible is the chosen one, if it is eligible or is 7. |
| Alarms.SlotOnToday | app/src/main/java/com/example/alarmclock/Alarm.java:202-205 | Today's slot lies on today's date at `hour:minute:00.000`. |
| Alarms.OccurrenceShape | app/src/main/java/com/example/alarmclock/Alarm.java:236 | Adding `k` days keeps the time of day and moves the weekday on by `k`. |
| Alarms.OneShotNextTrigger | app/src/main/java/com/example/alarmclock/Alarm.java:211-217 | One-shot result: today's slot exactly when it is not before `now`, otherwise one day later. Always `now ≤ r < now + 1 day`, at `hour:minute`. |
| Alarms.RepeatingNextTrigger | app/src/main/java/com/example/alarmclock/Alarm.java:219-238 | Repeating result with days in 1..7: strictly after `now`, at `hour:minute`, on a listed weekday, at most 7 days after today's slot. No earlier instant has all of those properties. |
| Alarms.OnlyTodayListed | app/src/main/java/com/example/alarmclock/Alarm.java:220-236 | The fallback of 7 days happens only when today's weekday is the one listed day. |
| Alarms.NoEarlierOccurrence | app/src/main/java/com/example/alarmclock/Alarm.java:221-233 | Every qualifying future slot is at least the chosen offset away. |
| Alarms.OneShotLaterToday | app/src/main/java/com/example/alarmclock/Alarm.java:211-217 | Example: a 07:00 one-shot alarm at 06:00 rings the same day. |
| Alarms.RepeatingSkipsToWednesday | app/src/main/java/com/example/alarmclock/Alarm.java:220-238 | Example: Mon/Wed/Fri 07:00, at Monday 08:00, rings Wednesday 07:00. |
| Alarms.Alarm.CalculateNextAlarmTime | app/src/main/java/com/example/alarmclock/Alarm.java:197-239 | The loop with `break` returns `NextTrigger`, so two calls with the same `now` agree. |
| Alarms.TimeUntilNext | app/src/main/java/com/example/alarmclock/Alarm.java:241-264 | Blank exactly when no time is set; "Now" exactly when the difference is ≤ 0. Otherwise the shown units round the difference down to whole minutes, hours are in 0..23, minutes in 0..59, and leading zero units are left out. |
| Alarms.EqualsIsEquivalence | app/src/main/java/com/example/alarmclock/Alarm.java:278-290 | `equals` (same id) is reflexive, symmetric and transitive, and equal alarms have equal hash codes. |
| JavaText.Trim | app/src/main/java/com/example/alarmclock/AlarmDialogFragment.java:356 | The saved label is the typed text `s[i..j]` with exactly its leading and trailing runs of characters up to the space removed: every character outside the piece is such a character, and the piece neither starts nor ends with one; a label already free of them is kept as is. |
| JavaText.ParseDecimal | app/src/main/java/com/example/alarmclock/DatabaseHelper.java:112 | `parseInt` reads back every `int` that `toString` wrote. |
| Database.JoinedCommas | app/src/main/java/com/example/alarmclock/DatabaseHelper.java:98-105 | The text of `n` days is "" exactly for `n = 0`. Otherwise it holds `n − 1` commas and does not start or end with one. |
| Database.ListToString | app/src/main/java/com/example/alarmclock/DatabaseHelper.java:98-105 | The builder loop produces `Joined(days)`. |
| Database.StringToList | app/src/main/java/com/example/alarmclock/DatabaseHelper.java:107-116 | The parse loop produces `Decode`: null and "" give the empty list, and a piece `parseInt` rejects gives `None`. |
| Database.ParsePieces | app/src/main/java/com/example/alarmclock/DatabaseHelper.java:111-113 | The piece loop stops at the first unparsable piece and otherwise collects every value. |
| Database.DaysRoundTrip | app/src/main/java/com/example/alarmclock/DatabaseHelper.java:98-116 | `stringToList(listToString(days)) == days` for every list of `int`s, keeping order and duplicates. |
| Database.FlagRoundTrip | app/src/main/java/com/example/alarmclock/DatabaseHelper.java:54-56 | Flags are written as 1/0 and read back as true exactly for 1. |
| Database.ReadBack | app/src/main/java/com/example/alarmclock/DatabaseHelper.java:82-91 | A row reads back exactly when its days text decodes, and the alarm gets the row's id. |
| Database.StoreRoundTrip | app/src/main/java/com/example/alarmclock/DatabaseHelper.java:48-58 | Writing then reading keeps id, hour, minute, days, snooze, enabled and isSnoozing. Label "", vibration on, snooze duration 10, ringtone "default" and next time 0 come back whatever was written. |
| Database.RewriteIsStable | app/src/main/java/com/example/alarmclock/DatabaseHelper.java:60-70 | Writing back what was read reproduces the stored row. |
| Database.UpgradedRowsNotSnoozing | app/src/main/java/com/example/alarmclock/DatabaseHelper.java:42-46 | After the upgrade from version 1 every row reads as not snoozing, with its other columns as before. |
| Database.Without | app/src/main/java/com/example/alarmclock/DatabaseHelper.java:72-75 | Deleting an id keeps the other ids, in increasing order. |
| Database.DatabaseHelper.constructor | app/src/main/java/com/example/alarmclock/DatabaseHelper.java:24-39 | An empty table whose next id is 1. |
| Database.DatabaseHelper.OnUpgrade | app/src/main/java/com/example/alarmclock/DatabaseHelper.java:42-46 | From a version below 2 the `is_snoozing` column is added with value 0; otherwise nothing changes. |
| Database.DatabaseHelper.AddAlarm | app/src/main/java/com/example/alarmclock/DatabaseHelper.java:48-58 | A new row under the next id, which is returned. Existing rows are unchanged. |
| Database.DatabaseHelper.UpdateAlarm | app/src/main/java/com/example/alarmclock/DatabaseHelper.java:60-70 | Overwrites only the row with the alarm's id, and does nothing if there is none. |
| Database.DatabaseHelper.DeleteAlarm | app/src/main/java/com/example/alarmclock/DatabaseHelper.java:72-75 | Removes only that row. |
| Database.DatabaseHelper.GetAllAlarms | app/src/main/java/com/example/alarmclock/DatabaseHelper.java:77-96 | One new, distinct alarm object per row, in row order, each holding that row read back. |
| Database.ReadAlarm | app/src/main/java/com/example/alarmclock/DatabaseHelper.java:82-92 | The six-argument constructor followed by `setSnoozing` gives `ReadBack`. |
| Database.FirstWithId | app/src/main/java/com/example/alarmclock/AlarmReceiver.java:82-85 | `filter(...).findFirst()`: the first listed alarm with that id (every earlier one has another id), or none exactly when no alarm has it. |
| Database.FindStored | app/src/main/java/com/example/alarmclock/AlarmActivity.java:103-107 | The lookup finds an alarm exactly when a row has that id, and the object found holds that row. |
| Adapter.IndexOfId | app/src/main/java/com/example/alarmclock/AlarmAdapter.java:257-264 | The first index whose id matches, or −1 exactly when none does. |
| Adapter.RemoveAt | app/src/main/java/com/example/alarmclock/AlarmAdapter.java:250 | Exactly the element at the position is removed; the others keep their order. |
| Adapter.AlarmAdapter.constructor | app/src/main/java/com/example/alarmclock/AlarmAdapter.java:35-40 | The adapter keeps the caller's list object itself, not a copy. |
| Adapter.AlarmAdapter.FindAlarmIndex | app/src/main/java/com/example/alarmclock/AlarmAdapter.java:257-264 | The scanning loop returns `IndexOfId`. |
| Adapter.AlarmAdapter.AddAlarm | app/src/main/java/com/example/alarmclock/AlarmAdapter.java:235-238 | Appends. The size grows by one and earlier elements are unchanged. |
| Adapter.AlarmAdapter.UpdateAlarm | app/src/main/java/com/example/alarmclock/AlarmAdapter.java:240-246 | Replaces only the element at the found index and keeps the size. Does nothing when the id is absent. |
| Adapter.AlarmAdapter.RemoveAlarm | app/src/main/java/com/example/alarmclock/AlarmAdapter.java:248-255 | An out-of-range position changes nothing. Otherwise it cancels that alarm's registration and removes exactly that element. |
| Adapter.AlarmAdapter.ScheduleAlarm | app/src/main/java/com/example/alarmclock/AlarmAdapter.java:180-215 | Sets `nextAlarmTime` to the next trigger and registers the id for it, replacing any earlier registration. |
| Adapter.AlarmAdapter.CancelAlarm | app/src/main/java/com/example/alarmclock/AlarmAdapter.java:217-232 | Drops the id's registration. With none registered, nothing changes. |
| Adapter.AlarmAdapter.OnSwitchToggled | app/src/main/java/com/example/alarmclock/AlarmAdapter.java:112-128 | Writes the new enabled state to the store, then arms the id at its next trigger (on) or cancels it (off). |
| AlarmList.Refreshed | app/src/main/java/com/example/alarmclock/AlarmFragment.java:81-85 | Only `nextAlarmTime` changes. An enabled alarm gets its next trigger; a disabled one is untouched. |
| AlarmList.RefreshNextTimes | app/src/main/java/com/example/alarmclock/AlarmFragment.java:379-383 | The refresh loop applies `Refreshed` to every alarm. |
| AlarmList.LoadList | app/src/main/java/com/example/alarmclock/AlarmFragment.java:77-91 | One object per stored row, in row order, read back and refreshed, behind a new adapter over the same list object. |
| AlarmList.AlarmFragment.constructor | app/src/main/java/com/example/alarmclock/AlarmFragment.java:41-50 | The fragment is created and loads the list as `LoadList` does. |
| AlarmList.AlarmFragment.OnResume | app/src/main/java/com/example/alarmclock/AlarmFragment.java:374-389 | Reloads: recomputes `nextAlarmTime` for enabled alarms only. |
| AlarmList.AlarmFragment.ScheduleAlarm | app/src/main/java/com/example/alarmclock/AlarmFragment.java:252-285 | Registers the id at `calculateNextAlarmTime`, keyed by the alarm id. |
| AlarmList.AlarmFragment.CancelAlarm | app/src/main/java/com/example/alarmclock/AlarmFragment.java:288-303 | Drops the id's registration. |
| AlarmList.AlarmFragment.ArmOrCancel | app/src/main/java/com/example/alarmclock/AlarmFragment.java:176-181 | Enabled: next trigger set and registered. Disabled: registration cancelled. |
| AlarmList.AlarmFragment.OnAlarmToggle | app/src/main/java/com/example/alarmclock/AlarmFragment.java:125-142 | On: sets `nextAlarmTime` and registers. Off: cancels and sets `nextAlarmTime = 0`. |
| AlarmList.AlarmFragment.OnSwitchChanged | app/src/main/java/com/example/alarmclock/AlarmAdapter.java:109-137 | The switch leaves the store's and the object's enabled flag equal to the switch. The id is registered at its next trigger exactly when on. |
| AlarmList.AlarmFragment.AddAlarm | app/src/main/java/com/example/alarmclock/AlarmFragment.java:145-170 | The id comes from the store insert. The alarm is registered only if enabled and is appended to the list. |
| AlarmList.AlarmFragment.UpdateAlarm | app/src/main/java/com/example/alarmclock/AlarmFragment.java:172-194 | Writes the store, then recomputes and registers (enabled) or cancels (disabled). The list element with that id is replaced. |
| AlarmList.AlarmFragment.DeleteAlarm | app/src/main/java/com/example/alarmclock/AlarmFragment.java:196-225 | An out-of-range position changes nothing. Otherwise the row, the registration and the list element go, and the alarm is returned for undo. |
| AlarmList.AlarmFragment.RestoreAlarm | app/src/main/java/com/example/alarmclock/AlarmFragment.java:227-248 | A fresh store id, registered only if enabled, reinserted at `min(position, size)`. A negative position throws after the store write, and the list stays as it was. |
| Editor.CountIsSelected | app/src/main/java/com/example/alarmclock/AlarmDialogFragment.java:233-235 | The count is the number of selected positions, `|{i : slots[i]}|`. |
| Editor.CountSeven | app/src/main/java/com/example/alarmclock/AlarmDialogFragment.java:233-243 | The count of seven slots is the sum of their bits. |
| Editor.Classify | app/src/main/java/com/example/alarmclock/AlarmDialogFragment.java:229-266 | Once iff no slot is selected, Daily iff all seven are, Weekdays iff exactly indices 1..5 are. |
| Editor.DaysUpTo | app/src/main/java/com/example/alarmclock/AlarmDialogFragment.java:347-352 | After `n` slots the list is ascending, within 1..n, and lists `k + 1` exactly for selected slot `k`. |
| Editor.SavedDays | app/src/main/java/com/example/alarmclock/AlarmDialogFragment.java:347-352 | The saved list is strictly ascending in 1..7, with no duplicates, and lists exactly the selected slots. |
| Editor.AscendingUnique | app/src/main/java/com/example/alarmclock/AlarmDialogFragment.java:347-352 | Two strictly ascending lists with the same members are equal. |
| Editor.LoadedSlots | app/src/main/java/com/example/alarmclock/AlarmDialogFragment.java:194-198 | Loading selects slot `d − 1` for each listed day `d` in 1..7 and ignores other values. |
| Editor.SaveAfterLoad | app/src/main/java/com/example/alarmclock/AlarmDialogFragment.java:194-198 | Loading an ascending 1..7 list and saving gives that list back. |
| Editor.LoadAfterSave | app/src/main/java/com/example/alarmclock/AlarmDialogFragment.java:347-352 | Loading what was saved reproduces the same slots. |
| Editor.PresetText | app/src/main/java/com/example/alarmclock/Alarm.java:155-170 | The chip the editor checks and the list's text for the saved days agree, in both directions, for Once, Daily and Weekdays. |
| Editor.PreselectIndex | app/src/main/java/com/example/alarmclock/AlarmDialogFragment.java:317-322 | The position of the current duration in {1, 5, 10, 15, 30}, or index 2 when it is not there. |
| Editor.AlarmDialogFragment.constructor | app/src/main/java/com/example/alarmclock/AlarmDialogFragment.java:170-207 | Editing: the form shows the alarm, the days are loaded and the chips classified. Adding: Once is checked and the days cleared. |
| Editor.AlarmDialogFragment.LoadDays | app/src/main/java/com/example/alarmclock/AlarmDialogFragment.java:194-198 | Sets the slot of every listed day in 1..7 and leaves the others as they were. |
| Editor.AlarmDialogFragment.CountSelection | app/src/main/java/com/example/alarmclock/AlarmDialogFragment.java:230-243 | The loop's count is the number of selected days, and its weekday flag holds exactly when Monday to Friday and nothing else are selected. |
| Editor.AlarmDialogFragment.UpdateChipStates | app/src/main/java/com/example/alarmclock/AlarmDialogFragment.java:229-266 | The counting loop checks at most one chip, the one `Classify` gives. |
| Editor.AlarmDialogFragment.ToggleDay | app/src/main/java/com/example/alarmclock/AlarmDialogFragment.java:209-213 | Flips that slot, keeps the other six, and reclassifies the chips. |
| Editor.AlarmDialogFragment.ClearAllDays | app/src/main/java/com/example/alarmclock/AlarmDialogFragment.java:298-301 | All seven slots become false. |
| Editor.AlarmDialogFragment.SetWeekdays | app/src/main/java/com/example/alarmclock/AlarmDialogFragment.java:303-310 | Exactly indices 1..5 become true. |
| Editor.AlarmDialogFragment.SetAllDays | app/src/main/java/com/example/alarmclock/AlarmDialogFragment.java:312-315 | All seven slots become true. |
| Editor.AlarmDialogFragment.TapOnce | app/src/main/java/com/example/alarmclock/AlarmDialogFragment.java:273-279 | Checking Once clears the days and unchecks the other chips. Unchecking changes nothing else. |
| Editor.AlarmDialogFragment.TapWeekdays | app/src/main/java/com/example/alarmclock/AlarmDialogFragment.java:281-287 | Checking Weekdays selects Monday..Friday and unchecks the other chips. |
| Editor.AlarmDialogFragment.TapDaily | app/src/main/java/com/example/alarmclock/AlarmDialogFragment.java:289-295 | Checking Daily selects all days and unchecks the other chips. |
| Editor.AlarmDialogFragment.ChooseSnooze | app/src/main/java/com/example/alarmclock/AlarmDialogFragment.java:326-329 | Picking entry `which` sets the snooze duration to that list value. |
| Editor.AlarmDialogFragment.EditForm | app/src/main/java/com/example/alarmclock/AlarmDialogFragment.java:32-36 | Editing the widgets changes only the form. |
| Editor.AlarmDialogFragment.SaveAlarm | app/src/main/java/com/example/alarmclock/AlarmDialogFragment.java:340-368 | A new alarm: enabled, with the edited alarm's id or 0, the trimmed label, the chosen snooze duration, and the ascending 1..7 day list of the selected slots. |
| AlarmReceiver.FallbackNotice | app/src/main/java/com/example/alarmclock/AlarmReceiver.java:50-72 | The notification id (`alarmId`) and the request codes of the Snooze and Stop actions (`alarmId + 1000`, `alarmId + 2000`) are pairwise distinct; the Snooze action carries the delivery's ringtone. |
| AlarmReceiver.StoredAlarm | app/src/main/java/com/example/alarmclock/AlarmReceiver.java:81-87 | The alarm found for a stored id is that row read back. |
| AlarmReceiver.OnReceive | app/src/main/java/com/example/alarmclock/AlarmReceiver.java:19-120 | Every delivery launches the screen with the same id, snooze flag and ringtone, and posts the notification when allowed. An unknown id changes nothing else. Snooze: `isSnoozing` and `enabled` set, no new registration. Repeating: next trigger stored, `isSnoozing` cleared, id re-registered with snooze false. One-shot: record and registrations untouched. |
| AlarmReceiver.RearmedAfterRinging | app/src/main/java/com/example/alarmclock/AlarmReceiver.java:94-116 | The re-arm fires strictly later, at the alarm's time, on a listed weekday, within a week and no later than any such occurrence, with the snooze flag false and ringtone "default". |
| AlarmReceiver.SnoozeDeliveryKeepsAlarm | app/src/main/java/com/example/alarmclock/AlarmReceiver.java:88-93 | After a snooze delivery the stored alarm reads back as enabled and snoozing, with its other persisted fields unchanged. |
| SnoozeReceiver.SnoozeIgnoresDuration | app/src/main/java/com/example/alarmclock/SnoozeReceiver.java:23-29 | The snooze delivery lands `snoozeDuration` minutes after `now` exactly for alarms whose duration is 10: the stored snooze duration is ignored. |
| SnoozeReceiver.OnReceive | app/src/main/java/com/example/alarmclock/SnoozeReceiver.java:13-30 | Cancels notification `alarmId` and launches the screen without extras. Registers `alarmId` for the snooze delivery, replacing any registration. Never touches the store. |
| StopReceiver.OnReceive | app/src/main/java/com/example/alarmclock/StopReceiver.java:13-36 | Cancels notification `alarmId`, removes the id's registration and launches the screen with only `finish`. Never touches the store. |
| RingScreen.AlarmActivity.constructor | app/src/main/java/com/example/alarmclock/AlarmActivity.java:31-72 | With `finish`, `onCreate` returns before `super.onCreate`, so the launch fails (`superNotCalled`) with no other effect. Otherwise it rings, posts the auto-snooze 180 s ahead, and enables Snooze exactly for a non-snooze delivery. |
| RingScreen.AlarmActivity.MarkSnoozing | app/src/main/java/com/example/alarmclock/AlarmActivity.java:78-88 | A found record gets `isSnoozing = true` and `enabled = true` and is written. Otherwise there is no store write. |
| RingScreen.AlarmActivity.PressSnooze | app/src/main/java/com/example/alarmclock/AlarmActivity.java:73-98 | Disabled: nothing happens. Enabled: the auto-snooze is withdrawn, the record is marked snoozing, and `SnoozeReceiver` runs for the id; the sound stops and the screen closes. |
| RingScreen.AlarmActivity.PressStop | app/src/main/java/com/example/alarmclock/AlarmActivity.java:101-131 | A stored one-shot gets `enabled = false` and next time 0, while a repeating record is untouched. The notification and the id's registration are always cancelled. |
| RingScreen.AlarmActivity.RunAutoSnooze | app/src/main/java/com/example/alarmclock/AlarmActivity.java:158-181 | A stored record is marked snoozing and the id registered at `now + 600 000` with the snooze flag. With no record there is neither. |
| RingScreen.AlarmActivity.OnDestroy | app/src/main/java/com/example/alarmclock/AlarmActivity.java:183-188 | Withdraws the auto-snooze and stops the sound; it would throw exactly on a screen without a handler, which only a `finish` launch lacks and which already failed in `onCreate`. |
| Platform.Device.constructor | app/src/main/java/com/example/alarmclock/AlarmReceiver.java:34 | No registrations, notifications or launches; whether notifications are allowed is fixed. |
| Platform.Device.SetExact | app/src/main/java/com/example/alarmclock/AlarmAdapter.java:205-209 | A registration under a request code replaces any earlier one under that code, whatever its extras. |
| Platform.Device.Cancel | app/src/main/java/com/example/alarmclock/AlarmAdapter.java:227-231 | Cancelling drops the code's registration; cancelling an absent code changes nothing. |
| Platform.Device.Notify | app/src/main/java/com/example/alarmclock/AlarmReceiver.java:72 | Posting replaces any notification with the same id. |
| Platform.Device.CancelNotification | app/src/main/java/com/example/alarmclock/StopReceiver.java:15 | Removes the notification with that id, if any. |
| Platform.Device.StartAlarmScreen | app/src/main/java/com/example/alarmclock/AlarmReceiver.java:26-31 | Appends the launch with its extras to the log. |
| Platform.Device.Deliver | app/src/main/java/com/example/alarmclock/AlarmReceiver.java:111-115 | An exact registration fires once: it is removed and its extras are handed to the receiver. |
| Lifecycle.Fire | app/src/main/java/com/example/alarmclock/AlarmReceiver.java:19-120 | The delivery of a registration followed by `onReceive`: the record and registration effects of each branch. |
| Lifecycle.StopRepeatingOnScreen | app/src/main/java/com/example/alarmclock/AlarmActivity.java:119-128 | A repeating alarm that rang and was stopped on the screen stays enabled with no registration left. |
| Lifecycle.SnoozeThenStop | app/src/main/java/com/example/alarmclock/AlarmReceiver.java:88-93 | Fire, Snooze, snooze delivery and Stop leave a repeating alarm enabled and snoozing, with no registration. |
| Lifecycle.StopOneShotFromNotification | app/src/main/java/com/example/alarmclock/StopReceiver.java:13-36 | A one-shot stopped from the notification stays enabled in the store, unregistered, and the `finish` screen that Stop launches fails in `onCreate`. |
| Countdown.TimerFace | app/src/main/java/com/example/alarmclock/TimerFragment.java:31-34 | Minutes = `timeLeft / 60000`, seconds in 0..59, and together they make the whole seconds left. |
| Countdown.StartingTime | app/src/main/java/com/example/alarmclock/TimerFragment.java:54 | `n * 60 * 1000` in `int` arithmetic equals `n * 60000` for every `n` that fits. |
| Countdown.LongInputWraps | app/src/main/java/com/example/alarmclock/TimerFragment.java:54 | 35 792 minutes wrap to a negative `timeLeft`; 35 791 do not. |
| Countdown.TimerFragment.constructor | app/src/main/java/com/example/alarmclock/TimerFragment.java:17-18 | `timeLeft = 0`, stopped, nothing posted, 00:00, empty field. |
| Countdown.TimerFragment.EditInput | app/src/main/java/com/example/alarmclock/TimerFragment.java:52 | Typing changes only the minutes field. |
| Countdown.TimerFragment.Tick | app/src/main/java/com/example/alarmclock/TimerFragment.java:21-37 | `timeLeft` drops by exactly 10. At or below 0 the display is 00:00, the timer stops and nothing is re-posted. Otherwise the display shows the time left. |
| Countdown.TimerFragment.StartStop | app/src/main/java/com/example/alarmclock/TimerFragment.java:47-60 | Running: the tick is withdrawn. Stopped with input `n`: `timeLeft = StartingTime(n)` and a tick is posted. The flag flips even for empty input; unparsable input throws and changes nothing. |
| Countdown.TimerFragment.Reset | app/src/main/java/com/example/alarmclock/TimerFragment.java:62-69 | `timeLeft = 0`, stopped, nothing posted, 00:00, empty field. |
| Countdown.RunDown | app/src/main/java/com/example/alarmclock/TimerFragment.java:21-37 | A started countdown always ends, after exactly ⌈t/10⌉ ticks for `t > 0`, stopped and showing 00:00. |
| Stopwatch.StopwatchFace | app/src/main/java/com/example/alarmclock/StopwatchFragment.java:22-27 | Below 2^31 whole seconds: minutes = elapsed / 60000, seconds in 0..59 and hundredths in 0..99, making up the elapsed time to within 10 ms. A negative elapsed time shows non-positive parts. |
| Stopwatch.FaceWrapsAfterIntSeconds | app/src/main/java/com/example/alarmclock/StopwatchFragment.java:23 | At 2^31 whole seconds the `int` cast wraps and the display turns negative. |
| Stopwatch.StopwatchFragment.constructor | app/src/main/java/com/example/alarmclock/StopwatchFragment.java:15-16 | `startTime = 0`, stopped, nothing posted. |
| Stopwatch.StopwatchFragment.Tick | app/src/main/java/com/example/alarmclock/StopwatchFragment.java:19-30 | Shows the face of `now − startTime` and stays posted. |
| Stopwatch.StopwatchFragment.StartStop | app/src/main/java/com/example/alarmclock/StopwatchFragment.java:39-49 | Start sets `startTime = now` and runs, so elapsed time does not carry over a pause. Stop withdraws the tick. |
| Stopwatch.StopwatchFragment.Reset | app/src/main/java/com/example/alarmclock/StopwatchFragment.java:51-57 | `startTime = 0`, stopped, display 00:00.00. |

## Left out

- **Calendar, time zones and daylight saving time.** A day is a fixed 86 400 000 ms of local epoch time.
- **Java `long` overflow.** Arithmetic on epoch milliseconds is unbounded. `int` wrap-around is modelled for the timer's and the stopwatch's casts only.
- **AlarmList.AlarmFragment.AddAlarm, AlarmList.AlarmFragment.RestoreAlarm:** the `(int)` cast of the new row id is not modelled; the id is used unchanged, which differs only after 2^31 − 1 insertions.
- **The Android framework.** `AlarmManager`, `PendingIntent`, `NotificationManagerCompat`, `startActivity` and broadcasts are replaced by the `Device` state. The activity back stack and launch flags are not modelled; each launch is a new screen.
- **`sendBroadcast` timing.** The ring screen's `sendBroadcast` to `SnoozeReceiver` runs synchronously inside the Snooze press.
- **Notification content.** Channels, texts, sound and the full-screen intent are left out; only the posted id, the action request codes and the ringtone extra are kept.
- **Ringtone playback and window flags.** Playback is the `playing` flag. Window flags are not modelled. The ringtone picker is not modelled.
- **Formatting.** `String.format`, `getFormattedTime` and `toString` are left out; the displays are the numbers they print.
- **Views and widgets.** Rendering, colours, swipe drawing, dialogs, Snackbars and Toasts are left out. The editor's widgets are a `Form` value, and the snooze-duration dialog is its preselected index and the chosen entry.
- **Handler and real time.** Handler timing and real-time delivery are left out. A runnable's run is a method call, and `now` is a parameter read once per handler.
- **SQLite.** SQL, cursors and the `Context` are left out; the table is a map.
- **Digits.** `Integer.parseInt` accepts only ASCII digits with an optional sign here; other Unicode digits are not modelled.
- **`Serializable` and the Intent/Bundle plumbing.** The editor gets the alarm's value.
- **Stopwatch.StopwatchFace:** the contract covers elapsed times within ±2^31 s. Beyond that only the wrap example is stated.
- **Countdown.TimerFace:** stated for `0 < timeLeft ≤ 2^31 − 1`, the values a tick can display.
- **RingScreen.AlarmActivity.PressSnooze:** the screen that the Snooze path's relaunch opens (alarm id 0) is recorded in the launch log but not run.
