/**
 * One alarm: its fields, the next-trigger calculation and the helpers that
 * turn an alarm into the texts shown in the alarm list.
 *
 * `calculateNextAlarmTime` reads the clock; here the current instant is the
 * parameter `now` (epoch milliseconds in local time), and the calendar
 * arithmetic is that of the `Clock` module.
 */
module Alarms {
  import opened Wrappers
  import opened JavaInt
  import opened Clock

  const DefaultRingtone: string := "default"
  const DefaultSnoozeDuration: int := 10

  /** The value of every field of an `Alarm` object at one moment. */
  datatype AlarmData = AlarmData(
    id: int,
    hour: int,
    minute: int,
    daysOfWeek: seq<Int32>,
    snooze: bool,
    enabled: bool,
    labelText: string,
    vibrationEnabled: bool,
    snoozeDuration: int,
    ringtone: string,
    isSnoozing: bool,
    nextAlarmTime: int)

  predicate ValidTime(hour: int, minute: int) {
    0 <= hour <= 23 && 0 <= minute <= 59
  }

  /** Weekday numbers 1 (Sunday) .. 7 (Saturday) only. */
  predicate ValidDays(days: seq<Int32>) {
    forall i :: 0 <= i < |days| ==> 1 <= days[i] <= 7
  }

  // ---------------------------------------------------------------------
  // Next trigger instant
  // ---------------------------------------------------------------------

  /** Today's `hour:minute:00.000`, the calendar the source builds before deciding. */
  function TodaySlot(hour: int, minute: int, now: int): int {
    StartOfDay(now) + hour * HourMs + minute * MinuteMs
  }

  /** The slot `k` days after today's. */
  function Occurrence(hour: int, minute: int, now: int, k: int): int {
    TodaySlot(hour, minute, now) + k * DayMs
  }

  /** The weekday `i` days after weekday `current`, wrapped into 1..7. */
  function WeekdayAfter(current: int, i: int): int {
    (current + i - 1) % 7 + 1
  }

  /**
   * Offset `i` may be chosen when its weekday is in `days`; offset 0 only
   * when today's slot is still strictly ahead (`calendar.after(now)`).
   */
  predicate Eligible(days: seq<Int32>, current: int, slotAhead: bool, i: int) {
    WeekdayAfter(current, i) in days && (i > 0 || slotAhead)
  }

  function DaysToAddFrom(days: seq<Int32>, current: int, slotAhead: bool, i: nat): nat
    requires i <= 7
    decreases 7 - i
  {
    if i == 7 then 7
    else if Eligible(days, current, slotAhead, i) then i
    else DaysToAddFrom(days, current, slotAhead, i + 1)
  }

  /** The smallest eligible offset in 0..6, or 7 when there is none. */
  function DaysToAdd(days: seq<Int32>, current: int, slotAhead: bool): nat {
    DaysToAddFrom(days, current, slotAhead, 0)
  }

  /** The instant `calculateNextAlarmTime` returns when the clock reads `now`. */
  function NextTrigger(hour: int, minute: int, days: seq<Int32>, now: int): int {
    var slot := TodaySlot(hour, minute, now);
    if |days| == 0 then
      (if slot < now then slot + DayMs else slot)
    else
      slot + DaysToAdd(days, Weekday(now), slot > now) * DayMs
  }

  lemma {:induction false} DaysToAddFromLeast(days: seq<Int32>, current: int, slotAhead: bool, i: nat)
    requires i <= 7
    decreases 7 - i
    ensures var k := DaysToAddFrom(days, current, slotAhead, i);
      i <= k <= 7 &&
      (k < 7 ==> Eligible(days, current, slotAhead, k)) &&
      forall j :: i <= j < k ==> !Eligible(days, current, slotAhead, j)
  {
    if i < 7 && !Eligible(days, current, slotAhead, i) {
      DaysToAddFromLeast(days, current, slotAhead, i + 1);
    }
  }

  /** The offset chosen is the least eligible one: every smaller offset is ineligible, and 7 means none in 0..6 is. */
  lemma DaysToAddLeast(days: seq<Int32>, current: int, slotAhead: bool)
    ensures var k := DaysToAdd(days, current, slotAhead);
      k <= 7 &&
      (k < 7 ==> Eligible(days, current, slotAhead, k)) &&
      forall j :: 0 <= j < k ==> !Eligible(days, current, slotAhead, j)
  {
    DaysToAddFromLeast(days, current, slotAhead, 0);
  }

  /** Conversely, an offset whose predecessors are all ineligible, and which is eligible or 7, is the chosen one. */
  lemma DaysToAddIs(days: seq<Int32>, current: int, slotAhead: bool, k: nat)
    requires k <= 7 && (k < 7 ==> Eligible(days, current, slotAhead, k))
    requires forall j :: 0 <= j < k ==> !Eligible(days, current, slotAhead, j)
    ensures DaysToAdd(days, current, slotAhead) == k
  {
    DaysToAddLeast(days, current, slotAhead);
  }

  /** For a valid time the slot lies on today's date at `hour:minute`. */
  lemma SlotOnToday(hour: int, minute: int, now: int)
    requires ValidTime(hour, minute)
    ensures var slot := TodaySlot(hour, minute, now);
      StartOfDay(now) <= slot < StartOfDay(now) + DayMs &&
      slot % DayMs == hour * HourMs + minute * MinuteMs &&
      StartOfDay(slot) == StartOfDay(now) && Weekday(slot) == Weekday(now)
  {
    var slot := TodaySlot(hour, minute, now);
    DivisionUnique(slot, DayMs, DayNumber(now), hour * HourMs + minute * MinuteMs);
  }

  /** The slot `k` days ahead keeps the time of day and advances the weekday by `k`. */
  lemma OccurrenceShape(hour: int, minute: int, now: int, k: nat)
    requires ValidTime(hour, minute)
    ensures Occurrence(hour, minute, now, k) % DayMs == hour * HourMs + minute * MinuteMs
    ensures Weekday(Occurrence(hour, minute, now, k)) == WeekdayAfter(Weekday(now), k)
  {
    var slot := TodaySlot(hour, minute, now);
    SlotOnToday(hour, minute, now);
    DaysAhead(slot, k);
    Clock.WeekdayAhead(slot, k);
    DivisionUnique(slot + k * DayMs, DayMs, DayNumber(slot) + k, hour * HourMs + minute * MinuteMs);
  }

  /**
   * A one-shot alarm rings at today's slot unless that instant is already
   * before `now`, and then one day later: never before `now`, and less than a
   * day after it.
   */
  lemma OneShotNextTrigger(hour: int, minute: int, now: int)
    requires ValidTime(hour, minute)
    ensures var r := NextTrigger(hour, minute, [], now);
      var slot := TodaySlot(hour, minute, now);
      (r == slot <==> slot >= now) &&
      (r == slot + DayMs <==> slot < now) &&
      now <= r < now + DayMs &&
      r % DayMs == hour * HourMs + minute * MinuteMs
  {
    SlotOnToday(hour, minute, now);
    OccurrenceShape(hour, minute, now, 1);
  }

  /**
   * A repeating alarm with weekdays in 1..7 rings strictly after `now`, at
   * `hour:minute`, on one of its weekdays, at most a week after today's slot,
   * and no later than any other instant with those three properties.
   */
  lemma RepeatingNextTrigger(hour: int, minute: int, days: seq<Int32>, now: int)
    requires ValidTime(hour, minute) && |days| > 0 && ValidDays(days)
    ensures var r := NextTrigger(hour, minute, days, now);
      now < r <= Occurrence(hour, minute, now, 7) &&
      r % DayMs == hour * HourMs + minute * MinuteMs &&
      Weekday(r) in days &&
      forall k: nat :: Occurrence(hour, minute, now, k) > now && Weekday(Occurrence(hour, minute, now, k)) in days ==>
        r <= Occurrence(hour, minute, now, k)
  {
    var slot := TodaySlot(hour, minute, now);
    var current := Weekday(now);
    var ahead := slot > now;
    var n := DaysToAdd(days, current, ahead);
    DaysToAddLeast(days, current, ahead);
    SlotOnToday(hour, minute, now);
    OccurrenceShape(hour, minute, now, n);
    assert NextTrigger(hour, minute, days, now) == Occurrence(hour, minute, now, n);
    if n == 7 {
      OnlyTodayListed(days, current);
    } else if n > 0 {
      DaysOrdered(1, n);
    }
    DaysOrdered(n, 7);
    forall k: nat | Occurrence(hour, minute, now, k) > now && Weekday(Occurrence(hour, minute, now, k)) in days
      ensures Occurrence(hour, minute, now, n) <= Occurrence(hour, minute, now, k)
    {
      NoEarlierOccurrence(hour, minute, days, now, k);
    }
  }

  /** When no offset 1..6 matches a non-empty list of weekdays, today's weekday is listed. */
  lemma OnlyTodayListed(days: seq<Int32>, current: int)
    requires |days| > 0 && ValidDays(days) && 1 <= current <= 7
    requires forall j :: 1 <= j < 7 ==> WeekdayAfter(current, j) !in days
    ensures current in days
  {
    var d := days[0];
    var i := (d - current + 7) % 7;
    assert WeekdayAfter(current, i) == d;
  }

  /** Any listed-weekday slot after `now` is at least as many days ahead as the chosen offset. */
  lemma NoEarlierOccurrence(hour: int, minute: int, days: seq<Int32>, now: int, k: nat)
    requires ValidTime(hour, minute)
    requires Occurrence(hour, minute, now, k) > now && Weekday(Occurrence(hour, minute, now, k)) in days
    ensures var n := DaysToAdd(days, Weekday(now), TodaySlot(hour, minute, now) > now);
      n <= k && Occurrence(hour, minute, now, n) <= Occurrence(hour, minute, now, k)
  {
    var ahead := TodaySlot(hour, minute, now) > now;
    OccurrenceShape(hour, minute, now, k);
    DaysToAddLeast(days, Weekday(now), ahead);
    var n := DaysToAdd(days, Weekday(now), ahead);
    if k < n {
      assert Eligible(days, Weekday(now), ahead, k);
    }
    DaysOrdered(n, k);
  }

  /** Scenario: 07:00 one-shot, clock at 06:00 on a Monday (day 4 of the epoch) rings the same day at 07:00. */
  lemma OneShotLaterToday()
    ensures NextTrigger(7, 0, [], 4 * DayMs + 6 * HourMs) == 4 * DayMs + 7 * HourMs
  {
  }

  /** Scenario: Monday, Wednesday and Friday at 07:00; at 08:00 on a Monday the next ring is Wednesday 07:00. */
  lemma RepeatingSkipsToWednesday()
    ensures Weekday(4 * DayMs) == 2
    ensures NextTrigger(7, 0, [2, 4, 6], 4 * DayMs + 8 * HourMs) == 6 * DayMs + 7 * HourMs
  {
    var now := 4 * DayMs + 8 * HourMs;
    DivisionUnique(now, DayMs, 4, 8 * HourMs);
    DivisionUnique(4 * DayMs, DayMs, 4, 0);
    assert StartOfDay(now) == 4 * DayMs;
    assert Weekday(now) == 2;
    assert !Eligible([2, 4, 6], 2, false, 0);
    assert !Eligible([2, 4, 6], 2, false, 1);
    assert Eligible([2, 4, 6], 2, false, 2);
  }

  // ---------------------------------------------------------------------
  // Texts shown in the list
  // ---------------------------------------------------------------------

  /** `getAmPm`. */
  function AmPm(hour: int): string {
    if hour >= 12 then "PM" else "AM"
  }

  /** The hour printed by `getFormattedTime12Hour`. */
  function DisplayHour(hour: int): (h: int)
    ensures 0 <= hour <= 23 ==> 1 <= h <= 12 && h % 12 == hour % 12
  {
    if hour == 0 then 12 else if hour > 12 then hour - 12 else hour
  }

  /** Reading a 12-hour display back into a 0..23 hour. */
  function ClockHour(displayHour: int, pm: bool): int {
    if displayHour == 12 then (if pm then 12 else 0)
    else if pm then displayHour + 12 else displayHour
  }

  /** The 12-hour display and its AM/PM marker together determine the hour: "AM" exactly for 0..11. */
  lemma TwelveHourRoundTrip(hour: int)
    requires 0 <= hour <= 23
    ensures (AmPm(hour) == "AM") == (hour < 12)
    ensures ClockHour(DisplayHour(hour), AmPm(hour) == "PM") == hour
  {
  }

  const DayNames: seq<string> := ["Sun", "Mon", "Tue", "Wed", "Thu", "Fri", "Sat"]

  /** The names of the weekdays 1..n listed in `days`, in calendar order. */
  function NamesUpTo(days: seq<Int32>, n: nat): (names: seq<string>)
    requires n <= 7
    ensures |names| <= n
    ensures forall k :: 0 <= k < |names| ==> |names[k]| == 3
  {
    if n == 0 then []
    else NamesUpTo(days, n - 1) + (if n in days then [DayNames[n - 1]] else [])
  }

  /** The names joined by ", ". */
  function JoinWithComma(names: seq<string>): string {
    if |names| == 0 then ""
    else if |names| == 1 then names[0]
    else JoinWithComma(names[..|names| - 1]) + ", " + names[|names| - 1]
  }

  predicate IsWorkWeek(days: seq<Int32>) {
    |days| == 5 && 2 in days && 3 in days && 4 in days && 5 in days && 6 in days
  }

  /** `getDaysString`: "Once", "Daily", "Weekdays" or the listed day names. */
  function DaysText(days: seq<Int32>): string {
    if |days| == 0 then "Once"
    else if |days| == 7 then "Daily"
    else if IsWorkWeek(days) then "Weekdays"
    else JoinWithComma(NamesUpTo(days, 7))
  }

  /** `isRepeating`: some day is listed. */
  predicate IsRepeating(days: seq<Int32>) {
    |days| > 0
  }

  /** Day names are three letters, so a joined list has length 5n - 2. */
  lemma {:induction false} JoinedLength(names: seq<string>)
    requires forall k :: 0 <= k < |names| ==> |names[k]| == 3
    ensures |JoinWithComma(names)| == if names == [] then 0 else 5 * |names| - 2
  {
    if |names| > 1 {
      JoinedLength(names[..|names| - 1]);
    }
  }

  /** The custom text names the weekday at index k exactly when k + 1 is listed: values outside 1..7 are dropped. */
  lemma {:induction false} NamedDays(days: seq<Int32>, n: nat)
    requires n <= 7
    ensures forall k :: 0 <= k < 7 ==> (DayNames[k] in NamesUpTo(days, n) <==> k < n && k + 1 in days)
  {
    if n > 0 {
      NamedDays(days, n - 1);
      var prev := NamesUpTo(days, n - 1);
      assert NamesUpTo(days, n) == prev + (if n in days then [DayNames[n - 1]] else []);
      forall k | 0 <= k < 7
        ensures DayNames[k] in NamesUpTo(days, n) <==> k < n && k + 1 in days
      {
        if k != n - 1 {
          DayNamesDistinct(k, n - 1);
        }
      }
    }
  }

  /**
   * `names` lists `DayNames[ks[i]]` for strictly increasing slots `ks`, each
   * below `n` and listed (as `k + 1`) in `days`.
   */
  predicate CalendarPositions(names: seq<string>, ks: seq<int>, days: seq<Int32>, n: nat) {
    n <= 7 && |ks| == |names| &&
    (forall i :: 0 <= i < |ks| ==> 0 <= ks[i] < n && ks[i] + 1 in days && names[i] == DayNames[ks[i]]) &&
    (forall i, j :: 0 <= i < j < |ks| ==> ks[i] < ks[j])
  }

  /** One more slot keeps the positions increasing: slot `n - 1` comes after every earlier one. */
  lemma CalendarStep(prev: seq<string>, ks: seq<int>, days: seq<Int32>, n: nat)
    requires 0 < n <= 7 && CalendarPositions(prev, ks, days, n - 1)
    ensures n in days ==> CalendarPositions(prev + [DayNames[n - 1]], ks + [n - 1], days, n)
    ensures n !in days ==> CalendarPositions(prev, ks, days, n)
  {
  }

  /** Names at increasing positions are pairwise different. */
  lemma CalendarDistinct(names: seq<string>, ks: seq<int>, days: seq<Int32>, n: nat)
    requires n <= 7 && CalendarPositions(names, ks, days, n)
    ensures forall i, j :: 0 <= i < j < |names| ==> names[i] != names[j]
  {
    forall i, j | 0 <= i < j < |names|
      ensures names[i] != names[j]
    {
      DayNamesDistinct(ks[i], ks[j]);
    }
  }

  /**
   * The custom text's names come in calendar order, Sunday first, each for a
   * listed weekday and none twice, whatever the order and repetitions of
   * `days`.
   */
  lemma {:induction false} NamesInCalendarOrder(days: seq<Int32>, n: nat)
    requires n <= 7
    ensures exists ks :: CalendarPositions(NamesUpTo(days, n), ks, days, n)
    ensures forall i, j :: 0 <= i < j < |NamesUpTo(days, n)| ==> NamesUpTo(days, n)[i] != NamesUpTo(days, n)[j]
  {
    var ks: seq<int> := [];
    if n > 0 {
      NamesInCalendarOrder(days, n - 1);
      var prev := NamesUpTo(days, n - 1);
      var before :| CalendarPositions(prev, before, days, n - 1);
      CalendarStep(prev, before, days, n);
      ks := if n in days then before + [n - 1] else before;
    }
    assert CalendarPositions(NamesUpTo(days, n), ks, days, n);
    CalendarDistinct(NamesUpTo(days, n), ks, days, n);
  }

  lemma DayNamesDistinct(i: int, j: int)
    requires 0 <= i < 7 && 0 <= j < 7 && i != j
    ensures DayNames[i] != DayNames[j]
  {
    assert DayNames[i][0] != DayNames[j][0] || DayNames[i][1] != DayNames[j][1];
  }

  /** "Once" is shown exactly for the alarms that do not repeat. */
  lemma OnceIffNotRepeating(days: seq<Int32>)
    ensures DaysText(days) == "Once" <==> !IsRepeating(days)
  {
    if |days| > 0 && |days| != 7 && !IsWorkWeek(days) {
      JoinedLength(NamesUpTo(days, 7));
    }
  }

  /** What `getTimeUntilNext` shows: nothing, "Now", or the units down to minutes with leading zero units left out. */
  datatype Countdown =
    | Blank
    | RingsNow
    | RingsInDays(days: int, hours: int, minutes: int)
    | RingsInHours(hours: int, minutes: int)
    | RingsInMinutes(minutes: int)
  {
    /** The whole milliseconds the text stands for. */
    function Shown(): int {
      match this
      case Blank => 0
      case RingsNow => 0
      case RingsInDays(d, h, m) => d * DayMs + h * HourMs + m * MinuteMs
      case RingsInHours(h, m) => h * HourMs + m * MinuteMs
      case RingsInMinutes(m) => m * MinuteMs
    }
  }

  lemma HoursAndMinutes(x: int)
    requires x >= 0
    ensures x % DayMs == (x % DayMs) / HourMs * HourMs + (x % HourMs) / MinuteMs * MinuteMs + x % MinuteMs
    ensures 0 <= (x % DayMs) / HourMs < 24
  {
    var q := x / HourMs;
    DivisionUnique(x % DayMs, HourMs, (x % DayMs) / HourMs, (x % DayMs) % HourMs);
    DivisionUnique(x, HourMs, (x / DayMs) * 24 + (x % DayMs) / HourMs, (x % DayMs) % HourMs);
    DivisionUnique(x % HourMs, MinuteMs, (x % HourMs) / MinuteMs, (x % HourMs) % MinuteMs);
    DivisionUnique(x, MinuteMs, q * 60 + (x % HourMs) / MinuteMs, (x % HourMs) % MinuteMs);
  }

  /**
   * `getTimeUntilNext` with the clock at `now`: empty when no time is set,
   * "Now" once it has passed, otherwise the remaining time rounded down to
   * whole minutes with hours in 0..23 and minutes in 0..59.
   */
  function TimeUntilNext(nextAlarmTime: int, now: int): (c: Countdown)
    ensures c == Blank <==> nextAlarmTime == 0
    ensures c == RingsNow <==> nextAlarmTime != 0 && nextAlarmTime - now <= 0
    ensures nextAlarmTime != 0 && nextAlarmTime - now > 0 ==>
      c.Shown() <= nextAlarmTime - now < c.Shown() + MinuteMs &&
      (c.RingsInDays? ==> c.days > 0 && 0 <= c.hours < 24 && 0 <= c.minutes < 60) &&
      (c.RingsInHours? ==> nextAlarmTime - now < DayMs && 0 < c.hours < 24 && 0 <= c.minutes < 60) &&
      (c.RingsInMinutes? ==> nextAlarmTime - now < HourMs && 0 <= c.minutes < 60)
  {
    if nextAlarmTime == 0 then Blank
    else
      var diff := nextAlarmTime - now;
      if diff <= 0 then RingsNow
      else
        HoursAndMinutes(diff);
        var days := diff / DayMs;
        var hours := (diff % DayMs) / HourMs;
        var minutes := (diff % HourMs) / MinuteMs;
        if days > 0 then RingsInDays(days, hours, minutes)
        else if hours > 0 then RingsInHours(hours, minutes)
        else RingsInMinutes(minutes)
  }

  // ---------------------------------------------------------------------
  // The mutable object
  // ---------------------------------------------------------------------

  class Alarm {
    var id: int
    var hour: int
    var minute: int
    var daysOfWeek: seq<Int32>
    var snooze: bool
    var enabled: bool
    var labelText: string
    var vibrationEnabled: bool
    var snoozeDuration: int
    var ringtone: string
    var isSnoozing: bool
    var nextAlarmTime: int

    function Data(): AlarmData
      reads this
    {
      AlarmData(id, hour, minute, daysOfWeek, snooze, enabled, labelText, vibrationEnabled,
                snoozeDuration, ringtone, isSnoozing, nextAlarmTime)
    }

    /** The full constructor: a `null` day list becomes empty and a `null` label "". */
    constructor (id: int, hour: int, minute: int, daysOfWeek: Option<seq<Int32>>, snooze: bool,
                 enabled: bool, labelText: Option<string>, vibrationEnabled: bool, snoozeDuration: int)
      ensures Data() == AlarmData(id, hour, minute, daysOfWeek.GetOr([]), snooze, enabled, labelText.GetOr(""),
                                  vibrationEnabled, snoozeDuration, DefaultRingtone, false, 0)
    {
      this.id := id;
      this.hour := hour;
      this.minute := minute;
      this.daysOfWeek := daysOfWeek.GetOr([]);
      this.snooze := snooze;
      this.enabled := enabled;
      this.labelText := labelText.GetOr("");
      this.vibrationEnabled := vibrationEnabled;
      this.snoozeDuration := snoozeDuration;
      this.ringtone := DefaultRingtone;
      this.isSnoozing := false;
      this.nextAlarmTime := 0;
    }

    /** The six-argument constructor: label "", vibration on, a 10-minute snooze. */
    constructor Basic(id: int, hour: int, minute: int, daysOfWeek: Option<seq<Int32>>, snooze: bool, enabled: bool)
      ensures Data() == AlarmData(id, hour, minute, daysOfWeek.GetOr([]), snooze, enabled, "",
                                  true, DefaultSnoozeDuration, DefaultRingtone, false, 0)
    {
      this.id := id;
      this.hour := hour;
      this.minute := minute;
      this.daysOfWeek := daysOfWeek.GetOr([]);
      this.snooze := snooze;
      this.enabled := enabled;
      this.labelText := "";
      this.vibrationEnabled := true;
      this.snoozeDuration := DefaultSnoozeDuration;
      this.ringtone := DefaultRingtone;
      this.isSnoozing := false;
      this.nextAlarmTime := 0;
    }

    method SetId(id: int)
      modifies this
      ensures Data() == old(Data()).(id := id)
    {
      this.id := id;
    }

    method SetHour(hour: int)
      modifies this
      ensures Data() == old(Data()).(hour := hour)
    {
      this.hour := hour;
    }

    method SetMinute(minute: int)
      modifies this
      ensures Data() == old(Data()).(minute := minute)
    {
      this.minute := minute;
    }

    method SetDaysOfWeek(daysOfWeek: Option<seq<Int32>>)
      modifies this
      ensures Data() == old(Data()).(daysOfWeek := daysOfWeek.GetOr([]))
    {
      this.daysOfWeek := daysOfWeek.GetOr([]);
    }

    method SetSnooze(snooze: bool)
      modifies this
      ensures Data() == old(Data()).(snooze := snooze)
    {
      this.snooze := snooze;
    }

    method SetEnabled(enabled: bool)
      modifies this
      ensures Data() == old(Data()).(enabled := enabled)
    {
      this.enabled := enabled;
    }

    method SetLabel(labelText: Option<string>)
      modifies this
      ensures Data() == old(Data()).(labelText := labelText.GetOr(""))
    {
      this.labelText := labelText.GetOr("");
    }

    method SetVibrationEnabled(vibrationEnabled: bool)
      modifies this
      ensures Data() == old(Data()).(vibrationEnabled := vibrationEnabled)
    {
      this.vibrationEnabled := vibrationEnabled;
    }

    method SetSnoozeDuration(snoozeDuration: int)
      modifies this
      ensures Data() == old(Data()).(snoozeDuration := snoozeDuration)
    {
      this.snoozeDuration := snoozeDuration;
    }

    method SetRingtone(ringtone: Option<string>)
      modifies this
      ensures Data() == old(Data()).(ringtone := ringtone.GetOr(DefaultRingtone))
    {
      this.ringtone := ringtone.GetOr(DefaultRingtone);
    }

    method SetSnoozing(snoozing: bool)
      modifies this
      ensures Data() == old(Data()).(isSnoozing := snoozing)
    {
      this.isSnoozing := snoozing;
    }

    method SetNextAlarmTime(nextAlarmTime: int)
      modifies this
      ensures Data() == old(Data()).(nextAlarmTime := nextAlarmTime)
    {
      this.nextAlarmTime := nextAlarmTime;
    }

    /** `equals`: the same object, or another alarm with the same id. */
    predicate Equals(other: Alarm?)
      reads this, other
    {
      this == other || (other != null && id == other.id)
    }

    function HashCode(): int
      reads this
    {
      id
    }

    /**
     * `calculateNextAlarmTime`: today's slot, moved one day on for a one-shot
     * alarm already past, or by the first matching offset for a repeating one.
     */
    method CalculateNextAlarmTime(now: int) returns (t: int)
      ensures t == NextTrigger(hour, minute, daysOfWeek, now)
    {
      var slot := TodaySlot(hour, minute, now);
      var current := Weekday(now);
      if |daysOfWeek| == 0 {
        if slot < now {
          slot := slot + DayMs;
        }
        return slot;
      }
      var ahead := slot > now;
      var daysToAdd := 7;
      var i := 0;
      while i < 7
        invariant 0 <= i <= 7 && daysToAdd == 7
        invariant forall j :: 0 <= j < i ==> !Eligible(daysOfWeek, current, ahead, j)
      {
        var nextDay := (current + i - 1) % 7 + 1;
        if nextDay in daysOfWeek {
          if i == 0 && slot > now {
            daysToAdd := 0;
            DaysToAddIs(daysOfWeek, current, ahead, 0);
            break;
          } else if i > 0 {
            daysToAdd := i;
            DaysToAddIs(daysOfWeek, current, ahead, i);
            break;
          }
        }
        i := i + 1;
      }
      if daysToAdd == 7 {
        DaysToAddIs(daysOfWeek, current, ahead, 7);
      }
      t := slot + daysToAdd * DayMs;
    }

    /** `getDaysString`, building the custom list in a loop over Sunday..Saturday. */
    method DaysString() returns (s: string)
      ensures s == DaysText(daysOfWeek)
    {
      if |daysOfWeek| == 0 {
        return "Once";
      }
      if |daysOfWeek| == 7 {
        return "Daily";
      }
      if |daysOfWeek| == 5 && 2 in daysOfWeek && 3 in daysOfWeek && 4 in daysOfWeek
         && 5 in daysOfWeek && 6 in daysOfWeek {
        return "Weekdays";
      }
      s := "";
      var i := 1;
      while i <= 7
        invariant 1 <= i <= 8
        invariant s == JoinWithComma(NamesUpTo(daysOfWeek, i - 1))
      {
        var before := NamesUpTo(daysOfWeek, i - 1);
        if i in daysOfWeek {
          var after := before + [DayNames[i - 1]];
          assert NamesUpTo(daysOfWeek, i) == after;
          assert after[..|after| - 1] == before;
          JoinedLength(before);
          if |s| > 0 {
            s := s + ", ";
          }
          s := s + DayNames[i - 1];
        } else {
          assert NamesUpTo(daysOfWeek, i) == before;
        }
        i := i + 1;
      }
    }
  }

  /** `equals` is an equivalence, and equal alarms have equal hash codes. */
  lemma EqualsIsEquivalence(a: Alarm, b: Alarm, c: Alarm)
    ensures a.Equals(a)
    ensures a.Equals(b) ==> b.Equals(a) && a.HashCode() == b.HashCode()
    ensures a.Equals(b) && b.Equals(c) ==> a.Equals(c)
  {
  }
}
