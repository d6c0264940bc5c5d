/**
 * `AlarmDialogFragment`: the add/edit dialog. Its day selection is a
 * seven-slot boolean array (slot 0 is Sunday, slot 6 Saturday) driven by
 * seven day buttons and three preset chips (Once, Weekdays, Daily); saving
 * turns the slots into the alarm's ascending 1..7 day list.
 *
 * The time picker, label field and the two switches are reduced to a `Form`
 * value the user edits; the ringtone selector only shows a toast.
 */
module Editor {
  import opened Wrappers
  import opened JavaInt
  import opened JavaText
  import opened Alarms

  /** The snooze durations offered, in minutes, in list order. */
  const SnoozeChoices: seq<int> := [1, 5, 10, 15, 30]

  /** The slots of Monday to Friday. */
  const WorkWeekSlots: seq<bool> := [false, true, true, true, true, true, false]

  /** The values of the dialog's other inputs: time picker, label field, snooze and vibration switches. */
  datatype Form = Form(hour: int, minute: int, labelText: string, snooze: bool, vibration: bool)

  /** The chip `updateChipStates` checks for a selection; `Custom` checks none. */
  datatype Preset = Once | Weekdays | Daily | Custom

  function Bit(b: bool): nat {
    if b then 1 else 0
  }

  /** The number of selected slots. */
  function Count(slots: seq<bool>): (n: nat)
    ensures n <= |slots|
  {
    if |slots| == 0 then 0 else Count(slots[..|slots| - 1]) + Bit(slots[|slots| - 1])
  }

  /** The selected slots' positions. */
  function Selected(slots: seq<bool>): set<int> {
    set i | 0 <= i < |slots| && slots[i]
  }

  /** The count is the number of selected positions. */
  lemma {:induction false} CountIsSelected(slots: seq<bool>)
    ensures Count(slots) == |Selected(slots)|
  {
    if |slots| > 0 {
      var n := |slots| - 1;
      CountIsSelected(slots[..n]);
      var before := Selected(slots[..n]);
      assert Selected(slots) == before + (if slots[n] then {n} else {});
      assert n !in before;
    }
  }

  lemma CountPrefix(slots: seq<bool>, k: int)
    requires 0 < k <= |slots|
    ensures Count(slots[..k]) == Count(slots[..k - 1]) + Bit(slots[k - 1])
  {
    assert slots[..k][..k - 1] == slots[..k - 1];
  }

  /** Seven slots count as the sum of their bits. */
  lemma CountSeven(slots: seq<bool>)
    requires |slots| == 7
    ensures Count(slots) == Bit(slots[0]) + Bit(slots[1]) + Bit(slots[2]) + Bit(slots[3]) +
                            Bit(slots[4]) + Bit(slots[5]) + Bit(slots[6])
  {
    assert Count(slots[..0]) == 0;
    CountPrefix(slots, 1);
    CountPrefix(slots, 2);
    CountPrefix(slots, 3);
    CountPrefix(slots, 4);
    CountPrefix(slots, 5);
    CountPrefix(slots, 6);
    CountPrefix(slots, 7);
    assert slots[..7] == slots;
  }

  /** The preset a selection corresponds to: nothing is Once, everything Daily, Monday to Friday exactly Weekdays. */
  function Classify(slots: seq<bool>): (p: Preset)
    requires |slots| == 7
    ensures p == Once <==> forall k :: 0 <= k < 7 ==> !slots[k]
    ensures p == Daily <==> forall k :: 0 <= k < 7 ==> slots[k]
    ensures p == Weekdays <==> slots == WorkWeekSlots
  {
    CountSeven(slots);
    if Count(slots) == 0 then Once
    else if Count(slots) == 7 then Daily
    else if slots == WorkWeekSlots then Weekdays
    else Custom
  }

  /** The day list `saveAlarm` builds from the first `n` slots: `k + 1` for each selected slot `k`, ascending. */
  function DaysUpTo(slots: seq<bool>, n: nat): (days: seq<Int32>)
    requires n <= |slots| == 7
    ensures |days| == Count(slots[..n])
    ensures forall i :: 0 <= i < |days| ==> 1 <= days[i] <= n
    ensures forall i, j :: 0 <= i < j < |days| ==> days[i] < days[j]
    ensures forall k :: 0 <= k < n ==> (k + 1 in days <==> slots[k])
  {
    if n == 0 then []
    else
      CountPrefix(slots, n);
      DaysUpTo(slots, n - 1) + (if slots[n - 1] then [n] else [])
  }

  /** The saved day list: strictly ascending weekday numbers 1..7, listing exactly the selected slots. */
  function SavedDays(slots: seq<bool>): (days: seq<Int32>)
    requires |slots| == 7
    ensures |days| == Count(slots) && ValidDays(days)
    ensures forall i, j :: 0 <= i < j < |days| ==> days[i] < days[j]
    ensures forall k :: 0 <= k < 7 ==> (k + 1 in days <==> slots[k])
  {
    assert slots[..7] == slots;
    DaysUpTo(slots, 7)
  }

  predicate Ascending(days: seq<Int32>) {
    forall i, j :: 0 <= i < j < |days| ==> days[i] < days[j]
  }

  /** Two strictly ascending lists with the same members are equal. */
  lemma {:induction false} AscendingUnique(a: seq<Int32>, b: seq<Int32>)
    requires Ascending(a) && Ascending(b)
    requires forall x :: x in a <==> x in b
    ensures a == b
  {
    assert b == [] || b[0] in b;
    if a != [] {
      assert a[0] in b && b != [] && b[0] in a;
      assert a[0] == b[0];
      forall x
        ensures x in a[1..] <==> x in b[1..]
      {
        if x in a[1..] {
          assert x in a && x != a[0];
        }
        if x in b[1..] {
          assert x in b && x != b[0];
        }
      }
      AscendingUnique(a[1..], b[1..]);
      assert a == [a[0]] + a[1..] && b == [b[0]] + b[1..];
    }
  }

  /** The slots `loadAlarmData` selects for a day list: slot `k` for day `k + 1`, other values ignored. */
  function LoadedSlots(days: seq<Int32>): (slots: seq<bool>)
    ensures |slots| == 7
    ensures forall k :: 0 <= k < 7 ==> slots[k] == (k + 1 in days)
  {
    seq(7, k requires 0 <= k < 7 => k + 1 in days)
  }

  /** Re-opening an alarm the dialog saved and saving it again keeps its day list. */
  lemma SaveAfterLoad(days: seq<Int32>)
    requires Ascending(days) && ValidDays(days)
    ensures SavedDays(LoadedSlots(days)) == days
  {
    var saved := SavedDays(LoadedSlots(days));
    forall x
      ensures x in saved <==> x in days
    {
      if 1 <= x <= 7 {
        assert LoadedSlots(days)[x - 1] == (x in days);
      }
    }
    AscendingUnique(saved, days);
  }

  /** Opening the dialog on the slots it would save selects the same slots again. */
  lemma LoadAfterSave(slots: seq<bool>)
    requires |slots| == 7
    ensures LoadedSlots(SavedDays(slots)) == slots
  {
    var loaded := LoadedSlots(SavedDays(slots));
    assert forall k :: 0 <= k < 7 ==> loaded[k] == slots[k];
  }

  /** A joined list of day names is never one of the three preset texts. */
  lemma JoinedNamesNotPreset(names: seq<string>)
    requires names != [] && forall k :: 0 <= k < |names| ==> |names[k]| == 3
    ensures var text := JoinWithComma(names); text != "Once" && text != "Daily" && text != "Weekdays"
  {
    JoinedLength(names);
    if |names| == 2 {
      assert names[..1] == [names[0]];
      assert JoinWithComma(names) == names[0] + ", " + names[1];
      assert JoinWithComma(names)[3] == ',';
    }
  }

  /** The saved list is the work week exactly for the Monday-to-Friday selection. */
  lemma SavedWorkWeek(slots: seq<bool>)
    requires |slots| == 7
    ensures IsWorkWeek(SavedDays(slots)) <==> slots == WorkWeekSlots
  {
    var days := SavedDays(slots);
    CountSeven(slots);
    assert 2 in days <==> slots[1];
    assert 3 in days <==> slots[2];
    assert 4 in days <==> slots[3];
    assert 5 in days <==> slots[4];
    assert 6 in days <==> slots[5];
  }

  /** The chip a selection checks and the text the list shows for the saved days agree. */
  lemma PresetText(slots: seq<bool>)
    requires |slots| == 7
    ensures var text := DaysText(SavedDays(slots));
      (Classify(slots) == Once <==> text == "Once") &&
      (Classify(slots) == Daily <==> text == "Daily") &&
      (Classify(slots) == Weekdays <==> text == "Weekdays")
  {
    var days := SavedDays(slots);
    CountSeven(slots);
    OnceIffNotRepeating(days);
    SavedWorkWeek(slots);
    if 0 < |days| < 7 && !IsWorkWeek(days) {
      NamedDays(days, 7);
      assert DayNames[days[0] - 1] in NamesUpTo(days, 7);
      JoinedNamesNotPreset(NamesUpTo(days, 7));
    }
  }


  /** The list position the snooze picker preselects: the current duration's, or the 10-minute entry's. */
  function PreselectIndex(duration: int): (index: int)
    ensures 0 <= index < |SnoozeChoices|
    ensures duration in SnoozeChoices ==> SnoozeChoices[index] == duration
    ensures duration !in SnoozeChoices ==> index == 2
  {
    if duration == 1 then 0
    else if duration == 5 then 1
    else if duration == 15 then 3
    else if duration == 30 then 4
    else 2
  }

  class AlarmDialogFragment {
    const selectedDays: array<bool>
    var onceChip: bool
    var weekdaysChip: bool
    var dailyChip: bool
    var snoozeDuration: int
    var form: Form
    /** The alarm being edited, as passed in the arguments; `None` when adding. */
    const original: Option<AlarmData>

    ghost predicate Valid()
      reads this
    {
      selectedDays.Length == 7
    }

    /** Exactly the chip of preset `p` is checked. */
    predicate ChipsShow(p: Preset)
      reads this
    {
      onceChip == (p == Once) && weekdaysChip == (p == Weekdays) && dailyChip == (p == Daily)
    }

    /**
     * `newInstance` and `onViewCreated` with the form's initial values
     * `blank`. Editing copies the alarm's time, non-empty label, switches,
     * snooze duration and days, then sets the chips from the days; adding
     * checks Once, which clears the days.
     */
    constructor (original: Option<AlarmData>, blank: Form)
      ensures Valid() && fresh(selectedDays) && this.original == original
      ensures original.None? ==>
        form == blank && snoozeDuration == 10 && ChipsShow(Once) &&
        forall k :: 0 <= k < 7 ==> !selectedDays[k]
      ensures original.Some? ==>
        var a := original.value;
        form == Form(a.hour, a.minute, if a.labelText != "" then a.labelText else blank.labelText,
                     a.snooze, a.vibrationEnabled) &&
        snoozeDuration == a.snoozeDuration &&
        selectedDays[..] == LoadedSlots(a.daysOfWeek) &&
        ChipsShow(Classify(selectedDays[..]))
    {
      selectedDays := new bool[7](_ => false);
      onceChip := false;
      weekdaysChip := false;
      dailyChip := false;
      snoozeDuration := 10;
      form := blank;
      this.original := original;
      new;
      if original.Some? {
        var a := original.value;
        form := Form(a.hour, a.minute, if a.labelText != "" then a.labelText else blank.labelText,
                     a.snooze, a.vibrationEnabled);
        snoozeDuration := a.snoozeDuration;
        LoadDays(a.daysOfWeek);
        assert selectedDays[..] == LoadedSlots(a.daysOfWeek);
        UpdateChipStates();
      } else {
        TapOnce(true);
      }
    }

    /** The day loop of `loadAlarmData`: selects slot `d - 1` for each listed day `d` in 1..7; other values are ignored. */
    method LoadDays(days: seq<Int32>)
      requires Valid()
      modifies selectedDays
      ensures forall k :: 0 <= k < 7 ==> selectedDays[k] == (old(selectedDays[k]) || k + 1 in days)
    {
      var i := 0;
      while i < |days|
        invariant 0 <= i <= |days|
        invariant forall k :: 0 <= k < 7 ==> selectedDays[k] == (old(selectedDays[k]) || k + 1 in days[..i])
      {
        var day := days[i];
        if 1 <= day <= 7 {
          selectedDays[day - 1] := true;
        }
        assert days[..i + 1] == days[..i] + [day];
        i := i + 1;
      }
      assert days[..|days|] == days;
    }

    /** The loop of `updateChipStates`: how many days are selected, and whether exactly Monday to Friday are. */
    method CountSelection() returns (selectedCount: nat, isWeekdays: bool)
      requires Valid()
      ensures selectedCount == Count(selectedDays[..])
      ensures isWeekdays <==> selectedDays[..] == WorkWeekSlots
    {
      selectedCount := 0;
      isWeekdays := true;
      var i := 0;
      while i < selectedDays.Length
        invariant 0 <= i <= 7
        invariant selectedCount == Count(selectedDays[..i])
        invariant isWeekdays == forall j :: 0 <= j < i ==> selectedDays[j] == WorkWeekSlots[j]
      {
        CountPrefix(selectedDays[..], i + 1);
        assert selectedDays[..][..i + 1] == selectedDays[..i + 1];
        assert selectedDays[..][..i] == selectedDays[..i];
        if selectedDays[i] {
          selectedCount := selectedCount + 1;
          if i == 0 || i == 6 {
            isWeekdays := false;
          }
        } else if 1 <= i <= 5 {
          isWeekdays := false;
        }
        i := i + 1;
      }
      assert selectedDays[..7] == selectedDays[..];
    }

    /** `updateChipStates`: counts the selection and checks the chip of its preset, and no other. */
    method UpdateChipStates()
      requires Valid()
      modifies this
      ensures ChipsShow(Classify(selectedDays[..]))
      ensures snoozeDuration == old(snoozeDuration) && form == old(form)
    {
      var selectedCount, isWeekdays := CountSelection();
      CountSeven(selectedDays[..]);
      if selectedCount == 0 {
        onceChip, weekdaysChip, dailyChip := true, false, false;
      } else if selectedCount == 7 {
        onceChip, weekdaysChip, dailyChip := false, false, true;
      } else if selectedCount == 5 && isWeekdays {
        onceChip, weekdaysChip, dailyChip := false, true, false;
      } else {
        onceChip, weekdaysChip, dailyChip := false, false, false;
      }
    }

    /** A day button: flips that slot only, then re-derives the chips. */
    method ToggleDay(dayIndex: int)
      requires Valid() && 0 <= dayIndex < 7
      modifies this, selectedDays
      ensures selectedDays[..] == old(selectedDays[..])[dayIndex := !old(selectedDays[dayIndex])]
      ensures ChipsShow(Classify(selectedDays[..]))
      ensures snoozeDuration == old(snoozeDuration) && form == old(form)
    {
      selectedDays[dayIndex] := !selectedDays[dayIndex];
      UpdateChipStates();
    }

    /** `clearAllDays`. */
    method ClearAllDays()
      requires Valid()
      modifies selectedDays
      ensures forall k :: 0 <= k < 7 ==> !selectedDays[k]
    {
      var i := 0;
      while i < selectedDays.Length
        invariant 0 <= i <= 7
        invariant forall k :: 0 <= k < i ==> !selectedDays[k]
      {
        selectedDays[i] := false;
        i := i + 1;
      }
    }

    /** `setWeekdays`: exactly Monday to Friday. */
    method SetWeekdays()
      requires Valid()
      modifies selectedDays
      ensures selectedDays[..] == WorkWeekSlots
    {
      ClearAllDays();
      var i := 1;
      while i <= 5
        invariant 1 <= i <= 6
        invariant forall k :: 0 <= k < 7 ==> selectedDays[k] == (1 <= k < i)
      {
        selectedDays[i] := true;
        i := i + 1;
      }
      assert forall k :: 0 <= k < 7 ==> selectedDays[k] == WorkWeekSlots[k];
    }

    /** `setAllDays`. */
    method SetAllDays()
      requires Valid()
      modifies selectedDays
      ensures forall k :: 0 <= k < 7 ==> selectedDays[k]
    {
      var i := 0;
      while i < selectedDays.Length
        invariant 0 <= i <= 7
        invariant forall k :: 0 <= k < i ==> selectedDays[k]
      {
        selectedDays[i] := true;
        i := i + 1;
      }
    }

    /** The Once chip: checking it clears the days and unchecks the others; unchecking it changes nothing else. */
    method TapOnce(isChecked: bool)
      requires Valid()
      modifies this, selectedDays
      ensures isChecked ==> Classify(selectedDays[..]) == Once && ChipsShow(Once)
      ensures !isChecked ==>
        selectedDays[..] == old(selectedDays[..]) && !onceChip &&
        weekdaysChip == old(weekdaysChip) && dailyChip == old(dailyChip)
      ensures snoozeDuration == old(snoozeDuration) && form == old(form)
    {
      onceChip := isChecked;
      if isChecked {
        ClearAllDays();
        weekdaysChip := false;
        dailyChip := false;
      }
    }

    /** The Weekdays chip: checking it selects exactly Monday to Friday and unchecks the others. */
    method TapWeekdays(isChecked: bool)
      requires Valid()
      modifies this, selectedDays
      ensures isChecked ==> Classify(selectedDays[..]) == Weekdays && ChipsShow(Weekdays)
      ensures !isChecked ==>
        selectedDays[..] == old(selectedDays[..]) && !weekdaysChip &&
        onceChip == old(onceChip) && dailyChip == old(dailyChip)
      ensures snoozeDuration == old(snoozeDuration) && form == old(form)
    {
      weekdaysChip := isChecked;
      if isChecked {
        SetWeekdays();
        onceChip := false;
        dailyChip := false;
      }
    }

    /** The Daily chip: checking it selects every day and unchecks the others. */
    method TapDaily(isChecked: bool)
      requires Valid()
      modifies this, selectedDays
      ensures isChecked ==> Classify(selectedDays[..]) == Daily && ChipsShow(Daily)
      ensures !isChecked ==>
        selectedDays[..] == old(selectedDays[..]) && !dailyChip &&
        onceChip == old(onceChip) && weekdaysChip == old(weekdaysChip)
      ensures snoozeDuration == old(snoozeDuration) && form == old(form)
    {
      dailyChip := isChecked;
      if isChecked {
        SetAllDays();
        onceChip := false;
        weekdaysChip := false;
      }
    }

    /** Picking entry `which` of the snooze duration list. */
    method ChooseSnooze(which: int)
      requires 0 <= which < |SnoozeChoices|
      modifies this
      ensures snoozeDuration == SnoozeChoices[which] && PreselectIndex(snoozeDuration) == which
      ensures form == old(form) && onceChip == old(onceChip) && weekdaysChip == old(weekdaysChip) && dailyChip == old(dailyChip)
    {
      snoozeDuration := SnoozeChoices[which];
    }

    /** The user's edits to the time picker, label field and switches. */
    method EditForm(f: Form)
      modifies this
      ensures form == f && snoozeDuration == old(snoozeDuration)
      ensures onceChip == old(onceChip) && weekdaysChip == old(weekdaysChip) && dailyChip == old(dailyChip)
    {
      form := f;
    }

    /**
     * `saveAlarm`: a new, enabled alarm with the edited alarm's id (0 when
     * adding), the form's time, switches and trimmed label, the chosen
     * snooze duration and the selected days as an ascending 1..7 list.
     */
    method SaveAlarm() returns (saved: Alarm)
      requires Valid()
      ensures fresh(saved)
      ensures saved.Data() == AlarmData(
        if original.Some? then original.value.id else 0,
        form.hour, form.minute, SavedDays(selectedDays[..]), form.snooze, true,
        Trim(form.labelText), form.vibration, snoozeDuration, DefaultRingtone, false, 0)
    {
      var days: seq<Int32> := [];
      var i := 0;
      while i < selectedDays.Length
        invariant 0 <= i <= 7
        invariant days == DaysUpTo(selectedDays[..], i)
      {
        ghost var slots := selectedDays[..];
        assert DaysUpTo(slots, i + 1) == DaysUpTo(slots, i) + (if slots[i] then [i + 1] else []);
        if selectedDays[i] {
          days := days + [i + 1];
        }
        i := i + 1;
      }
      assert days == SavedDays(selectedDays[..]);
      var alarmId := if original.Some? then original.value.id else 0;
      saved := new Alarm(alarmId, form.hour, form.minute, Some(days), form.snooze, true,
                         Some(Trim(form.labelText)), form.vibration, snoozeDuration);
    }
  }
}
