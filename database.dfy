/**
 * `DatabaseHelper`: the `alarms` table as a map from row id to row, the text
 * encoding of the day list, and the conversion between rows and alarms.
 *
 * Rows are listed in insertion (row id) order, which is the order an
 * unordered query over an AUTOINCREMENT table returns them in; ids come from
 * a counter that never reuses a value.
 */
module Database {
  import opened Wrappers
  import opened JavaInt
  import opened JavaText
  import opened Alarms

  const DatabaseVersion: int := 2

  // ---------------------------------------------------------------------
  // The day-list text codec
  // ---------------------------------------------------------------------

  /** `listToString`: the decimal form of every day, separated by single commas. */
  function Joined(days: seq<Int32>): string {
    if |days| == 0 then ""
    else if |days| == 1 then Decimal(days[0])
    else Joined(days[..|days| - 1]) + "," + Decimal(days[|days| - 1])
  }

  /** The decimal form of every day, in order. */
  function Decimals(days: seq<Int32>): (ds: seq<string>)
    ensures |ds| == |days|
  {
    seq(|days|, i requires 0 <= i < |days| => Decimal(days[i]))
  }

  /** `Integer.parseInt(part.trim())` for every piece, in order; `None` for a piece that throws. */
  function Parsed(parts: seq<string>): (os: seq<Option<Int32>>)
    ensures |os| == |parts|
  {
    seq(|parts|, i requires 0 <= i < |parts| => ParseInt(Trim(parts[i])))
  }

  /** The values of a list of results, left to right; `None` as soon as one is missing. */
  function AllPresent(os: seq<Option<Int32>>): Option<seq<Int32>> {
    if |os| == 0 then Some([])
    else
      match AllPresent(os[..|os| - 1])
      case None => None
      case Some(init) =>
        match os[|os| - 1]
        case None => None
        case Some(d) => Some(init + [d])
  }

  /** `Integer.parseInt(part.trim())` over the pieces left to right; `None` as soon as one is not a number. */
  function ParseAll(parts: seq<string>): Option<seq<Int32>> {
    if |parts| == 0 then Some([])
    else
      match ParseAll(parts[..|parts| - 1])
      case None => None
      case Some(init) =>
        match ParseInt(Trim(parts[|parts| - 1]))
        case None => None
        case Some(d) => Some(init + [d])
  }

  /** Parsing the pieces one after another is collecting their separate results. */
  lemma {:induction false} ParseAllCollects(parts: seq<string>)
    ensures ParseAll(parts) == AllPresent(Parsed(parts))
  {
    if |parts| > 0 {
      var n := |parts| - 1;
      ParseAllCollects(parts[..n]);
      assert Parsed(parts)[..n] == Parsed(parts[..n]);
    }
  }

  /** `stringToList`: null and "" give the empty list; otherwise every comma-separated piece must parse. */
  function Decode(daysText: Option<string>): Option<seq<Int32>> {
    if daysText.None? || daysText.value == "" then Some([])
    else ParseAll(Split(daysText.value, ','))
  }

  /** The number of occurrences of `c` in `s`. */
  function Occurrences(s: string, c: char): nat {
    if s == [] then 0 else Occurrences(s[..|s| - 1], c) + (if s[|s| - 1] == c then 1 else 0)
  }

  lemma NoCommaInDecimal(n: Int32)
    ensures ',' !in Decimal(n)
    ensures !IsTrimmed(Decimal(n)[0]) && !IsTrimmed(Decimal(n)[|Decimal(n)| - 1])
  {
    var s := Decimal(n);
    if n < 0 {
      assert forall i :: 1 <= i < |s| ==> s[1..][i - 1] == s[i];
    }
  }

  lemma DecimalIsOnePiece(d: Int32)
    ensures Pieces(Decimal(d), ',') == [Decimal(d)]
  {
    NoCommaInDecimal(d);
    PiecesWithoutSeparator(Decimal(d), ',');
  }

  /** One day more adds exactly its decimal text as a last piece. */
  lemma JoinedPiecesStep(days: seq<Int32>)
    requires |days| > 1
    ensures Pieces(Joined(days), ',') == Pieces(Joined(days[..|days| - 1]), ',') + [Decimal(days[|days| - 1])]
  {
    DecimalIsOnePiece(days[|days| - 1]);
    PiecesAround(Joined(days[..|days| - 1]), Decimal(days[|days| - 1]), ',');
  }

  lemma {:induction false} PiecesOfJoined(days: seq<Int32>)
    requires |days| > 0
    ensures Pieces(Joined(days), ',') == Decimals(days)
  {
    var n := |days| - 1;
    if n == 0 {
      DecimalIsOnePiece(days[0]);
      assert Decimals(days) == [Decimal(days[0])];
    } else {
      PiecesOfJoined(days[..n]);
      JoinedPiecesStep(days);
      assert Decimals(days) == Decimals(days[..n]) + [Decimal(days[n])];
    }
  }

  lemma DecimalParses(n: Int32)
    ensures ParseInt(Trim(Decimal(n))) == Some(n)
  {
    NoCommaInDecimal(n);
    ParseDecimal(n);
  }

  /** Every value present. */
  function Present(days: seq<Int32>): (os: seq<Option<Int32>>)
    ensures |os| == |days|
  {
    seq(|days|, i requires 0 <= i < |days| => Some(days[i]))
  }

  lemma {:induction false} AllPresentOfValues(days: seq<Int32>)
    ensures AllPresent(Present(days)) == Some(days)
  {
    if |days| > 0 {
      var init := days[..|days| - 1];
      AllPresentOfValues(init);
      assert Present(days)[..|days| - 1] == Present(init);
      assert days == init + [days[|days| - 1]];
    }
  }

  lemma ParseDecimals(days: seq<Int32>)
    ensures ParseAll(Decimals(days)) == Some(days)
  {
    forall i | 0 <= i < |days|
      ensures Parsed(Decimals(days))[i] == Present(days)[i]
    {
      DecimalParses(days[i]);
    }
    assert Parsed(Decimals(days)) == Present(days);
    AllPresentOfValues(days);
    ParseAllCollects(Decimals(days));
  }

  /** Decoding the stored text gives back exactly the list written, in order and with duplicates, for every `int` value. */
  lemma DaysRoundTrip(days: seq<Int32>)
    ensures Decode(Some(Joined(days))) == Some(days)
  {
    if |days| > 0 {
      PiecesOfJoined(days);
      var ds := Decimals(days);
      assert ds[|ds| - 1] != "";
      assert DropTrailingEmpty(ds) == ds;
      ParseDecimals(days);
    }
  }

  lemma {:induction false} OccurrencesAppend(a: string, b: string, c: char)
    ensures Occurrences(a + b, c) == Occurrences(a, c) + Occurrences(b, c)
  {
    if b == [] {
      assert a + b == a;
    } else {
      assert (a + b)[..|a + b| - 1] == a + b[..|b| - 1];
      assert (a + b)[|a + b| - 1] == b[|b| - 1];
      OccurrencesAppend(a, b[..|b| - 1], c);
      var t := if b[|b| - 1] == c then 1 else 0;
      assert Occurrences(a + b, c) == Occurrences(a + b[..|b| - 1], c) + t;
      assert Occurrences(b, c) == Occurrences(b[..|b| - 1], c) + t;
    }
  }

  lemma {:induction false} OccurrencesAbsent(s: string, c: char)
    requires c !in s
    ensures Occurrences(s, c) == 0
  {
    if s != [] {
      OccurrencesAbsent(s[..|s| - 1], c);
    }
  }

  /** The text of `n` days is empty exactly for no days, holds `n - 1` commas, and neither starts nor ends with one. */
  lemma {:induction false} JoinedCommas(days: seq<Int32>)
    ensures Joined(days) == "" <==> |days| == 0
    ensures |days| > 0 ==>
      Occurrences(Joined(days), ',') == |days| - 1 &&
      Joined(days)[0] != ',' && Joined(days)[|Joined(days)| - 1] != ','
  {
    if |days| > 0 {
      var last := days[|days| - 1];
      NoCommaInDecimal(last);
      OccurrencesAbsent(Decimal(last), ',');
      if |days| > 1 {
        var init := days[..|days| - 1];
        JoinedCommas(init);
        OccurrencesAppend(Joined(init) + ",", Decimal(last), ',');
        OccurrencesAppend(Joined(init), ",", ',');
        assert Occurrences(",", ',') == 1 by {
          assert ","[..0] == "";
        }
        assert Joined(days)[0] == Joined(init)[0];
      } else {
        assert Decimal(last)[0] in Decimal(last);
      }
      assert Decimal(last)[|Decimal(last)| - 1] in Decimal(last);
    }
  }

  /** The text of one more day: its decimal form, after a comma unless it is the first. */
  lemma JoinedPrefixStep(days: seq<Int32>, i: nat)
    requires i < |days|
    ensures Joined(days[..i + 1]) == Joined(days[..i]) + (if i > 0 then "," else "") + Decimal(days[i])
  {
    assert days[..i + 1][..i] == days[..i];
  }

  /** `listToString`, appending to a builder in a loop. */
  method ListToString(days: seq<Int32>) returns (s: string)
    ensures s == Joined(days)
  {
    s := "";
    var i := 0;
    while i < |days|
      invariant 0 <= i <= |days|
      invariant s == Joined(days[..i]) + (if 0 < i < |days| then "," else "")
    {
      JoinedPrefixStep(days, i);
      s := s + Decimal(days[i]);
      if i < |days| - 1 {
        s := s + ",";
      }
      i := i + 1;
    }
    assert days[..i] == days;
  }

  lemma {:induction false} ParseAllStopsAt(parts: seq<string>, k: nat)
    requires k <= |parts| && ParseAll(parts[..k]) == None
    ensures ParseAll(parts) == None
  {
    if k < |parts| {
      var init := parts[..|parts| - 1];
      assert init[..k] == parts[..k];
      ParseAllStopsAt(init, k);
    } else {
      assert parts[..k] == parts;
    }
  }

  /** Parsing one piece more: the prefix's list extended by the piece's value, or `None`. */
  lemma ParseAllStep(parts: seq<string>, k: nat)
    requires k < |parts|
    ensures ParseAll(parts[..k + 1]) ==
      match ParseAll(parts[..k])
      case None => None
      case Some(init) =>
        match ParseInt(Trim(parts[k]))
        case None => None
        case Some(d) => Some(init + [d])
  {
    assert parts[..k + 1][..k] == parts[..k];
  }

  /** The loop of `stringToList`: parses every trimmed piece, stopping at the first that is not a number. */
  method ParsePieces(parts: seq<string>) returns (days: Option<seq<Int32>>)
    ensures days == ParseAll(parts)
  {
    var result: seq<Int32> := [];
    var k := 0;
    while k < |parts|
      invariant 0 <= k <= |parts|
      invariant ParseAll(parts[..k]) == Some(result)
    {
      var v := ParseInt(Trim(parts[k]));
      ParseAllStep(parts, k);
      if v.None? {
        ParseAllStopsAt(parts, k + 1);
        return None;
      }
      result := result + [v.value];
      k := k + 1;
    }
    assert parts[..k] == parts;
    return Some(result);
  }

  /** `stringToList`: `None` stands for the `NumberFormatException` a malformed piece raises. */
  method StringToList(daysText: Option<string>) returns (days: Option<seq<Int32>>)
    ensures days == Decode(daysText)
  {
    if daysText.Some? && daysText.value != "" {
      days := ParsePieces(Split(daysText.value, ','));
    } else {
      days := Some([]);
    }
  }

  // ---------------------------------------------------------------------
  // Rows
  // ---------------------------------------------------------------------

  /** One row of the `alarms` table, without its id; the flags are the stored integers. */
  datatype Row = Row(hour: int, minute: int, days: Option<string>, snooze: int, enabled: int, isSnoozing: int)

  /** A boolean as written: 1 or 0. */
  function Flag(b: bool): int {
    if b then 1 else 0
  }

  /** A stored integer as read: true only for 1. */
  predicate IsSet(v: int) {
    v == 1
  }

  /** The row `addAlarm` and `updateAlarm` write for an alarm. */
  function EncodeRow(a: AlarmData): Row {
    Row(a.hour, a.minute, Some(Joined(a.daysOfWeek)), Flag(a.snooze), Flag(a.enabled), Flag(a.isSnoozing))
  }

  /** The alarm `getAllAlarms` builds from a row: the six-argument constructor, then `setSnoozing`. */
  function ReadBack(id: int, row: Row): (r: Option<AlarmData>)
    ensures r.Some? <==> Decode(row.days).Some?
    ensures r.Some? ==> r.value.id == id
  {
    match Decode(row.days)
    case None => None
    case Some(days) =>
      Some(AlarmData(id, row.hour, row.minute, days, IsSet(row.snooze), IsSet(row.enabled), "",
                     true, DefaultSnoozeDuration, DefaultRingtone, IsSet(row.isSnoozing), 0))
  }

  predicate Readable(row: Row) {
    Decode(row.days).Some?
  }

  /** Flags read back as written, and only 1 reads as true. */
  lemma FlagRoundTrip(b: bool, v: int)
    ensures IsSet(Flag(b)) == b
    ensures Flag(b) == 0 || Flag(b) == 1
    ensures IsSet(v) ==> v == 1
  {
  }

  /**
   * Writing an alarm and reading it back keeps id, hour, minute, days,
   * snooze, enabled and isSnoozing; label, vibration, snooze duration,
   * ringtone and next alarm time come back as the constructor defaults.
   */
  lemma StoreRoundTrip(a: AlarmData, id: int)
    ensures var r := ReadBack(id, EncodeRow(a));
      r.Some? &&
      r.value.id == id && r.value.hour == a.hour && r.value.minute == a.minute &&
      r.value.daysOfWeek == a.daysOfWeek && r.value.snooze == a.snooze &&
      r.value.enabled == a.enabled && r.value.isSnoozing == a.isSnoozing &&
      r.value.labelText == "" && r.value.vibrationEnabled && r.value.snoozeDuration == 10 &&
      r.value.ringtone == "default" && r.value.nextAlarmTime == 0
  {
    DaysRoundTrip(a.daysOfWeek);
  }

  /** Re-writing what was read back reproduces the row `EncodeRow` wrote. */
  lemma RewriteIsStable(a: AlarmData, id: int)
    ensures ReadBack(id, EncodeRow(a)).Some?
    ensures EncodeRow(ReadBack(id, EncodeRow(a)).value) == EncodeRow(a)
  {
    DaysRoundTrip(a.daysOfWeek);
  }

  /** The rows after the version-1 upgrade adds `is_snoozing` with default 0. */
  function ClearSnoozing(rows: map<int, Row>): map<int, Row> {
    map id | id in rows :: rows[id].(isSnoozing := 0)
  }

  /** After the upgrade every row reads back as not snoozing, with its other columns as before. */
  lemma UpgradedRowsNotSnoozing(rows: map<int, Row>, id: int)
    requires id in rows && Readable(rows[id])
    ensures id in ClearSnoozing(rows)
    ensures var r := ReadBack(id, ClearSnoozing(rows)[id]);
      r.Some? && !r.value.isSnoozing &&
      r == ReadBack(id, rows[id]).(value := ReadBack(id, rows[id]).value.(isSnoozing := false))
  {
  }

  predicate Increasing(s: seq<int>) {
    forall i, j :: 0 <= i < j < |s| ==> s[i] < s[j]
  }

  lemma IncreasingCons(x: int, rest: seq<int>)
    requires Increasing(rest) && forall y :: y in rest ==> x < y
    ensures Increasing([x] + rest)
  {
    var r := [x] + rest;
    forall i, j | 0 <= i < j < |r|
      ensures r[i] < r[j]
    {
      assert r[j] == rest[j - 1] && rest[j - 1] in rest;
      if i > 0 {
        assert r[i] == rest[i - 1];
      }
    }
  }

  lemma IncreasingSnoc(s: seq<int>, x: int)
    requires Increasing(s) && forall y :: y in s ==> y < x
    ensures Increasing(s + [x])
  {
    var r := s + [x];
    forall i, j | 0 <= i < j < |r|
      ensures r[i] < r[j]
    {
      assert r[i] == s[i] && s[i] in s;
    }
  }

  lemma IncreasingTail(s: seq<int>)
    requires Increasing(s) && s != []
    ensures Increasing(s[1..])
    ensures forall y :: y in s[1..] ==> s[0] < y
  {
    forall y | y in s[1..]
      ensures s[0] < y
    {
      var k :| 0 <= k < |s[1..]| && s[1..][k] == y;
      assert s[k + 1] == y;
    }
  }

  /** `s` without the value `x`, order kept. */
  function Without(s: seq<int>, x: int): (r: seq<int>)
    ensures forall y :: y in r <==> y in s && y != x
    ensures Increasing(s) ==> Increasing(r)
  {
    if s == [] then []
    else
      var rest := Without(s[1..], x);
      if s[0] == x then
        (if Increasing(s) then IncreasingTail(s); rest else rest)
      else
        (if Increasing(s) then IncreasingTail(s); IncreasingCons(s[0], rest); [s[0]] + rest else [s[0]] + rest)
  }

  /** The alarms table. */
  class DatabaseHelper {
    var rows: map<int, Row>
    /** Row ids in insertion order. */
    var ids: seq<int>
    /** The next AUTOINCREMENT id. */
    var nextId: int

    ghost predicate Valid()
      reads this
    {
      Increasing(ids) &&
      (forall id :: id in rows <==> id in ids) &&
      (forall id :: id in ids ==> 1 <= id < nextId) && nextId >= 1 &&
      (forall id :: id in rows ==> Readable(rows[id]))
    }

    /** `onCreate`: an empty table. */
    constructor ()
      ensures Valid() && rows == map[] && ids == [] && nextId == 1
    {
      rows := map[];
      ids := [];
      nextId := 1;
    }

    /** `onUpgrade`: coming from version 1, every existing row gets `is_snoozing = 0`. */
    method OnUpgrade(oldVersion: int, newVersion: int)
      requires Valid()
      modifies this
      ensures Valid()
      ensures rows == if oldVersion < 2 then ClearSnoozing(old(rows)) else old(rows)
      ensures ids == old(ids) && nextId == old(nextId)
    {
      if oldVersion < 2 {
        rows := ClearSnoozing(rows);
      }
    }

    /** `addAlarm`: inserts a new row under a never-used id and returns that id. */
    method AddAlarm(alarm: Alarm) returns (id: int)
      requires Valid()
      modifies this
      ensures Valid()
      ensures id == old(nextId) && id !in old(rows) && id >= 1
      ensures rows == old(rows)[id := EncodeRow(alarm.Data())]
      ensures ids == old(ids) + [id] && nextId == id + 1
    {
      var daysText := ListToString(alarm.daysOfWeek);
      var row := Row(alarm.hour, alarm.minute, Some(daysText), Flag(alarm.snooze), Flag(alarm.enabled), Flag(alarm.isSnoozing));
      DaysRoundTrip(alarm.daysOfWeek);
      IncreasingSnoc(ids, nextId);
      id := nextId;
      rows := rows[id := row];
      ids := ids + [id];
      nextId := nextId + 1;
    }

    /** `updateAlarm`: overwrites the row with the alarm's id; no row has it, nothing changes. */
    method UpdateAlarm(alarm: Alarm)
      requires Valid()
      modifies this
      ensures Valid()
      ensures rows == if alarm.id in old(rows) then old(rows)[alarm.id := EncodeRow(alarm.Data())] else old(rows)
      ensures ids == old(ids) && nextId == old(nextId)
    {
      var daysText := ListToString(alarm.daysOfWeek);
      var row := Row(alarm.hour, alarm.minute, Some(daysText), Flag(alarm.snooze), Flag(alarm.enabled), Flag(alarm.isSnoozing));
      DaysRoundTrip(alarm.daysOfWeek);
      if alarm.id in rows {
        rows := rows[alarm.id := row];
      }
    }

    /** `deleteAlarm`: removes the row with that id, if any. */
    method DeleteAlarm(id: int)
      requires Valid()
      modifies this
      ensures Valid()
      ensures rows == old(rows) - {id}
      ensures ids == Without(old(ids), id) && nextId == old(nextId)
    {
      assert Increasing(Without(ids, id));
      rows := rows - {id};
      ids := Without(ids, id);
    }

    /** `getAllAlarms`: one new alarm object per row, in row order. */
    method GetAllAlarms() returns (alarms: seq<Alarm>)
      requires Valid()
      ensures |alarms| == |ids|
      ensures forall i :: 0 <= i < |alarms| ==>
        fresh(alarms[i]) && ReadBack(ids[i], rows[ids[i]]) == Some(alarms[i].Data())
      ensures forall i, j :: 0 <= i < j < |alarms| ==> alarms[i] != alarms[j]
    {
      var table, order := rows, ids;
      alarms := [];
      ghost var read: seq<AlarmData> := [];
      var k := 0;
      while k < |order|
        invariant 0 <= k <= |order| && |alarms| == k && |read| == k
        invariant forall i :: 0 <= i < k ==> fresh(alarms[i]) && alarms[i].Data() == read[i]
        invariant forall i :: 0 <= i < k ==> order[i] in table && ReadBack(order[i], table[order[i]]) == Some(read[i])
        invariant forall i, j :: 0 <= i < j < k ==> alarms[i] != alarms[j]
      {
        var id := order[k];
        assert id in order;
        var alarm := ReadAlarm(id, table[id]);
        ghost var data := alarm.Data();
        assert forall i :: 0 <= i < k ==> alarms[i] != alarm && alarms[i].Data() == read[i];
        alarms := alarms + [alarm];
        read := read + [data];
        k := k + 1;
      }
    }
  }

  /** The body of the cursor loop in `getAllAlarms`: the six-argument constructor over the row's columns, then `setSnoozing`. */
  method ReadAlarm(id: int, row: Row) returns (alarm: Alarm)
    requires Readable(row)
    ensures fresh(alarm) && ReadBack(id, row) == Some(alarm.Data())
  {
    var days := StringToList(row.days);
    alarm := new Alarm.Basic(id, row.hour, row.minute, Some(days.value), IsSet(row.snooze), IsSet(row.enabled));
    alarm.SetSnoozing(IsSet(row.isSnoozing));
  }

  /** `stream().filter(a -> a.getId() == id).findFirst()`: the first alarm with that id. */
  function FirstWithId(alarms: seq<Alarm>, id: int): (r: Option<Alarm>)
    reads alarms
    ensures r.Some? ==> r.value in alarms && r.value.id == id
    ensures r.Some? ==> exists i :: 0 <= i < |alarms| && alarms[i] == r.value && forall j :: 0 <= j < i ==> alarms[j].id != id
    ensures r.None? <==> forall a :: a in alarms ==> a.id != id
  {
    if |alarms| == 0 then None
    else if alarms[0].id == id then Some(alarms[0])
    else
      var rest := FirstWithId(alarms[1..], id);
      assert rest.Some? ==> exists i :: 1 <= i < |alarms| && alarms[i] == rest.value && forall j :: 0 <= j < i ==> alarms[j].id != id by {
        if rest.Some? {
          var k :| 0 <= k < |alarms[1..]| && alarms[1..][k] == rest.value && forall j :: 0 <= j < k ==> alarms[1..][j].id != id;
          assert forall j :: 0 <= j < k + 1 ==> alarms[j].id != id by {
            forall j | 0 <= j < k + 1 ensures alarms[j].id != id {
              if j > 0 { assert alarms[j] == alarms[1..][j - 1]; }
            }
          }
        }
      }
      rest
  }

  /**
   * The lookup the ring screen and the receivers perform: read every alarm and
   * keep the first whose id matches. It finds one exactly when a row has that
   * id, and the object found is new and holds that row's contents.
   */
  method FindStored(db: DatabaseHelper, id: int) returns (found: Option<Alarm>)
    requires db.Valid()
    ensures found.Some? <==> id in db.rows
    ensures found.Some? ==> fresh(found.value) && ReadBack(id, db.rows[id]) == Some(found.value.Data())
  {
    var alarms := db.GetAllAlarms();
    found := FirstWithId(alarms, id);
    if found.Some? {
      var i :| 0 <= i < |alarms| && alarms[i] == found.value;
      assert alarms[i].Data().id == db.ids[i];
    } else {
      forall i | 0 <= i < |db.ids|
        ensures db.ids[i] != id
      {
        assert alarms[i] in alarms && alarms[i].Data().id == db.ids[i];
      }
    }
  }
}
