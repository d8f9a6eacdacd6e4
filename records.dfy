/** The documents of the `IoTDevices` collection and the pure computations the
    service performs on them: the defaults of a created record and the lockstep
    appends to the parallel telemetry and schedule lists. */
module Records {
  import opened Wrappers

  /** A JSON scalar as it is stored in a document list or sent in a request body. */
  datatype Value = Null | Bool(b: bool) | Num(n: real) | Str(s: string)

  /** A wall-clock reading already formatted by the server: `HH:MM` and `DD/MM/YYYY`. */
  datatype Stamp = Stamp(time: string, date: string)

  /** A list stored under one key of a nested object; `None` when the key is absent. */
  type Column = Option<seq<Value>>

  /** The `currentData` object: five lists meant to be co-indexed, one entry per sample. */
  datatype CurrentData = CurrentData(time: Column, date: Column, voltage: Column, current: Column, power: Column)

  /** The `schedule` object: three lists meant to be co-indexed, one entry per slot. */
  datatype Schedule = Schedule(day: Column, timeOn: Column, timeOff: Column)

  /** One stored device document. */
  datatype Record = Record(
    name: string,
    description: Option<string>,
    onStatus: bool,
    location: string,
    abnormalStatus: bool,
    currentData: CurrentData,
    schedule: Schedule)

  /** The body of a create request; `None` marks an optional field the client omitted
      (for `description`, omitted or null). */
  datatype IotItem = IotItem(
    name: string,
    description: Option<string>,
    onStatus: bool,
    location: string,
    abnormalStatus: Option<bool>,
    currentData: Option<CurrentData>,
    schedule: Option<Schedule>)

  /** One telemetry sample: the i-th entry of each `currentData` list. */
  datatype Reading = Reading(time: Value, date: Value, voltage: Value, current: Value, power: Value)

  /** One schedule slot: the i-th entry of each `schedule` list. */
  datatype Slot = Slot(day: Value, timeOn: Value, timeOff: Value)

  /** The `currentData` of a document that has none: every list absent. */
  const NoCurrentData := CurrentData(None, None, None, None, None)

  /** The `schedule` of a document that has none: every list absent. */
  const NoSchedule := Schedule(None, None, None)

  /** The entries of a column, an absent list reading as empty. */
  function Entries(c: Column): seq<Value> {
    c.GetOr([])
  }

  /** `after` is `before` (absent read as empty) with `v` added at the end. */
  ghost predicate GrewBy(before: Column, after: Column, v: Value) {
    && after.Some?
    && |Entries(after)| == |Entries(before)| + 1
    && Entries(after)[..|Entries(before)|] == Entries(before)
    && Entries(after)[|Entries(before)|] == v
  }

  // ----- parallel-list invariants and the row views they permit -----

  /** The five telemetry lists have the same length. */
  predicate InStep(cd: CurrentData) {
    && |Entries(cd.date)| == |Entries(cd.time)|
    && |Entries(cd.voltage)| == |Entries(cd.time)|
    && |Entries(cd.current)| == |Entries(cd.time)|
    && |Entries(cd.power)| == |Entries(cd.time)|
  }

  /** The three schedule lists have the same length. */
  predicate ScheduleInStep(s: Schedule) {
    && |Entries(s.timeOn)| == |Entries(s.day)|
    && |Entries(s.timeOff)| == |Entries(s.day)|
  }

  /** Telemetry read as one list of samples, the i-th sample taken from the
      i-th entry of every list. */
  function Rows(cd: CurrentData): (rows: seq<Reading>)
    requires InStep(cd)
    ensures |rows| == |Entries(cd.time)|
  {
    seq(|Entries(cd.time)|, i requires 0 <= i < |Entries(cd.time)| =>
      Reading(Entries(cd.time)[i], Entries(cd.date)[i], Entries(cd.voltage)[i],
              Entries(cd.current)[i], Entries(cd.power)[i]))
  }

  /** The schedule read as one list of slots. */
  function Slots(s: Schedule): (slots: seq<Slot>)
    requires ScheduleInStep(s)
    ensures |slots| == |Entries(s.day)|
  {
    seq(|Entries(s.day)|, i requires 0 <= i < |Entries(s.day)| =>
      Slot(Entries(s.day)[i], Entries(s.timeOn)[i], Entries(s.timeOff)[i]))
  }

  // ----- defaults of a created record -----

  /** The default `currentData`: one sample stamped with the given time and date
      and no measurements. */
  function DefaultCurrentData(stamp: Stamp): (cd: CurrentData)
    ensures InStep(cd)
    ensures Rows(cd) == [Reading(Str(stamp.time), Str(stamp.date), Null, Null, Null)]
  {
    var cd := CurrentData(Some([Str(stamp.time)]), Some([Str(stamp.date)]), Some([Null]), Some([Null]), Some([Null]));
    assert Entries(cd.time) == [Str(stamp.time)] && Entries(cd.date) == [Str(stamp.date)];
    assert Entries(cd.voltage) == Entries(cd.current) == Entries(cd.power) == [Null];
    assert Rows(cd)[0] == Reading(Str(stamp.time), Str(stamp.date), Null, Null, Null);
    cd
  }

  /** The default `schedule`: one empty slot. */
  function DefaultSchedule(): (s: Schedule)
    ensures ScheduleInStep(s)
    ensures Slots(s) == [Slot(Null, Null, Null)]
  {
    Schedule(Some([Null]), Some([Null]), Some([Null]))
  }

  /** The document a create request stores: the seven fields of the body, each
      omitted optional field replaced by its default. `classStamp` is the clock
      reading taken once, when the defaults were defined. */
  function Document(item: IotItem, classStamp: Stamp): (r: Record)
    ensures r.name == item.name && r.onStatus == item.onStatus && r.location == item.location
    ensures r.description == item.description
    ensures r.abnormalStatus <==> item.abnormalStatus == Some(true)
    ensures item.currentData.Some? ==> r.currentData == item.currentData.value
    ensures item.schedule.Some? ==> r.schedule == item.schedule.value
    ensures item.currentData.None? ==> r.currentData == DefaultCurrentData(classStamp)
    ensures item.currentData.None? ==>
      InStep(r.currentData) && Rows(r.currentData) == [Reading(Str(classStamp.time), Str(classStamp.date), Null, Null, Null)]
    ensures item.schedule.None? ==> r.schedule == DefaultSchedule()
    ensures item.schedule.None? ==> ScheduleInStep(r.schedule) && Slots(r.schedule) == [Slot(Null, Null, Null)]
  {
    Record(
      item.name,
      item.description,
      item.onStatus,
      item.location,
      item.abnormalStatus.GetOr(false),
      item.currentData.GetOr(DefaultCurrentData(classStamp)),
      item.schedule.GetOr(DefaultSchedule()))
  }

  /** A create request that omits every optional field stores `abnormalStatus ==
      false`, a single stamped sample without measurements and a single empty
      schedule slot. */
  lemma OmittedFieldsGetDefaults(item: IotItem, classStamp: Stamp)
    requires item.description.None? && item.abnormalStatus.None?
    requires item.currentData.None? && item.schedule.None?
    ensures var r := Document(item, classStamp);
      && r.description.None?
      && !r.abnormalStatus
      && InStep(r.currentData) && Rows(r.currentData) == [Reading(Str(classStamp.time), Str(classStamp.date), Null, Null, Null)]
      && Entries(r.currentData.voltage) == [Null]
      && Entries(r.currentData.current) == [Null]
      && Entries(r.currentData.power) == [Null]
      && ScheduleInStep(r.schedule) && Slots(r.schedule) == [Slot(Null, Null, Null)]
  {
  }

  // ----- lockstep appends -----

  /** The `currentData` after one sample is appended: each of the five lists,
      an absent one read as empty, grows by that sample's entry. */
  function AppendReading(cd: CurrentData, reading: Reading): (cd': CurrentData)
    ensures GrewBy(cd.time, cd'.time, reading.time)
    ensures GrewBy(cd.date, cd'.date, reading.date)
    ensures GrewBy(cd.voltage, cd'.voltage, reading.voltage)
    ensures GrewBy(cd.current, cd'.current, reading.current)
    ensures GrewBy(cd.power, cd'.power, reading.power)
    ensures InStep(cd') <==> InStep(cd)
  {
    CurrentData(
      Some(Entries(cd.time) + [reading.time]),
      Some(Entries(cd.date) + [reading.date]),
      Some(Entries(cd.voltage) + [reading.voltage]),
      Some(Entries(cd.current) + [reading.current]),
      Some(Entries(cd.power) + [reading.power]))
  }

  /** The `schedule` after one slot is appended: each of the three lists grows
      by that slot's entry. */
  function AppendSlot(s: Schedule, slot: Slot): (s': Schedule)
    ensures GrewBy(s.day, s'.day, slot.day)
    ensures GrewBy(s.timeOn, s'.timeOn, slot.timeOn)
    ensures GrewBy(s.timeOff, s'.timeOff, slot.timeOff)
    ensures ScheduleInStep(s') <==> ScheduleInStep(s)
  {
    Schedule(
      Some(Entries(s.day) + [slot.day]),
      Some(Entries(s.timeOn) + [slot.timeOn]),
      Some(Entries(s.timeOff) + [slot.timeOff]))
  }

  /** Appending to the parallel lists is appending one sample to the row view. */
  lemma RowsAfterAppend(cd: CurrentData, reading: Reading)
    requires InStep(cd)
    ensures InStep(AppendReading(cd, reading))
    ensures Rows(AppendReading(cd, reading)) == Rows(cd) + [reading]
  {
  }

  /** Appending to the parallel schedule lists is appending one slot to the row view. */
  lemma SlotsAfterAppend(s: Schedule, slot: Slot)
    requires ScheduleInStep(s)
    ensures ScheduleInStep(AppendSlot(s, slot))
    ensures Slots(AppendSlot(s, slot)) == Slots(s) + [slot]
  {
  }

  /** A document stored without `currentData`, or with none of its lists, gets
      a log of exactly the one sample appended. */
  lemma AppendToMissingCurrentData(reading: Reading)
    ensures InStep(AppendReading(NoCurrentData, reading))
    ensures Rows(AppendReading(NoCurrentData, reading)) == [reading]
  {
  }

  /** A document stored without `schedule`, or with none of its lists, gets a
      schedule of exactly the one slot appended. */
  lemma AppendToMissingSchedule(slot: Slot)
    ensures ScheduleInStep(AppendSlot(NoSchedule, slot))
    ensures Slots(AppendSlot(NoSchedule, slot)) == [slot]
  {
  }

  /** The `currentData` built by appending `rows` one by one to five empty lists. */
  function FromRows(rows: seq<Reading>): (cd: CurrentData)
    ensures InStep(cd) && |Entries(cd.time)| == |rows|
    ensures cd.time.Some? && cd.date.Some? && cd.voltage.Some? && cd.current.Some? && cd.power.Some?
  {
    if rows == [] then CurrentData(Some([]), Some([]), Some([]), Some([]), Some([]))
    else AppendReading(FromRows(rows[..|rows| - 1]), rows[|rows| - 1])
  }

  /** Lockstep appends lose and reorder nothing: the telemetry log built by
      successive appends reads back, sample by sample, as the samples appended. */
  lemma {:induction false} RowsOfFromRows(rows: seq<Reading>)
    ensures Rows(FromRows(rows)) == rows
  {
    if rows != [] {
      var init := rows[..|rows| - 1];
      RowsOfFromRows(init);
      RowsAfterAppend(FromRows(init), rows[|rows| - 1]);
      assert init + [rows[|rows| - 1]] == rows;
    }
  }
}
