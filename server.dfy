/** The request handlers of the device-record service over the `IoTDevices`
    collection, the collection held as a map from document id to document.
    Each handler is one atomic step over that map. */
module Server {
  import opened Wrappers
  import opened Records

  const ItemNotFound := "Item not found"
  const MissingKeys := "Missing required keys in data"
  const ItemCreated := "Item created"
  const ItemUpdated := "Item updated"
  const ItemDeleted := "Item deleted"

  /** The measurement keys a telemetry body may carry. */
  const MeasurementKeys: seq<string> := ["voltage", "current", "power"]

  /** The keys a schedule body must carry. */
  const ScheduleKeys: seq<string> := ["day", "timeOn", "timeOff"]

  /** The JSON body a handler returns. */
  datatype Response =
    | Items(items: seq<Record>)                 // {"items": [...]}
    | Item(item: Record)                        // {"item": {...}}
    | Success(message: string)                  // {"success": "..."}
    | PreviousData(currentData: CurrentData)    // {"success": <currentData before the append>}
    | UpdatedSchedule(schedule: Schedule)       // {"success": <schedule after the append>}
    | Error(message: string)                    // {"error": "..."}

  /** The value stored under `key` in a request body, `Null` when it is missing. */
  function Field(data: map<string, Value>, key: string): Value {
    if key in data then data[key] else Null
  }

  /** The sample a telemetry body yields: the server's stamp for `time` and
      `date` whatever the body says, and each measurement the body's value or
      `Null` when it is missing. Every other key is ignored. */
  function ReadingOf(data: map<string, Value>, now: Stamp): (r: Reading)
    ensures r.time == Str(now.time) && r.date == Str(now.date)
    ensures "voltage" in data ==> r.voltage == data["voltage"]
    ensures "current" in data ==> r.current == data["current"]
    ensures "power" in data ==> r.power == data["power"]
    ensures "voltage" !in data ==> r.voltage == Null
    ensures "current" !in data ==> r.current == Null
    ensures "power" !in data ==> r.power == Null
  {
    Reading(Str(now.time), Str(now.date), Field(data, "voltage"), Field(data, "current"), Field(data, "power"))
  }

  /** Only the measurement keys of a telemetry body reach the sample: a
      client-sent `time` or `date`, or any other key, changes nothing. */
  lemma ReadingIgnoresOtherKeys(data: map<string, Value>, key: string, v: Value, now: Stamp)
    requires key !in MeasurementKeys
    ensures ReadingOf(data[key := v], now) == ReadingOf(data, now)
  {
  }

  /** A schedule body names all three of `day`, `timeOn` and `timeOff`. */
  predicate HasScheduleKeys(data: map<string, Value>)
    ensures HasScheduleKeys(data) <==> "day" in data && "timeOn" in data && "timeOff" in data
  {
    assert ScheduleKeys[0] == "day" && ScheduleKeys[1] == "timeOn" && ScheduleKeys[2] == "timeOff";
    forall i :: 0 <= i < |ScheduleKeys| ==> ScheduleKeys[i] in data
  }

  /** Fills every measurement key missing from a telemetry body with `Null`,
      leaving the keys it has untouched. */
  method FillMissingMeasurements(data: map<string, Value>) returns (filled: map<string, Value>)
    ensures filled.Keys == data.Keys + {"voltage", "current", "power"}
    ensures forall k :: k in data ==> filled[k] == data[k]
    ensures forall k :: k in filled && k !in data ==> filled[k] == Null
  {
    filled := data;
    for i := 0 to |MeasurementKeys|
      invariant filled.Keys == data.Keys + set j | 0 <= j < i :: MeasurementKeys[j]
      invariant forall k :: k in data ==> filled[k] == data[k]
      invariant forall k :: k in filled && k !in data ==> filled[k] == Null
    {
      var key := MeasurementKeys[i];
      if key !in filled {
        filled := filled[key := Null];
      }
    }
    assert MeasurementKeys[0] == "voltage" && MeasurementKeys[1] == "current" && MeasurementKeys[2] == "power";
  }

  /** The service: the collection's documents by id, and the clock reading taken
      once, when the defaults of a create body were defined. */
  class DeviceService {
    var items: map<string, Record>
    const classStamp: Stamp

    constructor (documents: map<string, Record>, classStamp: Stamp)
      ensures items == documents && this.classStamp == classStamp
    {
      items := documents;
      this.classStamp := classStamp;
    }

    /** Lists every stored document, each exactly once, in the order the store
        yields them (`order` is that order of ids). */
    method ReadItems() returns (resp: Response, ghost order: seq<string>)
      ensures resp.Items? && |resp.items| == |order|
      ensures forall i :: 0 <= i < |order| ==> order[i] in items && resp.items[i] == items[order[i]]
      ensures forall id :: id in items <==> id in order
      ensures forall i, j :: 0 <= i < j < |order| ==> order[i] != order[j]
    {
      var pending := items.Keys;
      var listed: seq<Record> := [];
      order := [];
      while pending != {}
        invariant pending <= items.Keys
        invariant |listed| == |order|
        invariant forall i :: 0 <= i < |order| ==> order[i] in items && listed[i] == items[order[i]]
        invariant forall id :: id in items ==> (id in pending <==> id !in order)
        invariant forall i, j :: 0 <= i < j < |order| ==> order[i] != order[j]
        decreases pending
      {
        var id :| id in pending;
        listed := listed + [items[id]];
        order := order + [id];
        pending := pending - {id};
      }
      resp := Items(listed);
    }

    /** The document stored under `id`, or not-found. */
    method ReadItem(id: string) returns (resp: Response)
      ensures id in items ==> resp == Item(items[id])
      ensures id !in items ==> resp == Error(ItemNotFound)
    {
      if id in items {
        resp := Item(items[id]);
      } else {
        resp := Error(ItemNotFound);
      }
    }

    /** Stores the body, with defaults for omitted fields, under a fresh id
        chosen by the store. Nothing else changes. */
    method CreateItem(item: IotItem, newId: string) returns (resp: Response)
      requires newId !in items
      modifies this
      ensures items.Keys == old(items).Keys + {newId}
      ensures items[newId] == Document(item, classStamp)
      ensures forall id :: id in old(items) ==> items[id] == old(items)[id]
      ensures resp == Success(ItemCreated)
    {
      items := items[newId := Document(item, classStamp)];
      resp := Success(ItemCreated);
    }

    /** Flips `onStatus` of the document under `id` and nothing else; on an
        absent id, not-found and no change. */
    method NegateOnStatus(id: string) returns (resp: Response)
      modifies this
      ensures old(id in items) ==>
        && items == old(items)[id := old(items[id]).(onStatus := !old(items[id].onStatus))]
        && resp == Success(ItemUpdated)
      ensures old(id !in items) ==> items == old(items) && resp == Error(ItemNotFound)
    {
      if id in items {
        var doc := items[id];
        items := items[id := doc.(onStatus := !doc.onStatus)];
        resp := Success(ItemUpdated);
      } else {
        resp := Error(ItemNotFound);
      }
    }

    /** Flips `abnormalStatus` of the document under `id` and nothing else; on
        an absent id, not-found and no change. */
    method NegateAbnormalStatus(id: string) returns (resp: Response)
      modifies this
      ensures old(id in items) ==>
        && items == old(items)[id := old(items[id]).(abnormalStatus := !old(items[id].abnormalStatus))]
        && resp == Success(ItemUpdated)
      ensures old(id !in items) ==> items == old(items) && resp == Error(ItemNotFound)
    {
      if id in items {
        var doc := items[id];
        items := items[id := doc.(abnormalStatus := !doc.abnormalStatus)];
        resp := Success(ItemUpdated);
      } else {
        resp := Error(ItemNotFound);
      }
    }

    /** Removes the document under `id` and no other; on an absent id,
        not-found and no change. */
    method DeleteItem(id: string) returns (resp: Response)
      modifies this
      ensures old(id in items) ==> items == old(items) - {id} && resp == Success(ItemDeleted)
      ensures old(id !in items) ==> items == old(items) && resp == Error(ItemNotFound)
    {
      if id in items {
        items := items - {id};
        resp := Success(ItemDeleted);
      } else {
        resp := Error(ItemNotFound);
      }
    }

    /** Appends one sample, stamped with `now`, to the telemetry lists of the
        document under `id` and answers with its `currentData` as it was before.
        Only that field of that document changes; on an absent id, not-found
        and no change. */
    method AddCurrentData(id: string, data: map<string, Value>, now: Stamp) returns (resp: Response)
      modifies this
      ensures old(id in items) ==>
        && items == old(items)[id := old(items[id]).(currentData := AppendReading(old(items[id].currentData), ReadingOf(data, now)))]
        && resp == PreviousData(old(items[id].currentData))
      ensures old(id !in items) ==> items == old(items) && resp == Error(ItemNotFound)
    {
      var body := data["time" := Str(now.time)]["date" := Str(now.date)];
      if id in items {
        var doc := items[id];
        var previous := doc.currentData;
        body := FillMissingMeasurements(body);
        var reading := Reading(body["time"], body["date"], body["voltage"], body["current"], body["power"]);
        items := items[id := doc.(currentData := AppendReading(previous, reading))];
        resp := PreviousData(previous);
      } else {
        resp := Error(ItemNotFound);
      }
    }

    /** Appends one slot to the schedule lists of the document under `id` and
        answers with the updated schedule. An absent id gives not-found whatever
        the body; a body lacking `day`, `timeOn` or `timeOff` gives the
        missing-keys error. Either error leaves the store unchanged. */
    method AddSchedule(id: string, data: map<string, Value>) returns (resp: Response)
      modifies this
      ensures old(id !in items) ==> items == old(items) && resp == Error(ItemNotFound)
      ensures old(id in items) && !HasScheduleKeys(data) ==>
        items == old(items) && resp == Error(MissingKeys)
      ensures old(id in items) && HasScheduleKeys(data) ==>
        var updated := AppendSlot(old(items[id].schedule), Slot(data["day"], data["timeOn"], data["timeOff"]));
        && items == old(items)[id := old(items[id]).(schedule := updated)]
        && resp == UpdatedSchedule(updated)
    {
      if id in items {
        var schedule := items[id].schedule;
        if HasScheduleKeys(data) {
          var updated := AppendSlot(schedule, Slot(data["day"], data["timeOn"], data["timeOff"]));
          items := items[id := items[id].(schedule := updated)];
          resp := UpdatedSchedule(updated);
        } else {
          resp := Error(MissingKeys);
        }
      } else {
        resp := Error(ItemNotFound);
      }
    }
  }

  // ----- what callers can rely on -----

  /** Toggling `onStatus` twice with no write in between restores the store. */
  method NegateOnStatusTwice(service: DeviceService, id: string)
    modifies service
    ensures service.items == old(service.items)
  {
    var _ := service.NegateOnStatus(id);
    var _ := service.NegateOnStatus(id);
  }

  /** Toggling `abnormalStatus` twice with no write in between restores the store. */
  method NegateAbnormalStatusTwice(service: DeviceService, id: string)
    modifies service
    ensures service.items == old(service.items)
  {
    var _ := service.NegateAbnormalStatus(id);
    var _ := service.NegateAbnormalStatus(id);
  }

  /** A telemetry append keeps the five lists of a document in step and adds
      exactly one sample to its row view; no other document changes. */
  method AddCurrentDataKeepsStep(service: DeviceService, id: string, data: map<string, Value>, now: Stamp)
    returns (resp: Response)
    requires id in service.items && InStep(service.items[id].currentData)
    modifies service
    ensures id in service.items && InStep(service.items[id].currentData)
    ensures Rows(service.items[id].currentData) == Rows(old(service.items[id].currentData)) + [ReadingOf(data, now)]
    ensures forall other :: other in old(service.items) && other != id ==> other in service.items && service.items[other] == old(service.items[other])
  {
    resp := service.AddCurrentData(id, data, now);
    RowsAfterAppend(old(service.items[id].currentData), ReadingOf(data, now));
  }

  /** A schedule append keeps the three lists of a document in step and adds
      exactly one slot to its row view. */
  method AddScheduleKeepsStep(service: DeviceService, id: string, data: map<string, Value>)
    returns (resp: Response)
    requires id in service.items && ScheduleInStep(service.items[id].schedule)
    requires HasScheduleKeys(data)
    modifies service
    ensures id in service.items && ScheduleInStep(service.items[id].schedule)
    ensures Slots(service.items[id].schedule) == Slots(old(service.items[id].schedule)) + [Slot(data["day"], data["timeOn"], data["timeOff"])]
  {
    resp := service.AddSchedule(id, data);
    SlotsAfterAppend(old(service.items[id].schedule), Slot(data["day"], data["timeOn"], data["timeOff"]));
  }
}
