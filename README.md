# Device-record service, modelled in Dafny

This project models the request handlers of the GreenPeak trigger API
(`TriggerAPI/server.py`). The service keeps one document per IoT device in the
`IoTDevices` collection of a hosted document store. It lists, reads, creates and
deletes documents, toggles the `onStatus` and `abnormalStatus` flags, and
appends telemetry samples and schedule slots to parallel lists inside a
document.

The model holds the collection as `items: map<string, Record>`, a field of the
class `Server.DeviceService`. Each handler is a method that reads and reassigns
that map in one atomic step and returns the JSON body as a `Response` value.
The computations behind the writes are pure functions in module `Records`:
the defaults a create body gets, and the lockstep appends to the lists.

- `wrappers.dfy`: `Option`.
- `records.dfy` (module `Records`): the document types and JSON scalars
  (`Value`), the defaults of a created document, the appends, and a "row view"
  of the parallel lists (`Rows`, `Slots`). The row view reads the i-th entry of
  every list as one sample. The lemmas say that a lockstep append adds exactly
  one row and that a log built by appends reads back as the samples appended.
- `server.dfy` (module `Server`): the `Response` bodies, the loop that fills
  missing measurements, the `DeviceService` class with one method per handler,
  and client methods that state properties across calls: a double toggle
  restores the store, and an append keeps the lists in step.

A list inside `currentData` or `schedule` is a `Column`, which is
`Option<seq<Value>>`. `None` stands for a key that is absent from the stored
object, because the handlers read the lists with `.get(key, [])`. A document
stored without `currentData` or `schedule` behaves like one whose lists are
all absent (`Records.NoCurrentData`, `Records.NoSchedule`).

The clock is a parameter. Handlers that stamp a sample take a `Stamp` of
already formatted `HH:MM` and `DD/MM/YYYY` strings. The defaults of
`IotItem.currentData` are evaluated once, when the class is defined (lines
26-28). So every create that omits `currentData` gets the same stamp, the
service's `classStamp` constant: the stamp comes from the time the class
was defined, not the time of the request.

## Model

| member | source | states |
|---|---|---|
| `Records.DefaultCurrentData` | TriggerAPI/server.py:26-32 | the default telemetry lists are in step and read as exactly one sample: the given time and date with null voltage, current and power |
| `Records.DefaultSchedule` | TriggerAPI/server.py:33-37 | the default schedule lists are in step and read as exactly one slot whose day, timeOn and timeOff are all null |
| `Records.Document` | TriggerAPI/server.py:20-37 | the stored document copies name, description, onStatus and location from the body; abnormalStatus is true only when the body says true; a supplied currentData or schedule is stored as sent; an omitted currentData becomes in-step lists reading as the single sample (class stamp time, class stamp date, null, null, null), and an omitted schedule becomes in-step lists reading as the single slot (null, null, null) |
| `Records.OmittedFieldsGetDefaults` | TriggerAPI/server.py:20-37 | a body that omits every optional field is stored with a null description, abnormalStatus false, one stamped sample whose three measurements are null, and one all-null schedule slot |
| `Records.AppendReading` | TriggerAPI/server.py:123-129 | each of the five telemetry lists, an absent one read as empty, is present afterwards, keeps all old entries as its prefix and grows by exactly the sample's entry; the lists are in step afterwards exactly when they were before |
| `Records.AppendSlot` | TriggerAPI/server.py:145-149 | each of the three schedule lists keeps all old entries and grows by exactly the slot's entry; the lists are in step afterwards exactly when they were before |
| `Records.RowsAfterAppend` | TriggerAPI/server.py:123-129 | on in-step lists, the five-list append is appending one sample to the row view: the new rows are the old rows followed by the sample |
| `Records.SlotsAfterAppend` | TriggerAPI/server.py:145-149 | on in-step lists, the three-list append is appending one slot to the row view |
| `Records.AppendToMissingCurrentData` | TriggerAPI/server.py:117-129 | appending to a document with no currentData (the `.get("currentData", {})` case) leaves in-step lists reading as exactly the one sample appended |
| `Records.AppendToMissingSchedule` | TriggerAPI/server.py:142-149 | appending to a document with no schedule leaves in-step lists reading as exactly the one slot appended |
| `Records.FromRows` | TriggerAPI/server.py:123-129 | appending samples one at a time to empty lists always leaves all five lists present, in step, and as long as the number of samples |
| `Records.RowsOfFromRows` | TriggerAPI/server.py:123-129 | lockstep appends lose and reorder nothing: the log built by successive appends reads back, row by row, as exactly the samples appended |
| `Server.FillMissingMeasurements` | TriggerAPI/server.py:119-121 | the filled body has the body's keys plus voltage, current and power; every key the body had keeps its value and every added key holds null |
| `Server.ReadingOf` | TriggerAPI/server.py:113-128 | the sample a telemetry body yields carries the server's time and date stamp, and for each of voltage, current and power the body's value when the key is present and null when it is missing |
| `Server.ReadingIgnoresOtherKeys` | TriggerAPI/server.py:113-128 | changing a key other than voltage, current and power in a telemetry body (a client-sent time or date included) does not change the sample appended |
| `Server.HasScheduleKeys` | TriggerAPI/server.py:144 | the schedule check passes exactly when day, timeOn and timeOff are all keys of the body |
| `Server.DeviceService.ReadItems` | TriggerAPI/server.py:44-50 | the listing holds one record per stored id, each id exactly once, each entry the record stored under its id, in the order the store yields |
| `Server.DeviceService.ReadItem` | TriggerAPI/server.py:52-59 | a present id returns its stored document; an absent id returns "Item not found" |
| `Server.DeviceService.CreateItem` | TriggerAPI/server.py:61-73 | exactly one id, the fresh one, is added; it holds the body with defaults applied; every other document is unchanged; the reply is "Item created" |
| `Server.DeviceService.NegateOnStatus` | TriggerAPI/server.py:75-85 | on a present id only that document's onStatus is negated and the reply is "Item updated"; on an absent id the store is unchanged and the reply is "Item not found" |
| `Server.DeviceService.NegateAbnormalStatus` | TriggerAPI/server.py:87-97 | on a present id only that document's abnormalStatus is negated and the reply is "Item updated"; on an absent id the store is unchanged and the reply is "Item not found" |
| `Server.DeviceService.DeleteItem` | TriggerAPI/server.py:99-107 | on a present id exactly that id is removed and the reply is "Item deleted"; on an absent id the store is unchanged and the reply is "Item not found" |
| `Server.DeviceService.AddCurrentData` | TriggerAPI/server.py:109-134 | on a present id only that document's currentData changes, by appending the sample stamped with the server clock (missing measurements null), and the reply carries the currentData as it was before; on an absent id the store is unchanged and the reply is "Item not found" |
| `Server.DeviceService.AddSchedule` | TriggerAPI/server.py:137-156 | an absent id gives "Item not found" whatever the body; a present id with a body missing day, timeOn or timeOff gives "Missing required keys in data"; both leave the store unchanged; otherwise only that document's schedule grows by one slot and the reply carries the updated schedule |
| `Server.NegateOnStatusTwice` | TriggerAPI/server.py:75-85 | two onStatus toggles of the same id with no write between leave the whole store as it was, for a present or an absent id |
| `Server.NegateAbnormalStatusTwice` | TriggerAPI/server.py:87-97 | two abnormalStatus toggles of the same id leave the whole store as it was |
| `Server.AddCurrentDataKeepsStep` | TriggerAPI/server.py:109-134 | a telemetry append to a document whose lists are in step keeps them in step, adds exactly the stamped sample to its row view, and leaves every other document unchanged |
| `Server.AddScheduleKeepsStep` | TriggerAPI/server.py:137-156 | a schedule append with all three keys to a document whose lists are in step keeps them in step and adds exactly the slot to its row view |

## Left out

- HTTP routing, the `read_root` greeting, JSON encoding and pydantic's type coercion and validation of request bodies (lines 1-7, 40-42): framework plumbing. A create body is already the typed `IotItem`.
- Loading the Firebase credentials and creating the client (lines 10-16) and starting uvicorn (lines 160-161): I/O. The collection is the `items` map.
- `datetime.now()` and `strftime` (lines 27-28, 113-114): the formatted time and date are parameters, treated as opaque strings.
- Server.DeviceService.CreateItem: the id comes from the store's generator, so the model takes it as a parameter and requires it to be unused. The model relies on the generator for freshness and does not model how ids are made.
- Server.DeviceService.ReadItems: the store decides the order of the listing. The model picks any order and states only that each stored id appears exactly once.
- Concurrency: handlers run as one atomic step each. The read-then-write races between concurrent toggles or appends (lost updates) are not modelled.
- Store and transport failures: they propagate as unhandled faults and are not modelled.
- JSON values are scalars (`Value`: null, boolean, number, string). Nested lists or objects sent as a list entry or a body value are not modelled.
- Server.DeviceService.AddCurrentData and Server.DeviceService.AddSchedule: the crash on a malformed stored list is not modelled. Create stores a client-sent `currentData` or `schedule` object as sent (lines 70-71). If one of its list keys holds null, a string or a number (say `{"time": null}` or `{"day": "Mon"}`), the next append fails with a type error at `+ [..]` (lines 124-128, 146-148). The model's `Column` is either absent or a list, so such a document cannot be stated and the error path is not captured.
- Extra keys inside a client-sent `currentData` or `schedule` object are not modelled. The real service stores them on create and drops them on the next append, which rewrites the whole object.
- Documents are assumed to carry all seven top-level fields, as `create_item` writes them. A document missing `onStatus` or `abnormalStatus` makes the real toggle raise a key error, which is not modelled.
