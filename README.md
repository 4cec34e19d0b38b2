# AppointmentCareApp appointment table, in Dafny

This project models the in-memory appointment store of AppointmentCareApp's
`server.js`: a module-level array of appointment records and a `nextId`
counter, and the four route handlers that read and change them.

- `GET /api/appointments/:id` looks a record up by id.
- `POST /api/appointments` validates `patientName`, `date` and `time`, assigns
  the counter as the new id, fills in the defaults and appends the record.
- `PUT /api/appointments/:id` overwrites, in place, only the fields the body
  supplies with a truthy value, and stamps `updatedAt`.
- `DELETE /api/appointments/:id` splices the record out of the array.

Files:

- `wrappers.dfy`: module `Wrappers`, the `Option` type.
- `appointments.dfy`: module `Appointments`. It holds the record and request-body
  datatypes and JavaScript truthiness (`Truthy`, `OrElse` for `||`). It also
  holds the functions that specify the handlers (`NewAppointment`, `Patch`,
  `IndexOf`, `Lookup`, `RemoveAt`), the `findIndex` loop (`FindIndex`) and the
  lemmas about them.
- `store.dfy`: module `AppointmentStore`, class `AppointmentTable`. Its fields
  are `appointments: seq<Appointment>` and `nextId: int`. Its invariant `Valid()`
  states five things: `nextId` is at least 1, every id is at least 1, ids
  strictly increase in table order, every id is below `nextId`, and no stored
  record has an empty `patientName`, `date`, `time`, `reason`, `doctor` or
  `status` (the timestamps are not constrained). The
  handlers are methods that keep `Valid()`. Each method's `ensures` ties the
  new table and counter to the old ones through the functions above.

A handler's answer is an `Outcome` rather than an HTTP response: `Ok(record)`
stands for 200/201, `MissingFields` for 400 and `NotFound` for 404. Body fields
are `Option<string>`. Both `None` and `Some("")` are falsy, because the source
tests truthiness and not presence. A path id is the result of `parseInt` as
`Option<int>`, with `None` for `NaN`; `NaN` equals no stored id, so it always
answers `NotFound`. The wall-clock timestamps are an opaque `now: string`
argument. Create stores it as `createdAt`. Update always stores it as
`updatedAt`, even when no other field changes.

`server.js` has no doctor-conflict rule, no status enum and no date or id
validators; `status` is a free string on update, and the model has none of
these either.

## Model

| member | source | states |
|---|---|---|
| `Appointments.IndexOf` | server.js:106 | The result is the first position whose record has the requested id; it is absent exactly when no record has that id. |
| `Appointments.FindIndex` | server.js:106-108 | The linear search returns that first position, or -1 exactly when no record has the id. |
| `Appointments.Lookup` | server.js:55-63 | A lookup answers `Ok` exactly when the id parsed and some record has it, and the record it answers is in the table with that id; otherwise `NotFound`. |
| `Appointments.RemoveAt` | server.js:146 | `splice(k, 1)` gives one record fewer: the records before `k` stay where they were, and those after `k` each move down one place. |
| `Appointments.RemoveAtIsExact` | server.js:146 | The old table is the new table with the removed record put back at `k`, so exactly one record is gone (multiset equality). |
| `Appointments.IncreasingIdsAreDistinct` | server.js:84 | Ids that strictly increase in table order are pairwise distinct. |
| `Appointments.CreatedRecord` | server.js:83-92 | A created record has the counter's id, the supplied `patientName`, `date` and `time`, `reason` "General consultation" and `doctor` "Dr. Smith" when those are falsy (otherwise the supplied values), status "scheduled", and none of its six text fields empty. |
| `Appointments.AppendKeepsIdsIncreasing` | server.js:84-94 | Appending a record whose id is the counter keeps ids increasing and below the incremented counter. |
| `Appointments.RemoveKeepsIdsIncreasing` | server.js:146 | Removing a record keeps ids increasing and below the counter. |
| `Appointments.PatchKeepsIdsIncreasing` | server.js:116-125 | Updating a record in place leaves every id in the table as it was, so ids stay increasing and below the counter. |
| `Appointments.LookupById` | server.js:56 | In a table with increasing ids, lookup by id answers a record exactly when that record is in the table with that id. |
| `Appointments.CreateThenLookup` | server.js:83-94 | A record appended with the counter as id is then found by that id, with every field as created. |
| `Appointments.DeleteThenLookup` | server.js:137-146 | After its record is removed, an id is no longer found. |
| `Appointments.PatchTouchesOnlySupplied` | server.js:118-125 | An update sets each of `patientName`, `date`, `time`, `reason`, `doctor` and `status` to the supplied value when it is truthy and otherwise keeps the old value; `id` and `createdAt` are unchanged and `updatedAt` is stamped. |
| `Appointments.EmptyPatchOnlyStamps` | server.js:118-125 | An update body with no truthy field changes nothing but `updatedAt`. |
| `Appointments.PatchIdempotent` | server.js:119-124 | Applying the same update twice gives the same record as applying it once. |
| `Appointments.PatchKeepsWellFormed` | server.js:119-124 | An update never empties `patientName`, `date`, `time`, `reason`, `doctor` or `status` of a record in which none of them is empty. |
| `AppointmentStore.AppointmentTable.constructor` | server.js:6-7 | The table starts empty with the counter at 1, and the invariant holds. |
| `AppointmentStore.AppointmentTable.Get` | server.js:54-69 | The handler answers the lookup of the id in the current table: the stored record with that id, or `NotFound` when the id did not parse or no record has it. It changes nothing. |
| `AppointmentStore.AppointmentTable.Create` | server.js:72-101 | It rejects the body exactly when `patientName`, `date` or `time` is falsy, and then leaves the table and counter unchanged. Otherwise it appends the new record with id = old counter, increments the counter by one and returns the record that is now last. The invariant is kept. |
| `AppointmentStore.AppointmentTable.Update` | server.js:104-132 | It answers `NotFound` exactly when the lookup would, and then the table is unchanged. Otherwise only the found record is replaced, by its patched version, which is returned. The counter and the invariant are kept. |
| `AppointmentStore.AppointmentTable.Delete` | server.js:135-153 | It returns what the lookup would have answered. When that is `NotFound` the table is unchanged. Otherwise the table is the old one with exactly that record removed, in order. The counter is not decreased, so ids are never reused. |

## Left out

- `GET /api/appointments` (server.js:44-51) lists the whole table. It is outside the modelled handlers and has no logic.
- Express setup, body parsing, request logging, the catch-all 404 and the error middleware (server.js:1-17, 155-171) are framework wiring.
- The root and health endpoints (server.js:19-42) answer static JSON, `process.uptime()` and a clock read.
- `app.listen` (server.js:174-177) is network I/O.
- config.example.js is a constant credentials object with no behaviour.
- `createdAt`/`updatedAt` come from the wall clock. Here they are an opaque `now` argument.
- The JSON envelope and message strings are reduced to `Outcome`.
- How `parseInt` turns the path segment into a number is not modelled. The handlers take its result as `Option<int>`.
- Body fields that are JSON numbers, booleans or objects are not modelled. Body fields are strings or absent, so truthiness is "present and non-empty".
- `nextId` is a JavaScript number, which loses integer precision above 2^53. The model's counter is an unbounded `int`.
- Aliasing is not modelled. The source returns the stored object itself and mutates it in place; records here are values, and the table holds the updated copy.
