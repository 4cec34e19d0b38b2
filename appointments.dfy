/** The appointment record of the in-memory table in server.js, the request
    bodies its handlers read, and the functions that specify what the
    handlers do to the table. */
module Appointments {
  import opened Wrappers

  /** The first id the table hands out (`let nextId = 1`). */
  const FIRST_ID: int := 1
  /** Defaults filled in by the create handler. */
  const DEFAULT_REASON: string := "General consultation"
  const DEFAULT_DOCTOR: string := "Dr. Smith"
  const INITIAL_STATUS: string := "scheduled"

  /** A stored appointment. The timestamps are opaque strings supplied by the
      caller; `updatedAt` is absent until the record is first updated. */
  datatype Appointment = Appointment(
    id: int,
    patientName: string,
    date: string,
    time: string,
    reason: string,
    doctor: string,
    status: string,
    createdAt: string,
    updatedAt: Option<string>)

  /** The fields the create handler reads from the request body. */
  datatype CreateBody = CreateBody(
    patientName: Option<string>,
    date: Option<string>,
    time: Option<string>,
    reason: Option<string>,
    doctor: Option<string>)

  /** The fields the update handler reads from the request body. */
  datatype UpdateBody = UpdateBody(
    patientName: Option<string>,
    date: Option<string>,
    time: Option<string>,
    reason: Option<string>,
    doctor: Option<string>,
    status: Option<string>)

  /** What a handler answers, in place of the HTTP status and JSON envelope:
      `Ok` is 200/201 with the record, `MissingFields` is 400, `NotFound` is 404. */
  datatype Outcome = Ok(appointment: Appointment) | MissingFields | NotFound

  /** JavaScript truthiness of a string-valued body field: absent and "" are falsy. */
  predicate Truthy(v: Option<string>)
  {
    v.Some? && v.value != ""
  }

  /** JavaScript `v || fallback` for a string-valued body field. */
  function OrElse(v: Option<string>, fallback: string): (r: string)
  {
    if Truthy(v) then v.value else fallback
  }

  /** The create handler's validation: `patientName`, `date` and `time` must be truthy. */
  predicate HasRequiredFields(b: CreateBody)
  {
    Truthy(b.patientName) && Truthy(b.date) && Truthy(b.time)
  }

  /** None of `patientName`, `date`, `time`, `reason`, `doctor` or `status`
      is empty; the timestamps are not constrained. */
  predicate WellFormed(a: Appointment)
  {
    a.patientName != "" && a.date != "" && a.time != "" &&
    a.reason != "" && a.doctor != "" && a.status != ""
  }

  /** Ids strictly increase in table order. */
  predicate IdsIncreasing(s: seq<Appointment>)
  {
    forall i, j :: 0 <= i < j < |s| ==> s[i].id < s[j].id
  }

  /** Every id in the table is below `n`. */
  predicate IdsBelow(s: seq<Appointment>, n: int)
  {
    forall i :: 0 <= i < |s| ==> s[i].id < n
  }

  /** The record the create handler builds for a validated body. */
  function NewAppointment(id: int, b: CreateBody, now: string): (a: Appointment)
    requires HasRequiredFields(b)
  {
    Appointment(id, b.patientName.value, b.date.value, b.time.value,
                OrElse(b.reason, DEFAULT_REASON), OrElse(b.doctor, DEFAULT_DOCTOR),
                INITIAL_STATUS, now, None)
  }

  /** The record after the update handler's field-by-field overwrite. */
  function Patch(a: Appointment, b: UpdateBody, now: string): (p: Appointment)
  {
    a.(patientName := OrElse(b.patientName, a.patientName),
       date := OrElse(b.date, a.date),
       time := OrElse(b.time, a.time),
       reason := OrElse(b.reason, a.reason),
       doctor := OrElse(b.doctor, a.doctor),
       status := OrElse(b.status, a.status),
       updatedAt := Some(now))
  }

  /** The position of the first record with the given id, as `findIndex` finds it. */
  function IndexOf(s: seq<Appointment>, id: int): (r: Option<nat>)
    ensures r.Some? ==> r.value < |s| && s[r.value].id == id
    ensures r.Some? ==> forall j :: 0 <= j < r.value ==> s[j].id != id
    ensures r.None? <==> forall j :: 0 <= j < |s| ==> s[j].id != id
    decreases |s|
  {
    if |s| == 0 then None
    else if s[0].id == id then Some(0)
    else match IndexOf(s[1..], id)
      case None => None
      case Some(k) => Some(k + 1)
  }

  /** What a lookup by a parsed path id answers; an id that did not parse
      (`NaN`) matches no record. */
  function Lookup(s: seq<Appointment>, id: Option<int>): (r: Outcome)
    ensures !r.MissingFields?
    ensures r.Ok? <==> id.Some? && exists j :: 0 <= j < |s| && s[j].id == id.value
    ensures r.Ok? ==> r.appointment in s && r.appointment.id == id.value
  {
    if id.None? then NotFound
    else match IndexOf(s, id.value)
      case None => NotFound
      case Some(k) => Ok(s[k])
  }

  /** The table after `splice(k, 1)`. */
  function RemoveAt(s: seq<Appointment>, k: nat): (r: seq<Appointment>)
    requires k < |s|
    ensures |r| == |s| - 1
    ensures forall j :: 0 <= j < k ==> r[j] == s[j]
    ensures forall j :: k <= j < |r| ==> r[j] == s[j + 1]
  {
    s[..k] + s[k + 1..]
  }

  /** Linear search for the first record with id `id`; -1 when there is none. */
  method FindIndex(s: seq<Appointment>, id: int) returns (k: int)
    ensures -1 <= k < |s|
    ensures k == match IndexOf(s, id) case Some(i) => i case None => -1
  {
    k := 0;
    while k < |s|
      invariant 0 <= k <= |s|
      invariant forall j :: 0 <= j < k ==> s[j].id != id
    {
      if s[k].id == id {
        return;
      }
      k := k + 1;
    }
    k := -1;
  }

  /** Increasing ids are pairwise distinct. */
  lemma IncreasingIdsAreDistinct(s: seq<Appointment>, i: nat, j: nat)
    requires IdsIncreasing(s)
    requires i < |s| && j < |s| && i != j
    ensures s[i].id != s[j].id
  {
  }

  /** A created record carries the given id, the supplied required fields,
      the defaults for falsy `reason` and `doctor`, status "scheduled", and
      none of its six text fields empty. */
  lemma CreatedRecord(id: int, b: CreateBody, now: string)
    requires HasRequiredFields(b)
    ensures var a := NewAppointment(id, b, now);
      a.id == id && a.status == INITIAL_STATUS &&
      a.patientName == b.patientName.value && a.date == b.date.value && a.time == b.time.value &&
      (Truthy(b.reason) ==> a.reason == b.reason.value) &&
      (!Truthy(b.reason) ==> a.reason == DEFAULT_REASON) &&
      (Truthy(b.doctor) ==> a.doctor == b.doctor.value) &&
      (!Truthy(b.doctor) ==> a.doctor == DEFAULT_DOCTOR) &&
      a.createdAt == now && a.updatedAt == None &&
      WellFormed(a)
  {
  }

  /** Appending a record whose id is the counter keeps ids increasing and
      below the incremented counter. */
  lemma AppendKeepsIdsIncreasing(s: seq<Appointment>, n: int, a: Appointment)
    requires IdsIncreasing(s) && IdsBelow(s, n)
    requires a.id == n
    ensures IdsIncreasing(s + [a]) && IdsBelow(s + [a], n + 1)
  {
  }

  /** Removing one record keeps ids increasing and below the counter. */
  lemma RemoveKeepsIdsIncreasing(s: seq<Appointment>, k: nat, n: int)
    requires k < |s|
    requires IdsIncreasing(s) && IdsBelow(s, n)
    ensures IdsIncreasing(RemoveAt(s, k)) && IdsBelow(RemoveAt(s, k), n)
  {
  }

  /** `splice(k, 1)` takes out exactly the record at `k`: the rest keep their
      relative order, and the table's records are the remaining ones plus it. */
  lemma RemoveAtIsExact(s: seq<Appointment>, k: nat)
    requires k < |s|
    ensures s == RemoveAt(s, k)[..k] + [s[k]] + RemoveAt(s, k)[k..]
    ensures multiset(s) == multiset(RemoveAt(s, k)) + multiset{s[k]}
  {
  }

  /** In a table with increasing ids, a lookup by id answers a record exactly
      when that record is in the table and has that id. */
  lemma LookupById(s: seq<Appointment>, id: int, a: Appointment)
    requires IdsIncreasing(s)
    ensures Lookup(s, Some(id)) == Ok(a) <==> a in s && a.id == id
  {
  }

  /** A record appended with the counter as id is found by that id. */
  lemma CreateThenLookup(s: seq<Appointment>, n: int, b: CreateBody, now: string)
    requires IdsBelow(s, n)
    requires HasRequiredFields(b)
    ensures Lookup(s + [NewAppointment(n, b, now)], Some(n)) == Ok(NewAppointment(n, b, now))
  {
    var t := s + [NewAppointment(n, b, now)];
    assert t[|s|].id == n;
    forall j | 0 <= j < |s| ensures t[j].id != n {
      assert t[j] == s[j];
    }
  }

  /** After a record is removed from a table with increasing ids, its id is
      no longer found. */
  lemma DeleteThenLookup(s: seq<Appointment>, k: nat)
    requires IdsIncreasing(s)
    requires k < |s|
    ensures Lookup(RemoveAt(s, k), Some(s[k].id)) == NotFound
  {
  }

  /** The update overwrites exactly the supplied truthy fields, keeps `id` and
      `createdAt`, and stamps `updatedAt`. */
  lemma PatchTouchesOnlySupplied(a: Appointment, b: UpdateBody, now: string)
    ensures var p := Patch(a, b, now);
      p.id == a.id && p.createdAt == a.createdAt && p.updatedAt == Some(now) &&
      (Truthy(b.patientName) ==> p.patientName == b.patientName.value) &&
      (!Truthy(b.patientName) ==> p.patientName == a.patientName) &&
      (Truthy(b.date) ==> p.date == b.date.value) &&
      (!Truthy(b.date) ==> p.date == a.date) &&
      (Truthy(b.time) ==> p.time == b.time.value) &&
      (!Truthy(b.time) ==> p.time == a.time) &&
      (Truthy(b.reason) ==> p.reason == b.reason.value) &&
      (!Truthy(b.reason) ==> p.reason == a.reason) &&
      (Truthy(b.doctor) ==> p.doctor == b.doctor.value) &&
      (!Truthy(b.doctor) ==> p.doctor == a.doctor) &&
      (Truthy(b.status) ==> p.status == b.status.value) &&
      (!Truthy(b.status) ==> p.status == a.status)
  {
  }

  /** An update with no truthy field only stamps `updatedAt`. */
  lemma EmptyPatchOnlyStamps(a: Appointment, b: UpdateBody, now: string)
    requires !Truthy(b.patientName) && !Truthy(b.date) && !Truthy(b.time)
    requires !Truthy(b.reason) && !Truthy(b.doctor) && !Truthy(b.status)
    ensures Patch(a, b, now) == a.(updatedAt := Some(now))
  {
  }

  /** Applying the same update twice is the same as applying it once. */
  lemma PatchIdempotent(a: Appointment, b: UpdateBody, now: string)
    ensures Patch(Patch(a, b, now), b, now) == Patch(a, b, now)
  {
  }

  /** An update never empties a field of a well-formed record. */
  lemma PatchKeepsWellFormed(a: Appointment, b: UpdateBody, now: string)
    requires WellFormed(a)
    ensures WellFormed(Patch(a, b, now))
  {
  }

  /** Updating a record in place leaves every id in the table as it was, so
      the ids stay increasing and below the counter. */
  lemma PatchKeepsIdsIncreasing(s: seq<Appointment>, k: nat, b: UpdateBody, now: string, n: int)
    requires k < |s|
    requires IdsIncreasing(s) && IdsBelow(s, n)
    ensures forall i :: 0 <= i < |s| ==> s[k := Patch(s[k], b, now)][i].id == s[i].id
    ensures IdsIncreasing(s[k := Patch(s[k], b, now)]) && IdsBelow(s[k := Patch(s[k], b, now)], n)
  {
  }
}
