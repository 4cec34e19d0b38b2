/** The module-level appointment table of server.js and its four handlers,
    each mutating the table in place as the source does. */
module AppointmentStore {
  import opened Wrappers
  import opened Appointments

  class AppointmentTable {
    /** The `appointments` array, in insertion order. */
    var appointments: seq<Appointment>
    /** The `nextId` counter. */
    var nextId: int

    /** The table's invariant: the counter and every id are at least the first id, ids are strictly
        increasing in table order, below the counter, and no stored record
        has an empty `patientName`, `date`, `time`, `reason`, `doctor` or
        `status`. */
    ghost predicate Valid()
      reads this
    {
      FIRST_ID <= nextId &&
      IdsIncreasing(appointments) &&
      IdsBelow(appointments, nextId) &&
      forall i :: 0 <= i < |appointments| ==> FIRST_ID <= appointments[i].id && WellFormed(appointments[i])
    }

    /** The table at start-up: empty, with the counter at the first id. */
    constructor ()
      ensures Valid()
      ensures appointments == [] && nextId == FIRST_ID
    {
      appointments := [];
      nextId := FIRST_ID;
    }

    /** GET /api/appointments/:id. */
    method Get(id: Option<int>) returns (r: Outcome)
      ensures r == Lookup(appointments, id)
      ensures r.Ok? ==> r.appointment in appointments && r.appointment.id == id.value
      ensures r.NotFound? <==> id.None? || forall j :: 0 <= j < |appointments| ==> appointments[j].id != id.value
    {
      if id.None? {
        return NotFound;
      }
      var k := FindIndex(appointments, id.value);
      if k == -1 {
        r := NotFound;
      } else {
        r := Ok(appointments[k]);
      }
    }

    /** POST /api/appointments. */
    method Create(body: CreateBody, now: string) returns (r: Outcome)
      requires Valid()
      modifies this
      ensures Valid()
      ensures r.MissingFields? <==> !HasRequiredFields(body)
      ensures r.MissingFields? ==> appointments == old(appointments) && nextId == old(nextId)
      ensures !r.MissingFields? ==>
        r == Ok(NewAppointment(old(nextId), body, now)) &&
        nextId == old(nextId) + 1 &&
        appointments == old(appointments) + [r.appointment]
      ensures !r.NotFound?
    {
      if !Truthy(body.patientName) || !Truthy(body.date) || !Truthy(body.time) {
        return MissingFields;
      }
      var a := NewAppointment(nextId, body, now);
      CreatedRecord(nextId, body, now);
      AppendKeepsIdsIncreasing(appointments, nextId, a);
      nextId := nextId + 1;
      appointments := appointments + [a];
      r := Ok(a);
    }

    /** PUT /api/appointments/:id. */
    method Update(id: Option<int>, body: UpdateBody, now: string) returns (r: Outcome)
      requires Valid()
      modifies this
      ensures Valid()
      ensures nextId == old(nextId)
      ensures r.NotFound? <==> Lookup(old(appointments), id).NotFound?
      ensures r.NotFound? ==> appointments == old(appointments)
      ensures r.Ok? ==>
        var k := IndexOf(old(appointments), id.value).value;
        appointments == old(appointments)[k := Patch(old(appointments)[k], body, now)] &&
        r == Ok(appointments[k])
      ensures !r.MissingFields?
    {
      if id.None? {
        return NotFound;
      }
      var k := FindIndex(appointments, id.value);
      if k == -1 {
        return NotFound;
      }
      var a := appointments[k];
      if Truthy(body.patientName) { a := a.(patientName := body.patientName.value); }
      if Truthy(body.date) { a := a.(date := body.date.value); }
      if Truthy(body.time) { a := a.(time := body.time.value); }
      if Truthy(body.reason) { a := a.(reason := body.reason.value); }
      if Truthy(body.doctor) { a := a.(doctor := body.doctor.value); }
      if Truthy(body.status) { a := a.(status := body.status.value); }
      a := a.(updatedAt := Some(now));
      assert a == Patch(appointments[k], body, now);
      PatchKeepsWellFormed(appointments[k], body, now);
      PatchKeepsIdsIncreasing(appointments, k, body, now, nextId);
      appointments := appointments[k := a];
      r := Ok(a);
    }

    /** DELETE /api/appointments/:id. */
    method Delete(id: Option<int>) returns (r: Outcome)
      requires Valid()
      modifies this
      ensures Valid()
      ensures nextId == old(nextId)
      ensures r == Lookup(old(appointments), id)
      ensures r.NotFound? ==> appointments == old(appointments)
      ensures r.Ok? ==> appointments == RemoveAt(old(appointments), IndexOf(old(appointments), id.value).value)
    {
      if id.None? {
        return NotFound;
      }
      var k := FindIndex(appointments, id.value);
      if k == -1 {
        return NotFound;
      }
      r := Ok(appointments[k]);
      RemoveKeepsIdsIncreasing(appointments, k, nextId);
      appointments := appointments[..k] + appointments[k + 1..];
    }
  }
}
