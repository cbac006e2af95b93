/**
 * The appointment service: a patient proposes an appointment, stored under
 * `organizaciones/{clinicaId}/doctores/{doctorId}/citas/{id}` with status
 * "pending"; the doctor accepts, rejects or reschedules it; both sides list
 * their appointments by `createdAt`, largest first. Two variants of the doctor operations
 * exist: one given the clinic, and one ("Auto") that looks the clinic up by
 * a linear search over organizations.
 */
module Appointments {
  import opened Json
  import opened Store
  import opened Directory

  const CREATE_FAILED := Err(NoCode, "Error al crear cita.")
  const LIST_FAILED := Err(NoCode, "Error al obtener citas.")
  const UPDATE_FAILED := Err(NoCode, "Error al actualizar cita.")
  const NO_CLINIC := Err(NoCode, "No se encontró la clínica para este doctor")
  const ALTERNATIVE_REQUIRED := Err(NoCode, "alternativeDate y alternativeTime son requeridos")
  const PATIENT_REQUIRED := Err(NoCode, "patientId es requerido")

  /** The collection `organizaciones/{clinicaId}/doctores/{doctorId}/citas`. */
  function AppointmentsRef(clinicaId: Value, doctorId: Value): (r: Result<Path>)
    ensures r.Ok? <==> clinicaId.Str? && ValidSegment(clinicaId.s) && doctorId.Str? && ValidSegment(doctorId.s)
    ensures r.Ok? ==> r.value == [ORGS, clinicaId.s, DOCTORS, doctorId.s, APPOINTMENTS]
  {
    if clinicaId.Str? && ValidSegment(clinicaId.s) && doctorId.Str? && ValidSegment(doctorId.s)
    then Ok([ORGS, clinicaId.s, DOCTORS, doctorId.s, APPOINTMENTS])
    else Fail(Err(NoCode, INVALID_PATH))
  }

  /** One appointment document in that collection. */
  function AppointmentRef(clinicaId: Value, doctorId: Value, id: Value): (r: Result<Path>)
    ensures r.Ok? <==> AppointmentsRef(clinicaId, doctorId).Ok? && id.Str? && ValidSegment(id.s)
    ensures r.Ok? ==> r.value == AppointmentsRef(clinicaId, doctorId).value + [id.s] && ValidDocPath(r.value)
  {
    match AppointmentsRef(clinicaId, doctorId)
    case Fail(e) => Fail(e)
    case Ok(coll) =>
      if id.Str? && ValidSegment(id.s) then
        assert ValidSegment(ORGS) && ValidSegment(DOCTORS) && ValidSegment(APPOINTMENTS);
        Ok(coll + [id.s])
      else Fail(Err(NoCode, INVALID_PATH))
  }

  /** The fields `createAppointment` always sets, whatever the caller sent. */
  function Forced(now: int): Doc {
    map["status" := Str("pending"), "createdAt" := Time(now), "updatedAt" := Time(now),
        "doctorResponse" := Str(""), "alternativeDate" := Str(""), "alternativeTime" := Str("")]
  }

  /** The document a new appointment is stored as: every field the caller
      sent, except that the forced fields win. */
  function NewAppointment(data: Doc, now: int): (r: Doc)
    ensures r.Keys == data.Keys + Forced(now).Keys
    ensures forall k :: k in data && k !in Forced(now) ==> r[k] == data[k]
    ensures r["status"] == Str("pending") && r["createdAt"] == Time(now) && r["updatedAt"] == Time(now)
    ensures r["doctorResponse"] == Str("") && r["alternativeDate"] == Str("") && r["alternativeTime"] == Str("")
  {
    data + Forced(now)
  }

  /** The four fields `createAppointment` insists on. */
  predicate Requested(data: Doc) {
    && Truthy(At(data, "clinicaId")) && Truthy(At(data, "doctorId"))
    && Truthy(At(data, "requestedDate")) && Truthy(At(data, "requestedTime"))
  }

  /** `status != "all"` selects the appointments in that status. */
  predicate StatusMatches(x: Snap, status: Value) {
    status == Str("all") || At(x.data, "status") == status
  }

  /** The status filter and the `orderBy("createdAt", "desc")` both listings
      apply to the documents their query reaches. */
  function Listing(s: seq<Snap>, status: Value): (r: seq<Snap>)
    ensures forall x :: x in r <==> x in s && StatusMatches(x, status) && HasField(x, "createdAt")
    ensures AllHaveField(r, "createdAt") && SortedDesc(r, "createdAt")
  {
    var filtered := if status == Str("all") then s else Where(s, "status", status);
    OrderByDesc(filtered, "createdAt")
  }

  /** The appointments stored in collection `coll`, filtered and ordered. */
  function DoctorAppointments(db: Db, coll: Path, status: Value): (r: seq<Snap>)
    reads db
    requires db.Valid()
    ensures forall x :: x in r <==>
      x.path in db.docs && x.data == db.docs[x.path] && InCollection(x.path, coll)
      && StatusMatches(x, status) && HasField(x, "createdAt")
    ensures SortedDesc(r, "createdAt")
  {
    var s := db.Collection(coll);
    assert forall p :: p in db.docs ==> p in db.order;
    Listing(s, status)
  }

  /** `getAppointmentsByDoctor(clinicaId, doctorId, status = "all")`. */
  function GetAppointmentsByDoctor(db: Db, clinicaId: Value, doctorId: Value, status: Value): (r: Result<seq<Doc>>)
    reads db
    requires db.Valid()
    ensures r.Fail? <==> !Truthy(clinicaId) || !Truthy(doctorId) || AppointmentsRef(clinicaId, doctorId).Fail?
    ensures r.Fail? ==> r.err == LIST_FAILED
    ensures r.Ok? ==> r.value == Rows(DoctorAppointments(db, AppointmentsRef(clinicaId, doctorId).value, Default(status, Str("all"))))
  {
    if !Truthy(clinicaId) || !Truthy(doctorId) then Fail(LIST_FAILED)
    else
      match AppointmentsRef(clinicaId, doctorId)
      case Fail(_) => Fail(LIST_FAILED)
      case Ok(coll) => Ok(Rows(DoctorAppointments(db, coll, Default(status, Str("all")))))
  }

  /** The appointments of one patient across every clinic and doctor: a
      collection-group query over "citas", filtered and ordered. */
  function PatientAppointments(db: Db, patientId: Value, status: Value): (r: Result<seq<Snap>>)
    reads db
    requires db.Valid()
    ensures r.Fail? <==> APPOINTMENTS in db.groupIndexMissing
    ensures r.Fail? ==> r.err == Err(NumCode(9), NEEDS_INDEX)
    ensures r.Ok? ==> forall x :: x in r.value <==>
      x.path in db.docs && x.data == db.docs[x.path] && InGroup(x.path, APPOINTMENTS)
      && At(x.data, "patientId") == patientId && StatusMatches(x, status) && HasField(x, "createdAt")
    ensures r.Ok? ==> SortedDesc(r.value, "createdAt")
  {
    match db.Group(APPOINTMENTS)
    case Fail(e) => Fail(e)
    case Ok(all) =>
      assert forall p :: p in db.docs ==> p in db.order;
      Ok(Listing(Where(all, "patientId", patientId), status))
  }

  /** `getAppointmentsByPatient(patientId, status = "all")`: its errors are
      not rewrapped. */
  function GetAppointmentsByPatient(db: Db, patientId: Value, status: Value): (r: Result<seq<Doc>>)
    reads db
    requires db.Valid()
    ensures !Truthy(patientId) ==> r == Fail(PATIENT_REQUIRED)
    ensures Truthy(patientId) && APPOINTMENTS in db.groupIndexMissing ==> r == Fail(Err(NumCode(9), NEEDS_INDEX))
    ensures r.Ok? <==> Truthy(patientId) && APPOINTMENTS !in db.groupIndexMissing
    ensures r.Ok? ==> r.value == Rows(PatientAppointments(db, patientId, Default(status, Str("all"))).value)
  {
    if !Truthy(patientId) then Fail(PATIENT_REQUIRED)
    else
      match PatientAppointments(db, patientId, Default(status, Str("all")))
      case Fail(e) => Fail(e)
      case Ok(s) => Ok(Rows(s))
  }

  /** `createAppointment(appointmentData)`: every failure, of validation or
      of the store, surfaces as the same generic error and stores nothing. A
      stored appointment is visible to both listings. */
  method CreateAppointment(db: Db, data: Doc, autoId: string, now: int) returns (r: Result<Doc>)
    requires db.Valid() && ValidSegment(autoId)
    modifies db
    ensures db.Valid()
    ensures r.Ok? <==>
      && Requested(data)
      && AppointmentsRef(At(data, "clinicaId"), At(data, "doctorId")).Ok?
      && WriteCheck(db.faults, AppointmentsRef(At(data, "clinicaId"), At(data, "doctorId")).value + [autoId], NewAppointment(data, now)).Ok?
    ensures r.Fail? ==> r.err == CREATE_FAILED && db.docs == old(db.docs) && db.order == old(db.order)
    ensures r.Ok? ==>
      var p := AppointmentsRef(At(data, "clinicaId"), At(data, "doctorId")).value + [autoId];
      && db.docs == old(db.docs)[p := NewAppointment(data, now)]
      && db.order == Grow(old(db.order), p)
      && r.value == WithId(autoId, NewAppointment(data, now))
  {
    if !Requested(data) {
      return Fail(CREATE_FAILED);
    }
    var coll := AppointmentsRef(At(data, "clinicaId"), At(data, "doctorId"));
    if coll.Fail? {
      return Fail(CREATE_FAILED);
    }
    var p := AppointmentRef(At(data, "clinicaId"), At(data, "doctorId"), Str(autoId)).value;
    var stored := NewAppointment(data, now);
    var w := db.Set(p, stored);
    if w.Fail? {
      return Fail(CREATE_FAILED);
    }
    r := Ok(WithId(autoId, stored));
  }

  /** A pending appointment stored under a doctor shows up in that doctor's
      listing and in its patient's listing, filtered by "pending" or not. */
  lemma PendingAppointmentListed(db: Db, clinicaId: string, doctorId: string, id: string, status: Value)
    requires db.Valid()
    requires status == Str("all") || status == Str("pending")
    requires var p := [ORGS, clinicaId, DOCTORS, doctorId, APPOINTMENTS, id];
      p in db.docs && At(db.docs[p], "status") == Str("pending") && At(db.docs[p], "createdAt").Time?
    ensures var p := [ORGS, clinicaId, DOCTORS, doctorId, APPOINTMENTS, id];
      && Snap(p, db.docs[p]) in DoctorAppointments(db, [ORGS, clinicaId, DOCTORS, doctorId, APPOINTMENTS], status)
      && (APPOINTMENTS !in db.groupIndexMissing ==>
            Snap(p, db.docs[p]) in PatientAppointments(db, At(db.docs[p], "patientId"), status).value)
  {
    var p := [ORGS, clinicaId, DOCTORS, doctorId, APPOINTMENTS, id];
    assert InCollection(p, [ORGS, clinicaId, DOCTORS, doctorId, APPOINTMENTS]);
    assert InGroup(p, APPOINTMENTS);
  }

  /** `updates` plus the `updatedAt` stamp every status update adds. */
  function Stamped(updates: Doc, now: int): (r: Doc)
    ensures r.Keys == updates.Keys + {"updatedAt"} && r["updatedAt"] == Time(now)
    ensures forall k :: k in updates && k != "updatedAt" ==> r[k] == updates[k]
  {
    updates + map["updatedAt" := Time(now)]
  }

  function Accepted(notes: Value, now: int): Doc {
    map["status" := Str("accepted"), "doctorResponse" := Default(notes, Str("")), "processedAt" := Time(now)]
  }

  function Rejected(notes: Value, now: int): Doc {
    map["status" := Str("rejected"), "doctorResponse" := Default(notes, Str("")), "processedAt" := Time(now)]
  }

  function Rescheduled(date: Value, time: Value, notes: Value, now: int): Doc {
    map["status" := Str("rescheduled"), "alternativeDate" := date, "alternativeTime" := time,
        "doctorResponse" := Default(notes, Str("")), "processedAt" := Time(now)]
  }

  /** What an accepted or rejected appointment reads after the update. */
  lemma DecidedFields(d: Doc, updates: Doc, notes: Value, now: int)
    requires updates == Accepted(notes, now) || updates == Rejected(notes, now)
    ensures var e := d + Stamped(updates, now);
      && e["status"] == updates["status"] && e["doctorResponse"] == Default(notes, Str(""))
      && e["updatedAt"] == Time(now) && e["processedAt"] == Time(now)
  {
  }

  /** What a rescheduled appointment reads after the update. */
  lemma RescheduledFields(d: Doc, date: Value, time: Value, notes: Value, now: int)
    ensures var e := d + Stamped(Rescheduled(date, time, notes, now), now);
      && e["status"] == Str("rescheduled") && e["alternativeDate"] == date && e["alternativeTime"] == time
      && e["doctorResponse"] == Default(notes, Str(""))
  {
  }

  /** The write a status update attempts can succeed: the appointment
      path is well formed, the appointment exists and the store accepts the
      stamped fields there. */
  ghost predicate Applicable(before: map<Path, Doc>, faults: set<Path>, ref: Result<Path>, updates: Doc, now: int)
  {
    ref.Ok? && ref.value in before && WriteCheck(faults, ref.value, Stamped(updates, now)).Ok?
  }

  /** The appointment at `ref` now holds `updates` (and the update time) over
      its old fields, no other document changed, and `reply` is the new
      document with its id. */
  ghost predicate Applied(before: map<Path, Doc>, after: map<Path, Doc>, ref: Result<Path>, updates: Doc, now: int,
                          id: Value, reply: Doc)
  {
    && ref.Ok? && ref.value in before
    && after == before[ref.value := before[ref.value] + Stamped(updates, now)]
    && id.Str? && reply == WithId(id.s, after[ref.value])
  }

  /** The status and response an accept or reject writes. */
  lemma DecisionReads(updates: Doc, status: string, notes: Value, now: int)
    requires || (updates == Accepted(notes, now) && status == "accepted")
             || (updates == Rejected(notes, now) && status == "rejected")
    ensures "status" in updates && updates["status"] == Str(status)
    ensures "doctorResponse" in updates && updates["doctorResponse"] == Default(notes, Str(""))
  {
  }

  /** After an applied update the reply reads every updated field except
      the update time, which the store stamps itself. */
  lemma AppliedReads(before: map<Path, Doc>, after: map<Path, Doc>, ref: Result<Path>, updates: Doc, now: int,
                     id: Value, reply: Doc, k: string)
    requires Applied(before, after, ref, updates, now, id, reply)
    requires k in updates && k != "updatedAt"
    ensures At(reply, k) == updates[k]
  {
  }

  /** `ref.update({...updates, updatedAt})` then `ref.get()`, the shared
      step of every status update: the named fields change, every other
      field stays, and the current status is not consulted. */
  method ApplyStatus(db: Db, p: Path, updates: Doc, now: int) returns (r: Result<Doc>)
    requires db.Valid() && ValidDocPath(p)
    modifies db
    ensures db.Valid()
    ensures db.order == old(db.order)
    ensures r.Ok? <==> p in old(db.docs) && WriteCheck(db.faults, p, Stamped(updates, now)).Ok?
    ensures r.Fail? ==> db.docs == old(db.docs)
    ensures p !in old(db.docs) && WriteCheck(db.faults, p, Stamped(updates, now)).Ok? ==> r == Fail(Err(NumCode(5), NO_DOCUMENT))
    ensures r.Ok? ==>
      && db.docs == old(db.docs)[p := old(db.docs)[p] + Stamped(updates, now)]
      && r.value == WithId(p[|p| - 1], db.docs[p])
      && (forall k :: k in old(db.docs)[p] && k !in updates && k != "updatedAt" ==> db.docs[p][k] == old(db.docs)[p][k])
  {
    var w := db.Update(p, Stamped(updates, now));
    if w.Fail? {
      return Fail(w.err);
    }
    var d := db.Get(p);
    r := Ok(WithId(p[|p| - 1], d.value));
  }

  /** `updateAppointmentStatus(clinicaId, doctorId, appointmentId, updates)`:
      failures surface as the generic update error. */
  method UpdateAppointmentStatus(db: Db, clinicaId: Value, doctorId: Value, appointmentId: Value, updates: Doc, now: int)
    returns (r: Result<Doc>)
    requires db.Valid()
    modifies db
    ensures db.Valid()
    ensures db.order == old(db.order)
    ensures r.Ok? <==>
      && AppointmentRef(clinicaId, doctorId, appointmentId).Ok?
      && AppointmentRef(clinicaId, doctorId, appointmentId).value in old(db.docs)
      && WriteCheck(db.faults, AppointmentRef(clinicaId, doctorId, appointmentId).value, Stamped(updates, now)).Ok?
    ensures r.Fail? ==> r.err == UPDATE_FAILED && db.docs == old(db.docs)
    ensures r.Ok? ==>
      var p := AppointmentRef(clinicaId, doctorId, appointmentId).value;
      && db.docs == old(db.docs)[p := old(db.docs)[p] + Stamped(updates, now)]
      && r.value == WithId(appointmentId.s, db.docs[p])
  {
    var p := AppointmentRef(clinicaId, doctorId, appointmentId);
    if p.Fail? {
      return Fail(UPDATE_FAILED);
    }
    r := ApplyStatus(db, p.value, updates, now);
    if r.Fail? {
      r := Fail(UPDATE_FAILED);
    }
  }

  /** `acceptAppointment`: status "accepted", the notes (default "") as the
      doctor's response, and the processing time; no other field, and no
      patient record, is touched. */
  method AcceptAppointment(db: Db, clinicaId: Value, doctorId: Value, appointmentId: Value, doctorNotes: Value, now: int)
    returns (r: Result<Doc>)
    requires db.Valid()
    modifies db
    ensures db.Valid()
    ensures db.order == old(db.order)
    ensures r.Fail? ==> r.err == UPDATE_FAILED && db.docs == old(db.docs)
    ensures r.Ok? <==> Applicable(old(db.docs), db.faults, AppointmentRef(clinicaId, doctorId, appointmentId),
                                  Accepted(doctorNotes, now), now)
    ensures r.Ok? ==>
      && Applied(old(db.docs), db.docs, AppointmentRef(clinicaId, doctorId, appointmentId),
                 Accepted(doctorNotes, now), now, appointmentId, r.value)
      && At(r.value, "status") == Str("accepted")
      && At(r.value, "doctorResponse") == Default(doctorNotes, Str(""))
  {
    r := UpdateAppointmentStatus(db, clinicaId, doctorId, appointmentId, Accepted(doctorNotes, now), now);
    if r.Ok? {
      var p := AppointmentRef(clinicaId, doctorId, appointmentId).value;
      DecidedFields(old(db.docs)[p], Accepted(doctorNotes, now), doctorNotes, now);
    }
  }

  /** `rejectAppointment`. */
  method RejectAppointment(db: Db, clinicaId: Value, doctorId: Value, appointmentId: Value, doctorNotes: Value, now: int)
    returns (r: Result<Doc>)
    requires db.Valid()
    modifies db
    ensures db.Valid()
    ensures db.order == old(db.order)
    ensures r.Fail? ==> r.err == UPDATE_FAILED && db.docs == old(db.docs)
    ensures r.Ok? <==> Applicable(old(db.docs), db.faults, AppointmentRef(clinicaId, doctorId, appointmentId),
                                  Rejected(doctorNotes, now), now)
    ensures r.Ok? ==>
      && Applied(old(db.docs), db.docs, AppointmentRef(clinicaId, doctorId, appointmentId),
                 Rejected(doctorNotes, now), now, appointmentId, r.value)
      && At(r.value, "status") == Str("rejected")
      && At(r.value, "doctorResponse") == Default(doctorNotes, Str(""))
  {
    r := UpdateAppointmentStatus(db, clinicaId, doctorId, appointmentId, Rejected(doctorNotes, now), now);
    if r.Ok? {
      var p := AppointmentRef(clinicaId, doctorId, appointmentId).value;
      DecidedFields(old(db.docs)[p], Rejected(doctorNotes, now), doctorNotes, now);
    }
  }

  /** `rescheduleAppointment`: without both alternatives it fails before any
      write, with its own error. */
  method RescheduleAppointment(db: Db, clinicaId: Value, doctorId: Value, appointmentId: Value,
                               alternativeDate: Value, alternativeTime: Value, doctorNotes: Value, now: int)
    returns (r: Result<Doc>)
    requires db.Valid()
    modifies db
    ensures db.Valid()
    ensures db.order == old(db.order)
    ensures !Truthy(alternativeDate) || !Truthy(alternativeTime) ==> r == Fail(ALTERNATIVE_REQUIRED) && db.docs == old(db.docs)
    ensures r.Fail? ==> db.docs == old(db.docs)
    ensures Truthy(alternativeDate) && Truthy(alternativeTime) && r.Fail? ==> r.err == UPDATE_FAILED
    ensures Truthy(alternativeDate) && Truthy(alternativeTime) ==>
      (r.Ok? <==> Applicable(old(db.docs), db.faults, AppointmentRef(clinicaId, doctorId, appointmentId),
                             Rescheduled(alternativeDate, alternativeTime, doctorNotes, now), now))
    ensures r.Ok? ==>
      && Applied(old(db.docs), db.docs, AppointmentRef(clinicaId, doctorId, appointmentId),
                 Rescheduled(alternativeDate, alternativeTime, doctorNotes, now), now, appointmentId, r.value)
      && At(r.value, "status") == Str("rescheduled")
      && At(r.value, "alternativeDate") == alternativeDate && At(r.value, "alternativeTime") == alternativeTime
  {
    if !Truthy(alternativeDate) || !Truthy(alternativeTime) {
      return Fail(ALTERNATIVE_REQUIRED);
    }
    r := UpdateAppointmentStatus(db, clinicaId, doctorId, appointmentId,
                                 Rescheduled(alternativeDate, alternativeTime, doctorNotes, now), now);
    if r.Ok? {
      var p := AppointmentRef(clinicaId, doctorId, appointmentId).value;
      RescheduledFields(old(db.docs)[p], alternativeDate, alternativeTime, doctorNotes, now);
    }
  }

  /** The clinic `getClinicaIdByDoctor` finds: the first organization, in
      enumeration order, holding the doctor. */
  function ClinicOf(db: Db, doctorId: string): (r: Option<string>)
    reads db
  {
    var orgs := db.Collection([ORGS]);
    match FirstOrgHolding(db.docs, orgs, doctorId)
    case None => None
    case Some(i) => Some(orgs[i].Id())
  }

  /** The clinic found is the first organization holding the doctor, and
      there is none exactly when no organization holds it. */
  lemma ClinicOfIsFirstHolder(db: Db, doctorId: string)
    ensures var orgs := db.Collection([ORGS]);
      ClinicOf(db, doctorId).None? <==> forall j :: 0 <= j < |orgs| ==> !Holds(db.docs, orgs, doctorId, j)
    ensures var orgs := db.Collection([ORGS]);
      ClinicOf(db, doctorId).Some? ==> exists i ::
        (&& 0 <= i < |orgs| && ClinicOf(db, doctorId).value == orgs[i].Id()
         && Holds(db.docs, orgs, doctorId, i)
         && (forall j :: 0 <= j < i ==> !Holds(db.docs, orgs, doctorId, j)))
  {
    var orgs := db.Collection([ORGS]);
    var first := FirstOrgHolding(db.docs, orgs, doctorId);
    if first.Some? {
      assert ClinicOf(db, doctorId).value == orgs[first.value].Id();
    }
  }

  /** `getClinicaIdByDoctor(doctorId)`. */
  method GetClinicaIdByDoctor(db: Db, doctorId: string) returns (r: Result<string>)
    ensures ClinicOf(db, doctorId).None? ==> r == Fail(NO_CLINIC)
    ensures ClinicOf(db, doctorId).Some? ==> r == Ok(ClinicOf(db, doctorId).value)
  {
    var orgs, i := ProbeDoctorOrg(db, doctorId);
    if i.None? {
      return Fail(NO_CLINIC);
    }
    return Ok(orgs[i.value].Id());
  }

  /** The appointment the Auto variants address, once the clinic is known. */
  function AutoRef(db: Db, doctorId: string, appointmentId: Value): (r: Result<Path>)
    reads db
    ensures ClinicOf(db, doctorId).None? ==> r == Fail(NO_CLINIC)
    ensures ClinicOf(db, doctorId).Some? ==> r == AppointmentRef(Str(ClinicOf(db, doctorId).value), Str(doctorId), appointmentId)
  {
    match ClinicOf(db, doctorId)
    case None => Fail(NO_CLINIC)
    case Some(c) => AppointmentRef(Str(c), Str(doctorId), appointmentId)
  }

  /** `updateAppointmentStatusAuto(doctorId, appointmentId, updates)`: its
      errors are not rewrapped. */
  method UpdateAppointmentStatusAuto(db: Db, doctorId: string, appointmentId: Value, updates: Doc, now: int)
    returns (r: Result<Doc>)
    requires db.Valid() && ValidSegment(doctorId)
    modifies db
    ensures db.Valid()
    ensures db.order == old(db.order)
    ensures r.Fail? ==> db.docs == old(db.docs)
    ensures old(AutoRef(db, doctorId, appointmentId)).Fail? ==> r == Fail(old(AutoRef(db, doctorId, appointmentId)).err)
    ensures r.Ok? <==> Applicable(old(db.docs), db.faults, old(AutoRef(db, doctorId, appointmentId)), updates, now)
    ensures r.Ok? ==> Applied(old(db.docs), db.docs, old(AutoRef(db, doctorId, appointmentId)), updates, now, appointmentId, r.value)
  {
    var clinic := GetClinicaIdByDoctor(db, doctorId);
    if clinic.Fail? {
      return Fail(clinic.err);
    }
    var p := AppointmentRef(Str(clinic.value), Str(doctorId), appointmentId);
    if p.Fail? {
      return Fail(p.err);
    }
    r := ApplyStatus(db, p.value, updates, now);
  }

  /** `acceptAppointmentAuto({ doctorId, appointmentId, doctorNotes })`. */
  method AcceptAppointmentAuto(db: Db, doctorId: string, appointmentId: Value, doctorNotes: Value, now: int)
    returns (r: Result<Doc>)
    requires db.Valid() && ValidSegment(doctorId)
    modifies db
    ensures db.Valid()
    ensures db.order == old(db.order)
    ensures old(AutoRef(db, doctorId, appointmentId)).Fail? ==> r == Fail(old(AutoRef(db, doctorId, appointmentId)).err)
    ensures r.Fail? ==> db.docs == old(db.docs)
    ensures r.Ok? <==> Applicable(old(db.docs), db.faults, old(AutoRef(db, doctorId, appointmentId)),
                                  Accepted(doctorNotes, now), now)
    ensures r.Ok? ==>
      && Applied(old(db.docs), db.docs, old(AutoRef(db, doctorId, appointmentId)),
                 Accepted(doctorNotes, now), now, appointmentId, r.value)
      && At(r.value, "status") == Str("accepted")
      && At(r.value, "doctorResponse") == Default(doctorNotes, Str(""))
  {
    ghost var ref := AutoRef(db, doctorId, appointmentId);
    r := UpdateAppointmentStatusAuto(db, doctorId, appointmentId, Accepted(doctorNotes, now), now);
    if r.Ok? {
      DecisionReads(Accepted(doctorNotes, now), "accepted", doctorNotes, now);
      AppliedReads(old(db.docs), db.docs, ref, Accepted(doctorNotes, now), now, appointmentId, r.value, "status");
      AppliedReads(old(db.docs), db.docs, ref, Accepted(doctorNotes, now), now, appointmentId, r.value, "doctorResponse");
    }
  }

  /** `rejectAppointmentAuto({ doctorId, appointmentId, doctorNotes })`. */
  method RejectAppointmentAuto(db: Db, doctorId: string, appointmentId: Value, doctorNotes: Value, now: int)
    returns (r: Result<Doc>)
    requires db.Valid() && ValidSegment(doctorId)
    modifies db
    ensures db.Valid()
    ensures db.order == old(db.order)
    ensures old(AutoRef(db, doctorId, appointmentId)).Fail? ==> r == Fail(old(AutoRef(db, doctorId, appointmentId)).err)
    ensures r.Fail? ==> db.docs == old(db.docs)
    ensures r.Ok? <==> Applicable(old(db.docs), db.faults, old(AutoRef(db, doctorId, appointmentId)),
                                  Rejected(doctorNotes, now), now)
    ensures r.Ok? ==>
      && Applied(old(db.docs), db.docs, old(AutoRef(db, doctorId, appointmentId)),
                 Rejected(doctorNotes, now), now, appointmentId, r.value)
      && At(r.value, "status") == Str("rejected")
      && At(r.value, "doctorResponse") == Default(doctorNotes, Str(""))
  {
    ghost var ref := AutoRef(db, doctorId, appointmentId);
    r := UpdateAppointmentStatusAuto(db, doctorId, appointmentId, Rejected(doctorNotes, now), now);
    if r.Ok? {
      DecisionReads(Rejected(doctorNotes, now), "rejected", doctorNotes, now);
      AppliedReads(old(db.docs), db.docs, ref, Rejected(doctorNotes, now), now, appointmentId, r.value, "status");
      AppliedReads(old(db.docs), db.docs, ref, Rejected(doctorNotes, now), now, appointmentId, r.value, "doctorResponse");
    }
  }

  /** `rescheduleAppointmentAuto({ doctorId, appointmentId, alternativeDate,
      alternativeTime, doctorNotes })`. */
  method RescheduleAppointmentAuto(db: Db, doctorId: string, appointmentId: Value,
                                   alternativeDate: Value, alternativeTime: Value, doctorNotes: Value, now: int)
    returns (r: Result<Doc>)
    requires db.Valid() && ValidSegment(doctorId)
    modifies db
    ensures db.Valid()
    ensures db.order == old(db.order)
    ensures !Truthy(alternativeDate) || !Truthy(alternativeTime) ==> r == Fail(ALTERNATIVE_REQUIRED) && db.docs == old(db.docs)
    ensures r.Fail? ==> db.docs == old(db.docs)
    ensures Truthy(alternativeDate) && Truthy(alternativeTime) && old(AutoRef(db, doctorId, appointmentId)).Fail? ==>
      r == Fail(old(AutoRef(db, doctorId, appointmentId)).err)
    ensures Truthy(alternativeDate) && Truthy(alternativeTime) ==>
      (r.Ok? <==> Applicable(old(db.docs), db.faults, old(AutoRef(db, doctorId, appointmentId)),
                             Rescheduled(alternativeDate, alternativeTime, doctorNotes, now), now))
    ensures r.Ok? ==>
      && Applied(old(db.docs), db.docs, old(AutoRef(db, doctorId, appointmentId)),
                 Rescheduled(alternativeDate, alternativeTime, doctorNotes, now), now, appointmentId, r.value)
      && At(r.value, "status") == Str("rescheduled")
      && At(r.value, "alternativeDate") == alternativeDate && At(r.value, "alternativeTime") == alternativeTime
  {
    if !Truthy(alternativeDate) || !Truthy(alternativeTime) {
      return Fail(ALTERNATIVE_REQUIRED);
    }
    ghost var ref := AutoRef(db, doctorId, appointmentId);
    r := UpdateAppointmentStatusAuto(db, doctorId, appointmentId,
                                 Rescheduled(alternativeDate, alternativeTime, doctorNotes, now), now);
    if r.Ok? {
      RescheduledFields(old(db.docs)[ref.value], alternativeDate, alternativeTime, doctorNotes, now);
    }
  }

  /** `getAppointmentsByDoctorAuto(doctorId, status = "all")`: the doctor
      listing under the clinic the linear search finds; errors are not
      rewrapped. */
  method GetAppointmentsByDoctorAuto(db: Db, doctorId: string, status: Value) returns (r: Result<seq<Doc>>)
    requires db.Valid() && ValidSegment(doctorId)
    ensures ClinicOf(db, doctorId).None? ==> r == Fail(NO_CLINIC)
    ensures ClinicOf(db, doctorId).Some? ==>
      r == Ok(Rows(DoctorAppointments(db, [ORGS, ClinicOf(db, doctorId).value, DOCTORS, doctorId, APPOINTMENTS], Default(status, Str("all")))))
  {
    var clinic := GetClinicaIdByDoctor(db, doctorId);
    if clinic.Fail? {
      return Fail(clinic.err);
    }
    var coll := [ORGS, clinic.value, DOCTORS, doctorId, APPOINTMENTS];
    return Ok(Rows(DoctorAppointments(db, coll, Default(status, Str("all")))));
  }
}
