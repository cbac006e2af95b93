/**
 * The HTTP handlers of `/api/appointments` that do more than forward: the
 * POST handler builds the appointment from the request body and a snapshot
 * of the authenticated patient's record, and the PATCH handlers turn a
 * doctor's decision into a service call, mapping every failure to 400.
 */
module AppointmentRoutes {
  import opened Json
  import opened Store
  import opened Directory
  import opened Appointments

  /** An HTTP status and the JSON body sent with it. */
  datatype Response = Response(status: int, body: Value)

  const PATIENT_NOT_FOUND := "Paciente no encontrado"
  const DOCTOR_NAME_REQUIRED := "doctorName es requerido y debe ser string."

  function ErrorBody(message: string): Value {
    Obj(map["error" := Str(message)])
  }

  /** Every failure of a service call becomes a 400 carrying its message. */
  function Reply(r: Result<Doc>, okStatus: int): (res: Response)
    ensures r.Ok? ==> res == Response(okStatus, Obj(r.value))
    ensures r.Fail? ==> res == Response(400, ErrorBody(r.err.message))
  {
    match r
    case Ok(d) => Response(okStatus, Obj(d))
    case Fail(e) => Response(400, ErrorBody(e.message))
  }

  /** The fields the snapshot of the patient sets. */
  const SNAPSHOT_KEYS: set<string> := {
    "patientId", "patientName", "patientEmail", "patientPhone", "patientAge",
    "patientGender", "patientBloodType", "patientWeight", "patientHeight", "patientBMI"
  }

  /** `patientData.datos_personales?.[k] || null`. */
  function Personal(patient: Doc, k: string): (r: Value)
    ensures Truthy(Prop(At(patient, "datos_personales"), k)) ==> r == Prop(At(patient, "datos_personales"), k)
    ensures !Truthy(Prop(At(patient, "datos_personales"), k)) ==> r == Null
  {
    Or(Prop(At(patient, "datos_personales"), k), Null)
  }

  /** The patient's fields as the appointment records them: identity
      fields copied as they are (a missing one stays missing), the phone
      falling back to "" and every clinical field to null. */
  function Snapshot(patient: Doc): (r: Doc)
    ensures r.Keys == SNAPSHOT_KEYS
    ensures r["patientId"] == At(patient, "uid") && r["patientName"] == At(patient, "name")
    ensures r["patientEmail"] == At(patient, "email")
    ensures r["patientPhone"] == Or(Prop(At(patient, "info_contacto"), "telefono"), Str(""))
    ensures r["patientAge"] == Personal(patient, "edad") && r["patientGender"] == Personal(patient, "sexo")
    ensures r["patientBloodType"] == Personal(patient, "tipo_sangre") && r["patientWeight"] == Personal(patient, "peso_kg")
    ensures r["patientHeight"] == Personal(patient, "estatura_cm") && r["patientBMI"] == Personal(patient, "IMC")
  {
    map[
      "patientId" := At(patient, "uid"),
      "patientName" := At(patient, "name"),
      "patientEmail" := At(patient, "email"),
      "patientPhone" := Or(Prop(At(patient, "info_contacto"), "telefono"), Str("")),
      "patientAge" := Personal(patient, "edad"),
      "patientGender" := Personal(patient, "sexo"),
      "patientBloodType" := Personal(patient, "tipo_sangre"),
      "patientWeight" := Personal(patient, "peso_kg"),
      "patientHeight" := Personal(patient, "estatura_cm"),
      "patientBMI" := Personal(patient, "IMC")
    ]
  }

  /** The appointment data POST /api/appointments hands to the service: the
      request body, with the snapshot of the patient written over whatever
      the body said about those fields. */
  function PatientSnapshot(body: Doc, patient: Doc): (r: Doc)
    ensures r.Keys == body.Keys + SNAPSHOT_KEYS
    ensures forall k :: k in body && k !in SNAPSHOT_KEYS ==> r[k] == body[k]
    ensures forall k :: k in SNAPSHOT_KEYS ==> r[k] == Snapshot(patient)[k]
  {
    body + Snapshot(patient)
  }

  /** POST /api/appointments for the authenticated patient `uid`: 404 and no
      write without a patient record, otherwise 201 with the created
      appointment or 400 with the service's error. */
  method PostAppointment(db: Db, uid: string, body: Doc, autoId: string, now: int) returns (res: Response)
    requires db.Valid() && ValidSegment(uid) && ValidSegment(autoId)
    modifies db
    ensures db.Valid()
    ensures [PATIENTS, uid] !in old(db.docs) ==>
      res == Response(404, ErrorBody(PATIENT_NOT_FOUND)) && db.docs == old(db.docs) && db.order == old(db.order)
    ensures [PATIENTS, uid] in old(db.docs) ==>
      var data := PatientSnapshot(body, old(db.docs)[[PATIENTS, uid]]);
      && (res.status == 201 || (res == Response(400, ErrorBody(CREATE_FAILED.message))
                                 && db.docs == old(db.docs) && db.order == old(db.order)))
      && (res.status == 201 <==>
            && Requested(data)
            && AppointmentsRef(At(data, "clinicaId"), At(data, "doctorId")).Ok?
            && WriteCheck(db.faults, AppointmentsRef(At(data, "clinicaId"), At(data, "doctorId")).value + [autoId],
                          NewAppointment(data, now)).Ok?)
      && (res.status == 201 ==>
            && Requested(data)
            && AppointmentsRef(At(data, "clinicaId"), At(data, "doctorId")).Ok?
            && var p := AppointmentsRef(At(data, "clinicaId"), At(data, "doctorId")).value + [autoId];
            && db.docs == old(db.docs)[p := NewAppointment(data, now)]
            && db.order == Grow(old(db.order), p)
            && res.body == Obj(WithId(autoId, NewAppointment(data, now))))
  {
    var patient := db.Get([PATIENTS, uid]);
    if patient.None? {
      return Response(404, ErrorBody(PATIENT_NOT_FOUND));
    }
    var data := PatientSnapshot(body, patient.value);
    var r := CreateAppointment(db, data, autoId, now);
    res := Reply(r, 201);
  }

  /** PATCH /api/appointments/:appointmentId/accept for doctor `uid`:
      without a non-empty string `doctorName` it answers 400 and calls
      nothing; the name is otherwise not used. */
  method AcceptRoute(db: Db, uid: string, appointmentId: string, body: Doc, now: int) returns (res: Response)
    requires db.Valid() && ValidSegment(uid)
    modifies db
    ensures db.Valid()
    ensures db.order == old(db.order)
    ensures !(At(body, "doctorName").Str? && Truthy(At(body, "doctorName"))) ==>
      res == Response(400, ErrorBody(DOCTOR_NAME_REQUIRED)) && db.docs == old(db.docs)
    ensures res.status == 200 || res.status == 400
    ensures res.status == 400 ==> db.docs == old(db.docs)
    ensures At(body, "doctorName").Str? && Truthy(At(body, "doctorName")) ==>
      (res.status == 200 <==> Applicable(old(db.docs), db.faults, old(AutoRef(db, uid, Str(appointmentId))),
                                         Accepted(Default(At(body, "doctorNotes"), Str("")), now), now))
    ensures res.status == 200 ==>
      res.body.Obj? && Applied(old(db.docs), db.docs, old(AutoRef(db, uid, Str(appointmentId))),
                               Accepted(Default(At(body, "doctorNotes"), Str("")), now), now,
                               Str(appointmentId), res.body.fields)
  {
    var doctorName := At(body, "doctorName");
    if !Truthy(doctorName) || !doctorName.Str? {
      return Response(400, ErrorBody(DOCTOR_NAME_REQUIRED));
    }
    var r := AcceptAppointmentAuto(db, uid, Str(appointmentId), Default(At(body, "doctorNotes"), Str("")), now);
    res := Reply(r, 200);
  }

  /** PATCH /api/appointments/:appointmentId/reject for doctor `uid`. */
  method RejectRoute(db: Db, uid: string, appointmentId: string, body: Doc, now: int) returns (res: Response)
    requires db.Valid() && ValidSegment(uid)
    modifies db
    ensures db.Valid()
    ensures db.order == old(db.order)
    ensures res.status == 200 || res.status == 400
    ensures res.status == 400 ==> db.docs == old(db.docs)
    ensures res.status == 200 <==>
      Applicable(old(db.docs), db.faults, old(AutoRef(db, uid, Str(appointmentId))),
                 Rejected(Default(At(body, "doctorNotes"), Str("")), now), now)
    ensures res.status == 200 ==>
      res.body.Obj? && Applied(old(db.docs), db.docs, old(AutoRef(db, uid, Str(appointmentId))),
                               Rejected(Default(At(body, "doctorNotes"), Str("")), now), now,
                               Str(appointmentId), res.body.fields)
  {
    var r := RejectAppointmentAuto(db, uid, Str(appointmentId), Default(At(body, "doctorNotes"), Str("")), now);
    res := Reply(r, 200);
  }

  /** PATCH /api/appointments/:appointmentId/reschedule for doctor `uid`. */
  method RescheduleRoute(db: Db, uid: string, appointmentId: string, body: Doc, now: int) returns (res: Response)
    requires db.Valid() && ValidSegment(uid)
    modifies db
    ensures db.Valid()
    ensures db.order == old(db.order)
    ensures !Truthy(At(body, "alternativeDate")) || !Truthy(At(body, "alternativeTime")) ==>
      res == Response(400, ErrorBody(ALTERNATIVE_REQUIRED.message)) && db.docs == old(db.docs)
    ensures res.status == 200 || res.status == 400
    ensures res.status == 400 ==> db.docs == old(db.docs)
    ensures Truthy(At(body, "alternativeDate")) && Truthy(At(body, "alternativeTime")) ==>
      (res.status == 200 <==> Applicable(old(db.docs), db.faults, old(AutoRef(db, uid, Str(appointmentId))),
                                         Rescheduled(At(body, "alternativeDate"), At(body, "alternativeTime"),
                                                     Default(At(body, "doctorNotes"), Str("")), now), now))
    ensures res.status == 200 ==>
      res.body.Obj? && Applied(old(db.docs), db.docs, old(AutoRef(db, uid, Str(appointmentId))),
                               Rescheduled(At(body, "alternativeDate"), At(body, "alternativeTime"),
                                           Default(At(body, "doctorNotes"), Str("")), now), now,
                               Str(appointmentId), res.body.fields)
  {
    var r := RescheduleAppointmentAuto(db, uid, Str(appointmentId), At(body, "alternativeDate"), At(body, "alternativeTime"),
                                       Default(At(body, "doctorNotes"), Str("")), now);
    res := Reply(r, 200);
  }
}
