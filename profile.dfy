/**
 * The profile of the signed-in user: where it is read from and written to
 * for each role, and how complete it is.
 */
module Profile {
  import opened Text
  import opened Json
  import opened Store
  import opened Directory

  const DOCTOR := Str("doctor")
  const PATIENT := Str("paciente")
  const UPDATED := "Perfil actualizado correctamente"

  // ---------------------------------------------------------------------
  // Reading

  /** What `getUserProfile(uid, rol)` returns when the store lists the
      organizations `orgs`: for a doctor the record under the first of them
      holding `doctores/{uid}`, with the organization's id and name added;
      for a patient the patient record; `null` otherwise. */
  function ProfileOf(docs: map<Path, Doc>, orgs: seq<Snap>, uid: string, rol: Value): (r: Value)
    ensures rol != DOCTOR && rol != PATIENT ==> r == Null
    ensures rol == PATIENT ==> r == if [PATIENTS, uid] in docs then Obj(docs[[PATIENTS, uid]]) else Null
    ensures r == Null || r.Obj?
  {
    if rol == DOCTOR then
      match FirstOrgHolding(docs, orgs, uid)
      case None => Null
      case Some(i) =>
        Obj(docs[DoctorPath(orgs[i].Id(), uid)]
            + map["organizacionId" := Str(orgs[i].Id()), "organizacionNombre" := At(orgs[i].data, "nombre")])
    else if rol == PATIENT then
      if [PATIENTS, uid] in docs then Obj(docs[[PATIENTS, uid]]) else Null
    else Null
  }

  /** A doctor's profile is `null` exactly when no organization holds the
      doctor; otherwise it is the record held by the first organization
      that does, carrying that organization's id and name, every other
      field as the record has it. */
  lemma DoctorProfileIsFirstMatch(docs: map<Path, Doc>, orgs: seq<Snap>, uid: string)
    ensures var p := ProfileOf(docs, orgs, uid, DOCTOR);
      p == Null <==> forall j :: 0 <= j < |orgs| ==> !Holds(docs, orgs, uid, j)
    ensures var p := ProfileOf(docs, orgs, uid, DOCTOR);
      p != Null ==>
        exists i :: 0 <= i < |orgs| && Holds(docs, orgs, uid, i)
          && (forall j :: 0 <= j < i ==> !Holds(docs, orgs, uid, j))
          && p.fields["organizacionId"] == Str(orgs[i].Id())
          && p.fields["organizacionNombre"] == At(orgs[i].data, "nombre")
          && p.fields.Keys == docs[DoctorPath(orgs[i].Id(), uid)].Keys + {"organizacionId", "organizacionNombre"}
          && forall k :: k in docs[DoctorPath(orgs[i].Id(), uid)] && k != "organizacionId" && k != "organizacionNombre" ==>
               p.fields[k] == docs[DoctorPath(orgs[i].Id(), uid)][k]
  {
    var hit := FirstOrgHolding(docs, orgs, uid);
    if hit.Some? {
      var i := hit.value;
      var p := ProfileOf(docs, orgs, uid, DOCTOR);
      assert Holds(docs, orgs, uid, i);
      assert p.fields["organizacionId"] == Str(orgs[i].Id());
    }
  }

  /** `getUserProfile(uid, rol)`. */
  method GetUserProfile(db: Db, uid: string, rol: Value) returns (r: Value)
    ensures r == ProfileOf(db.docs, db.Collection([ORGS]), uid, rol)
  {
    r := Null;
    if rol == DOCTOR {
      var orgs, hit := ProbeDoctorOrg(db, uid);
      if hit.Some? {
        var org := orgs[hit.value];
        var doctor := db.Get(DoctorPath(org.Id(), uid));
        r := Obj(doctor.value + map["organizacionId" := Str(org.Id()), "organizacionNombre" := At(org.data, "nombre")]);
      }
    } else if rol == PATIENT {
      var patient := db.Get([PATIENTS, uid]);
      if patient.Some? {
        r := Obj(patient.value);
      }
    }
  }

  // ---------------------------------------------------------------------
  // Writing

  /** `{ ...profileData, updatedAt }`: the fields of the body with the
      update time written over. */
  function UpdateData(profileData: Value, iso: string): (r: Doc)
    ensures r.Keys == (if profileData.Obj? then profileData.fields.Keys else {}) + {"updatedAt"}
    ensures r["updatedAt"] == Str(iso)
    ensures forall k :: k in r && k != "updatedAt" ==> r[k] == Prop(profileData, k)
  {
    Spread(profileData) + map["updatedAt" := Str(iso)]
  }

  /** Where `updateUserProfile` writes: the doctor record of the given
      organization, the patient record, or nowhere. An organization id
      that is not a usable document id makes building the path fail. */
  function UpdateTarget(uid: string, rol: Value, organizacionId: Value): (r: Result<Option<Path>>)
    requires ValidSegment(uid)
    ensures rol == DOCTOR && Truthy(organizacionId) ==>
      (organizacionId.Str? && ValidSegment(organizacionId.s) ==> r == Ok(Some(DoctorPath(organizacionId.s, uid))))
      && (!(organizacionId.Str? && ValidSegment(organizacionId.s)) ==> r == Fail(Err(NoCode, INVALID_PATH)))
    ensures rol == PATIENT ==> r == Ok(Some([PATIENTS, uid]))
    ensures !(rol == DOCTOR && Truthy(organizacionId)) && rol != PATIENT ==> r == Ok(None)
    ensures r.Ok? && r.value.Some? ==> ValidDocPath(r.value.value)
  {
    assert ValidSegment(ORGS) && ValidSegment(DOCTORS) && ValidSegment(PATIENTS);
    if rol == DOCTOR && Truthy(organizacionId) then
      if organizacionId.Str? && ValidSegment(organizacionId.s) then Ok(Some(DoctorPath(organizacionId.s, uid)))
      else Fail(Err(NoCode, INVALID_PATH))
    else if rol == PATIENT then Ok(Some([PATIENTS, uid]))
    else Ok(None)
  }

  function Success(): Doc {
    map["success" := Bool(true), "message" := Str(UPDATED)]
  }

  /** `updateUserProfile(uid, rol, profileData, organizacionId)`: a merge of
      the body and the update time into the role's record, reporting
      success whether or not anything was written; a failed write is
      passed on. */
  method UpdateUserProfile(db: Db, uid: string, rol: Value, profileData: Value, organizacionId: Value, iso: string)
    returns (r: Result<Doc>)
    requires db.Valid() && ValidSegment(uid)
    modifies db
    ensures db.Valid()
    ensures r.Ok? ==> r.value == Success()
    ensures UpdateTarget(uid, rol, organizacionId).Fail? ==>
      r == Fail(Err(NoCode, INVALID_PATH)) && db.docs == old(db.docs) && db.order == old(db.order)
    ensures UpdateTarget(uid, rol, organizacionId) == Ok(None) ==>
      r == Ok(Success()) && db.docs == old(db.docs) && db.order == old(db.order)
    ensures var t := UpdateTarget(uid, rol, organizacionId);
      t.Ok? && t.value.Some? ==>
        var p := t.value.value;
        && r == (match WriteCheck(db.faults, p, UpdateData(profileData, iso)) case Ok(_) => Ok(Success()) case Fail(e) => Fail(e))
        && (r.Ok? ==> db.docs == old(db.docs)[p := MergeDeep(if p in old(db.docs) then old(db.docs)[p] else map[], UpdateData(profileData, iso))])
        && (r.Ok? ==> db.order == Grow(old(db.order), p))
        && (r.Fail? ==> db.docs == old(db.docs) && db.order == old(db.order))
  {
    var updateData := UpdateData(profileData, iso);
    var target := UpdateTarget(uid, rol, organizacionId);
    if target.Fail? {
      return Fail(target.err);
    }
    if target.value.Some? {
      var m := db.Merge(target.value.value, updateData);
      if m.Fail? {
        return Fail(m.err);
      }
    }
    r := Ok(Success());
  }

  // ---------------------------------------------------------------------
  // Completion

  /** The result of `Math.round(completed / required.length * 100)`: a
      whole percentage, or NaN when no field is required. */
  datatype Score = Percent(n: int) | NotANumber

  /** The required fields, each as the key path its dotted name splits
      into at '.'. */
  const PATIENT_FIELDS: seq<seq<string>> := [
    ["datos_personales", "edad"], ["datos_personales", "sexo"], ["datos_personales", "peso_kg"],
    ["datos_personales", "estatura_cm"], ["datos_personales", "tipo_sangre"],
    ["info_contacto", "telefono"], ["info_contacto", "direccion"]
  ]
  const DOCTOR_FIELDS: seq<seq<string>> := [["especialidad"], ["cedula_profesional"], ["telefono"], ["direccion"]]

  function RequiredFields(rol: Value): (r: seq<seq<string>>)
    ensures rol == PATIENT ==> |r| == 7
    ensures rol == DOCTOR ==> |r| == 4
    ensures rol != PATIENT && rol != DOCTOR ==> r == []
  {
    if rol == PATIENT then PATIENT_FIELDS
    else if rol == DOCTOR then DOCTOR_FIELDS
    else []
  }

  /** `keys.reduce((obj, key) => obj?.[key], v)`: once a step reaches a value
      without properties the walk yields `undefined`. */
  function Resolve(v: Value, keys: seq<string>): (r: Value)
    ensures keys == [] ==> r == v
    ensures keys != [] && !v.Obj? ==> r == Undefined
    decreases |keys|
  {
    if keys == [] then v else Resolve(Prop(v, keys[0]), keys[1..])
  }

  /** A missing step anywhere on the path makes the field absent. */
  lemma {:induction false} ResolveThroughMissing(v: Value, keys: seq<string>, i: nat)
    requires i < |keys|
    requires !Resolve(v, keys[..i]).Obj?
    ensures Resolve(v, keys) == Undefined
    decreases i
  {
    if i == 0 {
      assert keys[..0] == [];
    } else {
      assert keys[..i][1..] == keys[1..][..i - 1];
      if keys[1..][..i - 1] == [] {
        assert Resolve(v, keys[..i]) == Prop(v, keys[0]);
      }
      ResolveThroughMissing(Prop(v, keys[0]), keys[1..], i - 1);
    }
  }

  /** The test a required field passes: `value && value.toString().trim() !== ""`. */
  predicate Filled(v: Value) {
    Truthy(v) && Trim(ToJsString(v)) != ""
  }

  /** How many of `fields` are filled in `profile`. */
  function CountFilled(profile: Value, fields: seq<seq<string>>): (r: nat)
    ensures r <= |fields|
    ensures r == |fields| <==> forall i :: 0 <= i < |fields| ==> Filled(Resolve(profile, fields[i]))
    ensures r == 0 <==> forall i :: 0 <= i < |fields| ==> !Filled(Resolve(profile, fields[i]))
  {
    if fields == [] then 0
    else
      var rest := CountFilled(profile, fields[1..]);
      assert forall i :: 1 <= i < |fields| ==> fields[i] == fields[1..][i - 1];
      (if Filled(Resolve(profile, fields[0])) then 1 else 0) + rest
  }

  /** Multiplying by a positive number keeps an order. */
  lemma MulMono(d: int, a: int, b: int)
    requires d > 0 && a <= b
    ensures d * a <= d * b
  {
  }

  /** `Math.round(100 * c / n)` for `0 <= c <= n`, `n > 0`: the nearest
      whole percentage, halves rounded up. */
  function RoundPercent(c: nat, n: nat): (r: int)
    requires 0 < n && c <= n
    ensures 0 <= r <= 100
    ensures 2 * n * r <= 200 * c + n < 2 * n * (r + 1)
  {
    var m := 200 * c + n;
    var d := 2 * n;
    var q := m / d;
    assert d * (q + 1) == d * q + d;
    assert q <= 100 by {
      if q > 100 {
        MulMono(d, 101, q);
      }
    }
    q
  }

  /** The score `calculateProfileCompletion(profile, rol)` returns. */
  function Completion(profile: Value, rol: Value): Score {
    if !Truthy(profile) then Percent(0)
    else if RequiredFields(rol) == [] then NotANumber
    else Percent(RoundPercent(CountFilled(profile, RequiredFields(rol)), |RequiredFields(rol)|))
  }

  /** The `forEach` over the required fields, counting the filled ones. */
  method CountCompleted(profile: Value, fields: seq<seq<string>>) returns (completed: nat)
    ensures completed == CountFilled(profile, fields)
  {
    completed := 0;
    var i := 0;
    while i < |fields|
      invariant 0 <= i <= |fields|
      invariant completed + CountFilled(profile, fields[i..]) == CountFilled(profile, fields)
    {
      assert fields[i..][1..] == fields[i + 1..];
      if Filled(Resolve(profile, fields[i])) {
        completed := completed + 1;
      }
      i := i + 1;
    }
  }

  /** `calculateProfileCompletion(profileData, rol)`. */
  method CalculateProfileCompletion(profile: Value, rol: Value) returns (score: Score)
    ensures score == Completion(profile, rol)
  {
    if !Truthy(profile) {
      return Percent(0);
    }
    var fields := RequiredFields(rol);
    var completed := CountCompleted(profile, fields);
    if |fields| == 0 {
      return NotANumber;
    }
    score := Percent(RoundPercent(completed, |fields|));
  }

  /** A doctor's or a patient's score is a percentage between 0 and 100; it
      is 100 exactly when every required field is filled, and 0 for a
      missing profile or one with no field filled. */
  lemma CompletionBounds(profile: Value, rol: Value)
    requires rol == DOCTOR || rol == PATIENT
    ensures Completion(profile, rol).Percent?
    ensures 0 <= Completion(profile, rol).n <= 100
    ensures Completion(profile, rol) == Percent(100) <==>
      Truthy(profile) && forall i :: 0 <= i < |RequiredFields(rol)| ==> Filled(Resolve(profile, RequiredFields(rol)[i]))
    ensures Completion(profile, rol) == Percent(0) <==>
      !Truthy(profile) || forall i :: 0 <= i < |RequiredFields(rol)| ==> !Filled(Resolve(profile, RequiredFields(rol)[i]))
  {
    if Truthy(profile) {
      var fields := RequiredFields(rol);
      RoundPercentExtremes(CountFilled(profile, fields), |fields|);
    }
  }

  /** For the four or seven fields a role requires, rounding reaches 100
      only for a full count and 0 only for an empty one. */
  lemma RoundPercentExtremes(c: nat, n: nat)
    requires (n == 4 || n == 7) && c <= n
    ensures RoundPercent(c, n) == 100 <==> c == n
    ensures RoundPercent(c, n) == 0 <==> c == 0
  {
  }

  /** Any other role scores a present profile NaN: it requires no field. */
  lemma OtherRoleIsNaN(profile: Value, rol: Value)
    requires rol != DOCTOR && rol != PATIENT
    ensures Completion(profile, rol) == if Truthy(profile) then NotANumber else Percent(0)
  {
  }
}
