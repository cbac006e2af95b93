/**
 * Registration and login. Registering a doctor finds the organization by
 * exact name (adding the device to its comma-joined `codigoRegistro` list
 * when it is not there yet) or creates it under an id derived from the
 * name, binds the device, and writes the doctor's records; registering a
 * patient writes the patient's records. The identity account is created
 * first and deleted again when a later step fails.
 */
module Registration {
  import opened Text
  import opened Json
  import opened Store
  import opened Directory
  import opened Identity
  import opened Users
  import opened Organizations

  // ---------------------------------------------------------------------
  // The registered-device list of an organization

  /** Each piece trimmed, blank pieces dropped. */
  function Clean(parts: seq<string>): (r: seq<string>)
    ensures |r| <= |parts|
    ensures forall i :: 0 <= i < |r| ==> r[i] != ""
    ensures (forall i :: 0 <= i < |parts| ==> ',' !in parts[i]) ==> forall i :: 0 <= i < |r| ==> ',' !in r[i]
  {
    if parts == [] then []
    else
      var t := Trim(parts[0]);
      TrimIsInfix(parts[0]);
      if t != "" then [t] + Clean(parts[1..]) else Clean(parts[1..])
  }

  lemma {:induction false} CleanAppend(a: seq<string>, b: seq<string>)
    ensures Clean(a + b) == Clean(a) + Clean(b)
  {
    if a != [] {
      assert (a + b)[0] == a[0] && (a + b)[1..] == a[1..] + b;
      CleanAppend(a[1..], b);
    } else {
      assert a + b == b;
    }
  }

  /** `current.split(",").map((c) => c.trim()).filter((c) => c.length > 0)`. */
  function ParseCodigos(current: string): (r: seq<string>)
    ensures forall i :: 0 <= i < |r| ==> r[i] != "" && ',' !in r[i]
  {
    Clean(Split(current, ','))
  }

  /** A device id that survives the parse as itself: no surrounding
      whitespace, not empty, no comma. */
  predicate CleanId(s: string) {
    s != "" && Trim(s) == s && ',' !in s
  }

  /** The new `codigoRegistro` after registering `esp32Id` with an
      organization whose list reads `current`, or `None` when the device is
      already listed and nothing is written. A non-empty list gets
      `${current},${esp32Id}`; an empty one becomes `esp32Id` itself. */
  function NewCodigoRegistro(current: string, esp32Id: Value): (r: Option<Value>)
    ensures r.None? <==> esp32Id.Str? && esp32Id.s in ParseCodigos(current)
    ensures r.Some? && ParseCodigos(current) == [] ==> r.value == esp32Id
    ensures r.Some? && ParseCodigos(current) != [] ==> r.value == Str(current + "," + ToJsString(esp32Id))
  {
    var codes := ParseCodigos(current);
    if esp32Id.Str? && esp32Id.s in codes then None
    else if codes != [] then Some(Str(current + "," + ToJsString(esp32Id)))
    else Some(esp32Id)
  }

  /** Appending a clean id keeps every listed id, in order, and adds the new
      one at the end. */
  lemma CodigoAppended(current: string, id: string)
    requires CleanId(id) && NewCodigoRegistro(current, Str(id)).Some?
    ensures var v := NewCodigoRegistro(current, Str(id)).value;
      v.Str? && ParseCodigos(v.s) == ParseCodigos(current) + [id]
  {
    SplitWithoutSep(id, ',');
    assert Clean([id]) == [id];
    if ParseCodigos(current) != [] {
      SplitAppend(current, id, ',');
      assert current + "," + id == current + [','] + id;
      CleanAppend(Split(current, ','), Split(id, ','));
    }
  }

  /** Registering the same clean id again writes nothing. */
  lemma CodigoIdempotent(current: string, id: string)
    requires CleanId(id) && NewCodigoRegistro(current, Str(id)).Some?
    ensures NewCodigoRegistro(NewCodigoRegistro(current, Str(id)).value.s, Str(id)).None?
  {
    CodigoAppended(current, id);
  }

  // ---------------------------------------------------------------------
  // The id of a new organization

  /** `name.trim().replace(/\s+/g, "_").toLowerCase()`. */
  function OrgSlug(name: string): string {
    Lower(ReplaceSpaceRuns(Trim(name), "_"))
  }

  lemma {:induction false} ReplaceSpaceRunsHasNoSpace(s: string, rep: string)
    requires forall i :: 0 <= i < |rep| ==> !IsSpace(rep[i])
    ensures forall i :: 0 <= i < |ReplaceSpaceRuns(s, rep)| ==> !IsSpace(ReplaceSpaceRuns(s, rep)[i])
    decreases |s|
  {
    if s != [] {
      if IsSpace(s[0]) {
        ReplaceSpaceRunsHasNoSpace(SkipSpace(s), rep);
      } else {
        ReplaceSpaceRunsHasNoSpace(s[1..], rep);
      }
    }
  }

  /** The id holds no whitespace, and is as long as the name's letters
      with each whitespace run counted once. */
  lemma SlugHasNoSpace(name: string)
    ensures forall i :: 0 <= i < |OrgSlug(name)| ==> !IsSpace(OrgSlug(name)[i])
  {
    ReplaceSpaceRunsHasNoSpace(Trim(name), "_");
  }

  /** A string without whitespace has no run to replace. */
  lemma {:induction false} ReplaceSpaceRunsNoSpace(s: string, rep: string)
    requires forall i :: 0 <= i < |s| ==> !IsSpace(s[i])
    ensures ReplaceSpaceRuns(s, rep) == s
    decreases |s|
  {
    if s != [] {
      ReplaceSpaceRunsNoSpace(s[1..], rep);
    }
  }

  /** Two names without whitespace that differ only in letter case share an
      id, although the lookup by exact name tells them apart: registering
      "norte" when an organization "Norte" exists writes
      `organizaciones/norte`, over the existing organization's document
      when that is its id. */
  lemma CaseVariantsShareSlug(a: string, b: string)
    requires forall i :: 0 <= i < |a| ==> !IsSpace(a[i])
    requires forall i :: 0 <= i < |b| ==> !IsSpace(b[i])
    requires Lower(a) == Lower(b)
    ensures OrgSlug(a) == OrgSlug(b) == Lower(a)
  {
    assert TrimStart(a) == a && TrimStart(b) == b;
    ReplaceSpaceRunsNoSpace(a, "_");
    ReplaceSpaceRunsNoSpace(b, "_");
  }

  // ---------------------------------------------------------------------
  // Documents and results

  /** The document of a new organization. */
  function NewOrgDoc(name: Value, esp32Id: Value, location: Value, now: int): Doc {
    map[
      "nombre" := name,
      "codigoRegistro" := esp32Id,
      "creadoEn" := Time(now),
      "direccion" := Or(Prop(location, "direccion"), Str("")),
      "coordenadas" := Obj(map["lat" := Or(Prop(location, "lat"), Null), "lng" := Or(Prop(location, "lng"), Null)])
    ]
  }

  /** `organizaciones/{org}/doctores/{uid}`. */
  function DoctorDoc(uid: string, email: Value, username: Value, doctorName: Value, esp32Id: Value, now: int): Doc {
    map[
      "uid" := Str(uid), "email" := email, "username" := username, "nombre" := doctorName,
      "esp32Id" := esp32Id, "rol" := Str("doctor"), "creadoEn" := Time(now)
    ]
  }

  /** `patients/{uid}`: assignment, last visit and pathology start as "Pendiente". */
  function PatientDoc(uid: string, email: Value, username: Value, now: int): Doc {
    map[
      "uid" := Str(uid), "email" := email, "name" := username, "doctor" := Str("Pendiente"),
      "lastVisit" := Str("Pendiente"), "pathology" := Str("Pendiente"), "rol" := Str("paciente"),
      "creadoEn" := Time(now)
    ]
  }

  /** The custom claims set for a role. */
  function Claims(rol: string, orgId: Value): Doc {
    map["rol" := Str(rol), "organizacionId" := orgId]
  }

  /** `{ uid, email, rol, organizacionId }`. */
  function Registered(uid: string, email: Value, rol: string, orgId: Value): Doc {
    map["uid" := Str(uid), "email" := email, "rol" := Str(rol), "organizacionId" := orgId]
  }

  // ---------------------------------------------------------------------
  // Errors

  const INVALID_ROLE := "Rol de usuario no válido especificado."
  const REGISTER_PREFIX := "Error al registrar usuario: "
  const LOGIN_PREFIX := "Error al iniciar sesión: "
  const NO_ROLE := "Este usuario no tiene un rol asignado en Firestore."

  /** The TypeError JavaScript raises when `f` is called on a value that
      does not have it. */
  function NotAFunction(f: string): Err {
    Err(NoCode, f + " is not a function")
  }

  const STARTS_WITH_TYPE_ERROR := NotAFunction("error.code.startsWith")

  /** The TypeError of destructuring `null` or `undefined`. */
  function CannotDestructure(v: Value): Err {
    Err(NoCode, "Cannot destructure 'userData' as it is " + ToJsString(v) + ".")
  }

  /** What the `catch` of `registerUser` does with an error. */
  datatype Handling =
    | Rethrow          // the error leaves as it is
    | CleanUpAndWrap   // the identity is deleted and a wrapped error leaves
    | TypeErrorEscapes // evaluating the test throws; nothing is cleaned up

  /** The test `error.code && error.code.startsWith("auth/")` as written:
      store errors carry a numeric code, which has no `startsWith`. */
  function CatchAsWritten(e: Err): (h: Handling)
    ensures h == TypeErrorEscapes <==> e.code.NumCode? && e.code.n != 0
    ensures h == Rethrow <==> e.code.StrCode? && StartsWith(e.code.s, "auth/")
  {
    match e.code
    case NoCode => CleanUpAndWrap
    case NumCode(n) => if n == 0 then CleanUpAndWrap else TypeErrorEscapes
    case StrCode(s) => if s != "" && StartsWith(s, "auth/") then Rethrow else CleanUpAndWrap
  }

  /** The handling the comments and the cleanup branch describe: errors of
      the identity provider leave as they are, every other failure cleans up
      the identity and is wrapped. */
  function Catch(e: Err): (h: Handling)
    ensures h != TypeErrorEscapes
    ensures h == Rethrow <==> e.code.StrCode? && StartsWith(e.code.s, "auth/")
  {
    if e.code.StrCode? && StartsWith(e.code.s, "auth/") then Rethrow else CleanUpAndWrap
  }

  /** The two agree on every error without a numeric code; a store write
      refused with PERMISSION_DENIED (code 7) tells them apart: as written it
      throws a TypeError and leaves the identity in place. */
  lemma CatchAsWrittenSkipsCleanup()
    ensures forall e: Err :: !e.code.NumCode? ==> CatchAsWritten(e) == Catch(e)
    ensures CatchAsWritten(Err(NumCode(7), PERMISSION_DENIED)) == TypeErrorEscapes
    ensures Catch(Err(NumCode(7), PERMISSION_DENIED)) == CleanUpAndWrap
  {
  }

  // ---------------------------------------------------------------------
  // Registration

  /** The organization a registering doctor joins, found among `orgs` (the
      organizations as the store lists them) or created: an organization
      with exactly the requested name is reused, with its device list
      extended when the device is new to it; otherwise the slug of the name
      becomes the id of a new organization. */
  function OrgChoice(orgs: seq<Snap>, faults: set<Path>, name: Value, esp32Id: Value, location: Value, now: int): (r: Result<string>)
    ensures name == Undefined ==> r == Fail(Err(NoCode, INVALID_QUERY))
    ensures r.Fail? ==> !r.err.code.StrCode?
    ensures name != Undefined && Where(orgs, "nombre", name) != [] && r.Ok? ==>
      r.value == Where(orgs, "nombre", name)[0].Id()
    ensures name != Undefined && Where(orgs, "nombre", name) == [] ==>
      (r.Ok? ==> name.Str? && r.value == OrgSlug(name.s) && ValidSegment(r.value))
    ensures name.Str? && Where(orgs, "nombre", name) == [] && ValidSegment(OrgSlug(name.s)) ==>
      (r.Ok? <==> WriteCheck(faults, [ORGS, OrgSlug(name.s)], NewOrgDoc(name, esp32Id, location, now)).Ok?)
  {
    if name == Undefined then Fail(Err(NoCode, INVALID_QUERY))
    else
      var hits := Where(orgs, "nombre", name);
      if hits != [] then JoinChoice(hits[0], faults, esp32Id)
      else if !name.Str? then Fail(NotAFunction("organizationName.trim"))
      else SlugChoice(faults, name.s, esp32Id, location, now)
  }

  /** The outcome of reusing the organization `first`: its id, unless
      extending its device list fails; a stored list that is not a string
      cannot be split. */
  function JoinChoice(first: Snap, faults: set<Path>, esp32Id: Value): (r: Result<string>)
    ensures r.Ok? ==> r.value == first.Id()
    ensures r.Fail? ==> !r.err.code.StrCode?
    ensures !Or(At(first.data, "codigoRegistro"), Str("")).Str? ==> r == Fail(NotAFunction("currentCodigos.split"))
  {
    var current := Or(At(first.data, "codigoRegistro"), Str(""));
    if !current.Str? then Fail(NotAFunction("currentCodigos.split"))
    else
      match NewCodigoRegistro(current.s, esp32Id)
      case None => Ok(first.Id())
      case Some(v) =>
        match WriteCheck(faults, first.path, map["codigoRegistro" := v])
        case Fail(e) => Fail(e)
        case Ok(_) => Ok(first.Id())
  }

  /** The outcome of creating the organization named `name`: its slug,
      when that is a usable id and the write is accepted. */
  function SlugChoice(faults: set<Path>, name: string, esp32Id: Value, location: Value, now: int): (r: Result<string>)
    ensures r.Ok? ==> r.value == OrgSlug(name) && ValidSegment(r.value)
    ensures r.Fail? ==> !r.err.code.StrCode?
    ensures !ValidSegment(OrgSlug(name)) ==> r == Fail(Err(NoCode, INVALID_PATH))
    ensures ValidSegment(OrgSlug(name)) ==>
      (r.Ok? <==> WriteCheck(faults, [ORGS, OrgSlug(name)], NewOrgDoc(Str(name), esp32Id, location, now)).Ok?)
  {
    var slug := OrgSlug(name);
    if !ValidSegment(slug) then Fail(Err(NoCode, INVALID_PATH))
    else
      match WriteCheck(faults, [ORGS, slug], NewOrgDoc(Str(name), esp32Id, location, now))
      case Fail(e) => Fail(e)
      case Ok(_) => Ok(slug)
  }

  /** services/authBackendService.js:23-65, in `registerUser`: find or create the organization. */
  method ResolveOrganization(db: Db, name: Value, esp32Id: Value, location: Value, now: int) returns (r: Result<string>)
    requires db.Valid()
    modifies db
    ensures db.Valid()
    ensures db.order == if r.Ok? then Grow(old(db.order), [ORGS, r.value]) else old(db.order)
    ensures r == OrgChoice(old(db.Collection([ORGS])), db.faults, name, esp32Id, location, now)
    ensures r.Ok? ==> ValidSegment(r.value) && [ORGS, r.value] in db.docs
    ensures r.Fail? ==> db.docs == old(db.docs)
    ensures var hits := Where(old(db.Collection([ORGS])), "nombre", name);
      r.Ok? && hits != [] ==>
        && hits[0].path == [ORGS, r.value]
        && var current := Or(At(hits[0].data, "codigoRegistro"), Str(""));
        && current.Str?
        && var v := NewCodigoRegistro(current.s, esp32Id);
        && db.docs == if v.None? then old(db.docs)
                      else old(db.docs)[[ORGS, r.value] := old(db.docs)[[ORGS, r.value]] + map["codigoRegistro" := v.value]]
    ensures Where(old(db.Collection([ORGS])), "nombre", name) == [] && r.Ok? ==>
      db.docs == old(db.docs)[[ORGS, r.value] := NewOrgDoc(name, esp32Id, location, now)]
    ensures r.Ok? ==> Untouched(old(db.docs), db.docs, {[ORGS, r.value]})
  {
    if name == Undefined {
      return Fail(Err(NoCode, INVALID_QUERY));
    }
    ghost var orgs := db.Collection([ORGS]);
    var hits := Where(db.Collection([ORGS]), "nombre", name);
    if hits != [] {
      FirstHitIsOrganization(db, name);
      assert OrgChoice(orgs, db.faults, name, esp32Id, location, now) == JoinChoice(hits[0], db.faults, esp32Id);
      r := JoinOrganization(db, hits[0], esp32Id);
      return;
    }
    if !name.Str? {
      return Fail(NotAFunction("organizationName.trim"));
    }
    assert OrgChoice(orgs, db.faults, name, esp32Id, location, now) == SlugChoice(db.faults, name.s, esp32Id, location, now);
    r := CreateOrganization(db, name.s, esp32Id, location, now);
  }

  /** An organization found by name is a stored document directly under
      the organizations collection. */
  lemma FirstHitIsOrganization(db: Db, name: Value)
    requires db.Valid() && Where(db.Collection([ORGS]), "nombre", name) != []
    ensures var first := Where(db.Collection([ORGS]), "nombre", name)[0];
      first.path in db.docs && first.path == [ORGS, first.Id()] && first.data == db.docs[first.path]
  {
    var first := Where(db.Collection([ORGS]), "nombre", name)[0];
    assert first in Where(db.Collection([ORGS]), "nombre", name);
    assert InScope(first.path, Children([ORGS])) && first.path in db.docs;
    assert first.path[..1] == [ORGS];
  }

  /** services/authBackendService.js:33-49, in `registerUser`: the organization `first`, found by
      name, is reused; its device list grows when the device is new to it. */
  method JoinOrganization(db: Db, first: Snap, esp32Id: Value) returns (r: Result<string>)
    requires db.Valid() && first.path in db.docs && first.path == [ORGS, first.Id()]
    modifies db
    ensures db.Valid()
    ensures db.order == old(db.order)
    ensures r == JoinChoice(first, db.faults, esp32Id)
    ensures r.Fail? ==> db.docs == old(db.docs)
    ensures r.Ok? ==> first.path in db.docs
    ensures Untouched(old(db.docs), db.docs, {first.path})
    ensures r.Ok? ==>
      var v := NewCodigoRegistro(Or(At(first.data, "codigoRegistro"), Str("")).s, esp32Id);
      db.docs == if v.None? then old(db.docs)
                 else old(db.docs)[first.path := old(db.docs)[first.path] + map["codigoRegistro" := v.value]]
  {
    var current := Or(At(first.data, "codigoRegistro"), Str(""));
    if !current.Str? {
      return Fail(NotAFunction("currentCodigos.split"));
    }
    var v := NewCodigoRegistro(current.s, esp32Id);
    if v.Some? {
      var w := db.Update(first.path, map["codigoRegistro" := v.value]);
      if w.Fail? {
        return Fail(w.err);
      }
      UpdateTouchesOne(old(db.docs), first.path, old(db.docs)[first.path] + map["codigoRegistro" := v.value]);
    }
    return Ok(first.Id());
  }

  /** services/authBackendService.js:51-65, in `registerUser`: a new organization whose id is the slug
      of its name. */
  method CreateOrganization(db: Db, name: string, esp32Id: Value, location: Value, now: int) returns (r: Result<string>)
    requires db.Valid()
    modifies db
    ensures db.Valid()
    ensures db.order == if r.Ok? then Grow(old(db.order), [ORGS, r.value]) else old(db.order)
    ensures r == SlugChoice(db.faults, name, esp32Id, location, now)
    ensures r.Fail? ==> db.docs == old(db.docs)
    ensures r.Ok? ==> db.docs == old(db.docs)[[ORGS, r.value] := NewOrgDoc(Str(name), esp32Id, location, now)]
    ensures r.Ok? ==> Untouched(old(db.docs), db.docs, {[ORGS, r.value]})
  {
    var slug := OrgSlug(name);
    if !ValidSegment(slug) {
      return Fail(Err(NoCode, INVALID_PATH));
    }
    assert ValidSegment(ORGS);
    var w := db.Set([ORGS, slug], NewOrgDoc(Str(name), esp32Id, location, now));
    if w.Fail? {
      return Fail(w.err);
    }
    UpdateTouchesOne(old(db.docs), [ORGS, slug], NewOrgDoc(Str(name), esp32Id, location, now));
    return Ok(slug);
  }

  /** A `userData` that destructuring accepts. */
  predicate Destructurable(userData: Value) {
    !userData.Null? && !userData.Undefined?
  }

  /** What a stored doctor leaves behind: the doctor's record, the role
      cache as `safeCreateUsersDoc` repairs it, and no change outside the
      organization, the device, the doctor's record and the cache. */
  ghost predicate DoctorWrites(before: map<Path, Doc>, after: map<Path, Doc>, faults: set<Path>, uid: string,
                               orgId: string, esp32Id: Value, doctor: Doc, now: int)
  {
    && Untouched(before, after, {[ORGS, orgId], DoctorPath(orgId, uid), UsersPath(uid)} + DevicePaths(esp32Id))
    && Entry(after, DoctorPath(orgId, uid)) == Some(doctor)
    && Entry(after, UsersPath(uid)) == Entry(Repair(before, faults, uid, "doctor", Str(orgId), now), UsersPath(uid))
  }

  /** The documents after the doctor branch for `userData`, on a store
      whose organizations were `orgs`: a success lands in the organization
      `OrgChoice` picks; a failure after that choice may leave the
      organization and the device binding written, and nothing else. */
  ghost predicate DoctorOutcome(before: map<Path, Doc>, after: map<Path, Doc>, faults: set<Path>, orgs: seq<Snap>,
                                uid: string, email: Value, userData: Value, now: int, r: Result<Doc>)
  {
    var esp32Id := Prop(userData, "esp32Id");
    var choice := OrgChoice(orgs, faults, Prop(userData, "organizationName"), esp32Id, Prop(userData, "location"), now);
    && (r.Ok? ==>
          && choice.Ok? && At(r.value, "organizacionId") == Str(choice.value)
          && DoctorWrites(before, after, faults, uid, choice.value, esp32Id,
                          DoctorDoc(uid, email, Prop(userData, "username"), Prop(userData, "doctorName"), esp32Id, now), now))
    && (r.Fail? && choice.Fail? ==> after == before)
    && (r.Fail? && choice.Ok? ==> Untouched(before, after, {[ORGS, choice.value]} + DevicePaths(esp32Id)))
  }

  /** The documents after the patient branch for `userData`: the role cache
      is repaired first, so it stays written when the patient's record is
      refused. */
  ghost predicate PatientOutcome(before: map<Path, Doc>, after: map<Path, Doc>, faults: set<Path>,
                                 uid: string, email: Value, userData: Value, now: int, ok: bool)
  {
    var cached := Repair(before, faults, uid, "paciente", Null, now);
    && (!Destructurable(userData) ==> after == before)
    && (Destructurable(userData) ==>
          after == if ok then cached[[PATIENTS, uid] := PatientDoc(uid, email, Prop(userData, "username"), now)] else cached)
  }

  /** The three writes of a stored doctor, composed: the device binding,
      the doctor's record, then the role cache. */
  lemma DoctorStored(before: map<Path, Doc>, bound: map<Path, Doc>, after: map<Path, Doc>, faults: set<Path>,
                     uid: string, orgId: string, esp32Id: Value, doctor: Doc, now: int)
    requires Untouched(before, bound, DevicePaths(esp32Id))
    requires after == Repair(bound[DoctorPath(orgId, uid) := doctor], faults, uid, "doctor", Str(orgId), now)
    ensures DoctorWrites(before, after, faults, uid, orgId, esp32Id, doctor, now)
  {
    var stored := bound[DoctorPath(orgId, uid) := doctor];
    assert UsersPath(uid) !in DevicePaths(esp32Id) && UsersPath(uid) != DoctorPath(orgId, uid);
    RepairIsLocal(stored, before, faults, uid, "doctor", Str(orgId), now);
    RepairIsWriteOnce(stored, faults, uid, "doctor", Str(orgId), now);
  }

  /** The paths the doctor branch writes, in order: the organization
      `OrgChoice` picks, the doctor's record and the role cache; nothing
      when `userData` cannot be destructured or no organization is chosen. */
  function DoctorTrail(orgs: seq<Snap>, faults: set<Path>, uid: string, userData: Value, now: int): seq<Path> {
    var choice := OrgChoice(orgs, faults, Prop(userData, "organizationName"), Prop(userData, "esp32Id"),
                            Prop(userData, "location"), now);
    if Destructurable(userData) && choice.Ok? then [[ORGS, choice.value], DoctorPath(choice.value, uid), UsersPath(uid)]
    else []
  }

  /** The paths the patient branch writes, in order: the role cache, then
      the patient's record. */
  function PatientTrail(uid: string, userData: Value): seq<Path> {
    if Destructurable(userData) then [UsersPath(uid), [PATIENTS, uid]] else []
  }

  /** The paths the branch on `role` writes, in order. */
  function RoleTrail(orgs: seq<Snap>, faults: set<Path>, uid: string, userData: Value, role: Value, now: int): seq<Path> {
    if role == Str("doctor") then DoctorTrail(orgs, faults, uid, userData, now)
    else if role == Str("paciente") then PatientTrail(uid, userData)
    else []
  }

  /** The documents after the branch on `role`. */
  ghost predicate RoleOutcome(before: map<Path, Doc>, after: map<Path, Doc>, faults: set<Path>, orgs: seq<Snap>,
                              uid: string, email: Value, userData: Value, role: Value, now: int, r: Result<Doc>)
  {
    && (role == Str("doctor") ==> DoctorOutcome(before, after, faults, orgs, uid, email, userData, now, r))
    && (role == Str("paciente") ==> PatientOutcome(before, after, faults, uid, email, userData, now, r.Ok?))
  }

  /** The organization step only touches the organization, so the doctor's
      writes after it keep their meaning over the whole registration. */
  lemma DoctorWritesAfterOrg(before: map<Path, Doc>, mid: map<Path, Doc>, after: map<Path, Doc>, faults: set<Path>,
                             uid: string, orgId: string, esp32Id: Value, doctor: Doc, now: int)
    requires Untouched(before, mid, {[ORGS, orgId]})
    requires DoctorWrites(mid, after, faults, uid, orgId, esp32Id, doctor, now)
    ensures DoctorWrites(before, after, faults, uid, orgId, esp32Id, doctor, now)
  {
    assert UsersPath(uid) != [ORGS, orgId];
    RepairIsLocal(mid, before, faults, uid, "doctor", Str(orgId), now);
  }

  /** services/authBackendService.js:20-66, in `registerUser`: the doctor's
      fields are destructured from `userData`, then the organization is
      resolved, while nothing else is written. */
  method DoctorOrganization(db: Db, userData: Value, now: int) returns (r: Result<string>)
    requires db.Valid()
    modifies db
    ensures db.Valid()
    ensures r == if !Destructurable(userData) then Fail(CannotDestructure(userData))
                 else OrgChoice(old(db.Collection([ORGS])), db.faults, Prop(userData, "organizationName"),
                                Prop(userData, "esp32Id"), Prop(userData, "location"), now)
    ensures db.order == if r.Ok? then Grow(old(db.order), [ORGS, r.value]) else old(db.order)
    ensures r.Fail? ==> db.docs == old(db.docs) && !r.err.code.StrCode?
    ensures r.Ok? ==> ValidSegment(r.value) && [ORGS, r.value] in db.docs && Untouched(old(db.docs), db.docs, {[ORGS, r.value]})
  {
    if !Destructurable(userData) {
      return Fail(CannotDestructure(userData));
    }
    r := ResolveOrganization(db, Prop(userData, "organizationName"), Prop(userData, "esp32Id"), Prop(userData, "location"), now);
  }

  /** The doctor branch of `registerUser` for the new account `uid`. A failed
      device binding is ignored. */
  method RegisterDoctor(db: Db, auth: Auth, uid: string, email: Value, userData: Value, now: int) returns (r: Result<Doc>)
    requires db.Valid() && auth.Valid() && ValidSegment(uid) && uid in auth.accounts
    modifies db, auth
    ensures db.Valid() && auth.Valid() && auth.accounts == old(auth.accounts)
    ensures db.order == Tracked(old(db.order), db.docs, DoctorTrail(old(db.Collection([ORGS])), db.faults, uid, userData, now))
    ensures !Destructurable(userData) ==> r == Fail(CannotDestructure(userData)) && db.docs == old(db.docs)
    ensures var choice := OrgChoice(old(db.Collection([ORGS])), db.faults, Prop(userData, "organizationName"),
                                    Prop(userData, "esp32Id"), Prop(userData, "location"), now);
      && (Destructurable(userData) && choice.Fail? ==> r == Fail(choice.err) && db.docs == old(db.docs))
      && (Destructurable(userData) && choice.Ok? ==>
            var doctor := DoctorDoc(uid, email, Prop(userData, "username"), Prop(userData, "doctorName"), Prop(userData, "esp32Id"), now);
            && (r.Ok? <==> WriteCheck(db.faults, DoctorPath(choice.value, uid), doctor).Ok?)
            && (r.Fail? ==> r.err == WriteCheck(db.faults, DoctorPath(choice.value, uid), doctor).err)
            && (r.Ok? ==>
                  && r.value == Registered(uid, email, "doctor", Str(choice.value))
                  && [ORGS, choice.value] in db.docs
                  && DoctorPath(choice.value, uid) in db.docs && db.docs[DoctorPath(choice.value, uid)] == doctor
                  && auth.claims == old(auth.claims)[uid := Claims("doctor", Str(choice.value))]))
    ensures r.Fail? ==> auth.claims == old(auth.claims) && !r.err.code.StrCode?
    ensures DoctorOutcome(old(db.docs), db.docs, db.faults, old(db.Collection([ORGS])), uid, email, userData, now, r)
  {
    var org := DoctorOrganization(db, userData, now);
    if org.Fail? {
      return Fail(org.err);
    }
    var orgId, esp32Id := org.value, Prop(userData, "esp32Id");
    var doctor := DoctorDoc(uid, email, Prop(userData, "username"), Prop(userData, "doctorName"), esp32Id, now);
    ghost var mid, order1 := db.docs, db.order;
    var w := WriteDoctor(db, auth, uid, orgId, Prop(userData, "organizationName"), esp32Id, doctor, now);
    OrgThenDoctorOrder(old(db.order), order1, db.order, db.docs, [ORGS, orgId], DoctorPath(orgId, uid), UsersPath(uid));
    if w.Fail? {
      return Fail(w.err);
    }
    DoctorWritesAfterOrg(old(db.docs), mid, db.docs, db.faults, uid, orgId, esp32Id, doctor, now);
    return Ok(Registered(uid, email, "doctor", Str(orgId)));
  }

  /** services/authBackendService.js:67-87, in `registerUser`: the device
      binding, whose failure is ignored, then the doctor's record under the
      organization and the role cache. */
  method StoreDoctor(db: Db, uid: string, orgId: string, orgName: Value, esp32Id: Value, doctor: Doc, now: int)
    returns (r: Result<()>)
    requires db.Valid() && ValidSegment(uid) && ValidSegment(orgId)
    requires [ORGS, orgId] in db.docs
    modifies db
    ensures db.Valid()
    ensures [ORGS, orgId] in db.docs && db.order == Tracked(old(db.order), db.docs, [DoctorPath(orgId, uid), UsersPath(uid)])
    ensures r == WriteCheck(db.faults, DoctorPath(orgId, uid), doctor)
    ensures r.Ok? ==>
      && [ORGS, orgId] in db.docs
      && DoctorPath(orgId, uid) in db.docs && db.docs[DoctorPath(orgId, uid)] == doctor
    ensures r.Ok? ==> DoctorWrites(old(db.docs), db.docs, db.faults, uid, orgId, esp32Id, doctor, now)
    ensures r.Fail? ==> Untouched(old(db.docs), db.docs, DevicePaths(esp32Id))
  {
    assert ValidSegment(ORGS) && ValidSegment(DOCTORS);
    assert ValidDocPath(DoctorPath(orgId, uid));
    var _ := AssignEsp32ToOrganization(db, esp32Id, Str(orgId), orgName, now);
    assert [ORGS, orgId] in db.docs;
    ghost var bound := db.docs;
    r := db.Set(DoctorPath(orgId, uid), doctor);
    if r.Fail? {
      TrackedIdle(db.order, db.docs, [DoctorPath(orgId, uid), UsersPath(uid)]);
      return;
    }
    assert [ORGS, orgId] != UsersPath(uid) && DoctorPath(orgId, uid) != UsersPath(uid);
    ghost var order2 := db.order;
    SafeCreateUsersDoc(db, uid, "doctor", Str(orgId), now);
    DoctorOrder(old(db.order), order2, db.order, db.docs, DoctorPath(orgId, uid), UsersPath(uid));
    DoctorStored(old(db.docs), bound, db.docs, db.faults, uid, orgId, esp32Id, doctor, now);
  }

  /** The order after the organization at `o`, then the doctor's writes. */
  lemma OrgThenDoctorOrder(o0: seq<Path>, o1: seq<Path>, o2: seq<Path>, docs: map<Path, Doc>, o: Path, d: Path, u: Path)
    requires o1 == Grow(o0, o) && o in docs && o2 == Tracked(o1, docs, [d, u])
    ensures o2 == Tracked(o0, docs, [o, d, u])
  {
    TrackedGrown(o0, docs, o, [d, u]);
    assert [o] + [d, u] == [o, d, u];
  }

  /** The order after the doctor's record at `d` and the role cache at `u`. */
  lemma DoctorOrder(o0: seq<Path>, o2: seq<Path>, o3: seq<Path>, docs: map<Path, Doc>, d: Path, u: Path)
    requires o2 == Grow(o0, d) && d in docs && o3 == Track(o2, docs, u)
    ensures o3 == Tracked(o0, docs, [d, u])
  {
    TrackedGrown(o0, docs, d, [u]);
    assert [d] + [u] == [d, u];
  }

  /** services/authBackendService.js:67-91, in `registerUser`: the doctor's
      records, then the claims. */
  method WriteDoctor(db: Db, auth: Auth, uid: string, orgId: string, orgName: Value, esp32Id: Value, doctor: Doc, now: int)
    returns (r: Result<()>)
    requires db.Valid() && auth.Valid() && ValidSegment(uid) && ValidSegment(orgId) && uid in auth.accounts
    requires [ORGS, orgId] in db.docs
    modifies db, auth
    ensures db.Valid() && auth.Valid() && auth.accounts == old(auth.accounts)
    ensures [ORGS, orgId] in db.docs && db.order == Tracked(old(db.order), db.docs, [DoctorPath(orgId, uid), UsersPath(uid)])
    ensures r == WriteCheck(db.faults, DoctorPath(orgId, uid), doctor)
    ensures r.Fail? ==> auth.claims == old(auth.claims)
    ensures r.Ok? ==>
      && [ORGS, orgId] in db.docs
      && DoctorPath(orgId, uid) in db.docs && db.docs[DoctorPath(orgId, uid)] == doctor
      && auth.claims == old(auth.claims)[uid := Claims("doctor", Str(orgId))]
    ensures r.Ok? ==> DoctorWrites(old(db.docs), db.docs, db.faults, uid, orgId, esp32Id, doctor, now)
    ensures r.Fail? ==> Untouched(old(db.docs), db.docs, DevicePaths(esp32Id))
  {
    r := StoreDoctor(db, uid, orgId, orgName, esp32Id, doctor, now);
    if r.Ok? {
      var _ := auth.SetCustomUserClaims(uid, Claims("doctor", Str(orgId)));
    }
  }

  /** services/authBackendService.js:95-111, in `registerUser`: the role
      cache, then the patient's record. */
  method StorePatient(db: Db, uid: string, patient: Doc, now: int) returns (r: Result<()>)
    requires db.Valid() && ValidSegment(uid)
    modifies db
    ensures db.Valid()
    ensures db.order == Tracked(old(db.order), db.docs, [UsersPath(uid), [PATIENTS, uid]])
    ensures r == WriteCheck(db.faults, [PATIENTS, uid], patient)
    ensures r.Ok? ==> [PATIENTS, uid] in db.docs && db.docs[[PATIENTS, uid]] == patient
    ensures var cached := Repair(old(db.docs), db.faults, uid, "paciente", Null, now);
      db.docs == if r.Ok? then cached[[PATIENTS, uid] := patient] else cached
  {
    assert ValidSegment(PATIENTS);
    assert ValidDocPath([PATIENTS, uid]);
    SafeCreateUsersDoc(db, uid, "paciente", Null, now);
    ghost var cached, order1 := db.docs, db.order;
    r := db.Set([PATIENTS, uid], patient);
    assert UsersPath(uid) != [PATIENTS, uid];
    assert order1 == Tracked(old(db.order), cached, [UsersPath(uid)]);
    assert db.order == Track(order1, db.docs, [PATIENTS, uid]);
    TrackedThen(old(db.order), cached, db.docs, [UsersPath(uid)], [PATIENTS, uid]);
  }

  /** The patient branch of `registerUser` for the new account `uid`. */
  method RegisterPatient(db: Db, auth: Auth, uid: string, email: Value, userData: Value, now: int) returns (r: Result<Doc>)
    requires db.Valid() && auth.Valid() && ValidSegment(uid) && uid in auth.accounts
    modifies db, auth
    ensures db.Valid() && auth.Valid() && auth.accounts == old(auth.accounts)
    ensures db.order == Tracked(old(db.order), db.docs, PatientTrail(uid, userData))
    ensures !Destructurable(userData) ==> r == Fail(CannotDestructure(userData)) && db.docs == old(db.docs)
    ensures var patient := PatientDoc(uid, email, Prop(userData, "username"), now);
      && (Destructurable(userData) ==>
            && (r.Ok? <==> WriteCheck(db.faults, [PATIENTS, uid], patient).Ok?)
            && (r.Fail? ==> r.err == WriteCheck(db.faults, [PATIENTS, uid], patient).err))
      && (r.Ok? ==>
            && r.value == Registered(uid, email, "paciente", Null)
            && [PATIENTS, uid] in db.docs && db.docs[[PATIENTS, uid]] == patient
            && auth.claims == old(auth.claims)[uid := Claims("paciente", Null)])
    ensures r.Fail? ==> auth.claims == old(auth.claims) && !r.err.code.StrCode?
    ensures PatientOutcome(old(db.docs), db.docs, db.faults, uid, email, userData, now, r.Ok?)
  {
    if !Destructurable(userData) {
      return Fail(CannotDestructure(userData));
    }
    var patient := PatientDoc(uid, email, Prop(userData, "username"), now);
    var w := StorePatient(db, uid, patient, now);
    if w.Fail? {
      return Fail(w.err);
    }
    var _ := auth.SetCustomUserClaims(uid, Claims("paciente", Null));
    return Ok(Registered(uid, email, "paciente", Null));
  }

  /** services/authBackendService.js:20-122, in `registerUser`: the branch on the role, once the
      account `uid` exists. An unknown role deletes the account. */
  method RoleSteps(db: Db, auth: Auth, uid: string, email: Value, userData: Value, role: Value, now: int) returns (r: Result<Doc>)
    requires db.Valid() && auth.Valid() && ValidSegment(uid) && uid in auth.accounts
    modifies db, auth
    ensures db.Valid() && auth.Valid()
    ensures db.order == Tracked(old(db.order), db.docs, RoleTrail(old(db.Collection([ORGS])), db.faults, uid, userData, role, now))
    ensures r.Fail? ==> !r.err.code.StrCode?
    ensures role != Str("doctor") && role != Str("paciente") ==>
      && r == Fail(Err(NoCode, INVALID_ROLE)) && db.docs == old(db.docs)
      && auth.accounts == old(auth.accounts) - {uid} && auth.claims == old(auth.claims) - {uid}
    ensures role == Str("doctor") || role == Str("paciente") ==>
      && auth.accounts == old(auth.accounts)
      && (r.Fail? ==> auth.claims == old(auth.claims))
      && (r.Ok? ==>
            && r.value == Registered(uid, email, role.s, At(r.value, "organizacionId"))
            && auth.claims == old(auth.claims)[uid := Claims(role.s, At(r.value, "organizacionId"))])
    ensures role == Str("paciente") && r.Ok? ==>
      At(r.value, "organizacionId") == Null &&
      [PATIENTS, uid] in db.docs && db.docs[[PATIENTS, uid]] == PatientDoc(uid, email, Prop(userData, "username"), now)
    ensures role == Str("doctor") && r.Ok? ==>
      var orgId := At(r.value, "organizacionId");
      && orgId.Str? && [ORGS, orgId.s] in db.docs
      && DoctorPath(orgId.s, uid) in db.docs
      && db.docs[DoctorPath(orgId.s, uid)] == DoctorDoc(uid, email, Prop(userData, "username"), Prop(userData, "doctorName"), Prop(userData, "esp32Id"), now)
    ensures role == Str("doctor") ==>
      DoctorOutcome(old(db.docs), db.docs, db.faults, old(db.Collection([ORGS])), uid, email, userData, now, r)
    ensures role == Str("paciente") ==> PatientOutcome(old(db.docs), db.docs, db.faults, uid, email, userData, now, r.Ok?)
  {
    if role == Str("doctor") {
      r := RegisterDoctor(db, auth, uid, email, userData, now);
    } else if role == Str("paciente") {
      r := RegisterPatient(db, auth, uid, email, userData, now);
    } else {
      var _ := auth.DeleteUser(uid);
      r := Fail(Err(NoCode, INVALID_ROLE));
    }
  }

  /** services/authBackendService.js:20-133, in `registerUser`: everything
      after the account `uid` exists. A failed step deletes the account again
      and is reported under the registration prefix. */
  method FinishRegistration(db: Db, auth: Auth, uid: string, email: Value, userData: Value, role: Value, now: int)
    returns (r: Result<Doc>)
    requires db.Valid() && auth.Valid() && ValidSegment(uid) && uid in auth.accounts && uid !in auth.claims
    modifies db, auth
    ensures db.Valid() && auth.Valid()
    ensures db.order == Tracked(old(db.order), db.docs, RoleTrail(old(db.Collection([ORGS])), db.faults, uid, userData, role, now))
    ensures r.Fail? ==>
      && auth.accounts == old(auth.accounts) - {uid} && auth.claims == old(auth.claims)
      && r.err.code == NoCode && StartsWith(r.err.message, REGISTER_PREFIX)
    ensures role != Str("doctor") && role != Str("paciente") ==>
      r == Fail(Err(NoCode, REGISTER_PREFIX + INVALID_ROLE)) && db.docs == old(db.docs)
    ensures r.Ok? ==>
      && auth.accounts == old(auth.accounts)
      && (role == Str("doctor") || role == Str("paciente"))
      && r.value == Registered(uid, email, role.s, At(r.value, "organizacionId"))
      && auth.claims == old(auth.claims)[uid := Claims(role.s, At(r.value, "organizacionId"))]
    ensures role == Str("paciente") && r.Ok? ==>
      && r.value == Registered(uid, email, "paciente", Null)
      && [PATIENTS, uid] in db.docs && db.docs[[PATIENTS, uid]] == PatientDoc(uid, email, Prop(userData, "username"), now)
    ensures role == Str("doctor") && r.Ok? ==>
      var orgId := At(r.value, "organizacionId");
      && orgId.Str? && [ORGS, orgId.s] in db.docs
      && DoctorPath(orgId.s, uid) in db.docs
      && db.docs[DoctorPath(orgId.s, uid)] == DoctorDoc(uid, email, Prop(userData, "username"), Prop(userData, "doctorName"), Prop(userData, "esp32Id"), now)
    ensures RoleOutcome(old(db.docs), db.docs, db.faults, old(db.Collection([ORGS])), uid, email, userData, role, now, r)
  {
    var steps := RoleSteps(db, auth, uid, email, userData, role, now);
    if steps.Ok? {
      return steps;
    }
    assert Catch(steps.err) == CleanUpAndWrap;
    // the cleanup's own failure (the account may already be gone) is ignored
    var _ := auth.DeleteUser(uid);
    r := Fail(Err(NoCode, REGISTER_PREFIX + steps.err.message));
  }

  /** `registerUser(email, password, userData, role)`; `uid` is the id the
      identity provider gives the new account. A refusal of the provider
      leaves as it is; every later failure deletes the account again and is
      reported as "Error al registrar usuario: ...". Documents already
      written are not rolled back. */
  method RegisterUser(db: Db, auth: Auth, uid: string, email: Value, password: Value, userData: Value, role: Value, now: int)
    returns (r: Result<Doc>)
    requires db.Valid() && auth.Valid() && ValidSegment(uid) && uid !in auth.accounts
    modifies db, auth
    ensures db.Valid() && auth.Valid()
    ensures var refusal := CreateRefusal(old(auth.accounts).Values, email, password);
      && (refusal.Some? ==>
            && r == Fail(refusal.value) && db.docs == old(db.docs) && db.order == old(db.order)
            && auth.accounts == old(auth.accounts) && auth.claims == old(auth.claims))
      && (refusal.None? && r.Fail? ==>
            && auth.accounts == old(auth.accounts) && auth.claims == old(auth.claims)
            && r.err.code == NoCode && StartsWith(r.err.message, REGISTER_PREFIX))
      && (refusal.None? && role != Str("doctor") && role != Str("paciente") ==>
            r == Fail(Err(NoCode, REGISTER_PREFIX + INVALID_ROLE)) && db.docs == old(db.docs))
      && (refusal.None? && r.Ok? ==>
            && auth.accounts == old(auth.accounts)[uid := email.s]
            && (role == Str("doctor") || role == Str("paciente"))
            && r.value == Registered(uid, email, role.s, At(r.value, "organizacionId"))
            && auth.claims == old(auth.claims)[uid := Claims(role.s, At(r.value, "organizacionId"))])
    ensures role == Str("paciente") && r.Ok? ==>
      && r.value == Registered(uid, email, "paciente", Null)
      && [PATIENTS, uid] in db.docs && db.docs[[PATIENTS, uid]] == PatientDoc(uid, email, Prop(userData, "username"), now)
    ensures role == Str("doctor") && r.Ok? ==>
      var orgId := At(r.value, "organizacionId");
      && orgId.Str? && [ORGS, orgId.s] in db.docs
      && DoctorPath(orgId.s, uid) in db.docs
      && db.docs[DoctorPath(orgId.s, uid)] == DoctorDoc(uid, email, Prop(userData, "username"), Prop(userData, "doctorName"), Prop(userData, "esp32Id"), now)
    ensures CreateRefusal(old(auth.accounts).Values, email, password).None? ==>
      RoleOutcome(old(db.docs), db.docs, db.faults, old(db.Collection([ORGS])), uid, email, userData, role, now, r)
    ensures CreateRefusal(old(auth.accounts).Values, email, password).None? ==>
      db.order == Tracked(old(db.order), db.docs, RoleTrail(old(db.Collection([ORGS])), db.faults, uid, userData, role, now))
  {
    var created := auth.CreateUser(uid, email, password);
    if created.Fail? {
      // the provider's errors carry an "auth/" code: rethrown as they are
      assert Catch(created.err) == Rethrow;
      return Fail(created.err);
    }
    ghost var accounts := auth.accounts;
    r := FinishRegistration(db, auth, uid, email, userData, role, now);
    assert r.Fail? ==> auth.accounts == old(auth.accounts) by {
      assert accounts == old(auth.accounts)[uid := email.s];
    }
  }

  // ---------------------------------------------------------------------
  // Login

  /** What verifying the ID token yields. */
  datatype Token = Token(uid: string, email: Value)

  /** `loginUser(idToken)`, with the outcome of verifying the token given:
      a user the resolver finds no role for cannot log in; otherwise the
      role's claims are set and the user returned. Every failure is
      reported as "Error al iniciar sesión: ...". */
  method LoginUser(db: Db, auth: Auth, token: Result<Token>, now: int) returns (r: Result<Doc>)
    requires db.Valid() && auth.Valid() && (token.Ok? ==> ValidSegment(token.value.uid))
    modifies db, auth
    ensures db.Valid() && auth.Valid() && auth.accounts == old(auth.accounts)
    ensures token.Fail? ==>
      r == Fail(Err(NoCode, LOGIN_PREFIX + token.err.message)) && db.docs == old(db.docs) && db.order == old(db.order)
    ensures token.Ok? ==>
      var uid := token.value.uid;
      var info := ResolveRole(old(db.docs), old(db.order), db.groupIndexMissing, uid);
      && (info.None? ==> r == Fail(Err(NoCode, LOGIN_PREFIX + NO_ROLE)))
      && (info.Some? && uid !in auth.accounts ==> r == Fail(Err(NoCode, LOGIN_PREFIX + USER_NOT_FOUND.message)))
      && (info.Some? && uid in auth.accounts ==>
            && r == Ok(Registered(uid, token.value.email, info.value.rol, Or(info.value.organizacionId, Null)))
            && auth.claims == old(auth.claims)[uid := Claims(info.value.rol, Or(info.value.organizacionId, Null))])
    ensures token.Ok? ==>
      var uid := token.value.uid;
      var info := ResolveRole(old(db.docs), old(db.order), db.groupIndexMissing, uid);
      var cached := CachedRole(Entry(old(db.docs), UsersPath(uid)));
      && (cached.Some? || info.None? ==> db.docs == old(db.docs) && db.order == old(db.order))
      && (cached.None? && info.Some? ==>
            && db.docs == Repair(old(db.docs), db.faults, uid, info.value.rol, info.value.organizacionId, now)
            && db.order == Track(old(db.order), db.docs, UsersPath(uid)))
    ensures r.Fail? ==> auth.claims == old(auth.claims)
  {
    if token.Fail? {
      return Fail(Err(NoCode, LOGIN_PREFIX + token.err.message));
    }
    var uid := token.value.uid;
    var info := GetUserRoleAndOrg(db, uid, now);
    if info.None? {
      return Fail(Err(NoCode, LOGIN_PREFIX + NO_ROLE));
    }
    var orgId := Or(info.value.organizacionId, Null);
    var claimed := auth.SetCustomUserClaims(uid, Claims(info.value.rol, orgId));
    if claimed.Fail? {
      return Fail(Err(NoCode, LOGIN_PREFIX + claimed.err.message));
    }
    return Ok(Registered(uid, token.value.email, info.value.rol, orgId));
  }
}
