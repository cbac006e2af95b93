/**
 * The organization service: decides whether an ESP32 device lets a doctor
 * join or create an organization, records the binding of a device to an
 * organization, checks that an organization exists, and lists all
 * organizations by name.
 */
module Organizations {
  import opened Text
  import opened Json
  import opened Store
  import opened Directory

  const VERIFY_FAILED := Err(NoCode, "Error al verificar el ESP32 ID.")
  const ASSIGN_FAILED := Err(NoCode, "Error al asignar ESP32 a la organización.")
  const EXISTS_FAILED := Err(NoCode, "Error al verificar la existencia de la organización.")
  const UNKNOWN_DEVICE := "ESP32 ID no encontrado en el sistema"

  /** The answer of `checkEsp32IdAdvanced`. */
  datatype Check = Check(deviceExists: bool, orgName: Value, canJoin: bool, shouldCreateOrg: bool, message: string)

  /** A device record names an organization: both its id and its name are set. */
  predicate Bound(device: Doc) {
    Truthy(At(device, "organizacionId")) && Truthy(At(device, "organizacionNombre"))
  }

  /** The answer for a device bound to the organization called `n` when the
      request names it in any letter case. */
  function Joined(n: string): Check {
    Check(true, Str(n), true, false, "ESP32 pertenece a " + n + ". Puedes unirte.")
  }

  /** The decision `checkEsp32IdAdvanced` takes on what it read: the device
      record (if any), the requested name and the organizations. A failing
      `toLowerCase` or query surfaces as the generic verification error. */
  function Decide(device: Option<Doc>, requested: Value, orgs: seq<Snap>): (r: Result<Check>)
    ensures device.None? ==> r == Ok(Check(false, Null, false, false, UNKNOWN_DEVICE))
    ensures r.Fail? ==> r.err == VERIFY_FAILED
    ensures r.Ok? ==> !(r.value.canJoin && r.value.shouldCreateOrg)
    ensures r.Ok? && device.Some? ==> r.value.deviceExists
    ensures device.Some? && Bound(device.value) ==>
      (r.Ok? <==> At(device.value, "organizacionNombre").Str? && requested.Str?)
    ensures device.Some? && Bound(device.value) && r.Ok? ==>
      && r.value.orgName == At(device.value, "organizacionNombre")
      && !r.value.shouldCreateOrg
      && (r.value.canJoin <==> Lower(At(device.value, "organizacionNombre").s) == Lower(requested.s))
    ensures device.Some? && !Bound(device.value) ==> (r.Ok? <==> requested != Undefined)
    ensures device.Some? && !Bound(device.value) && r.Ok? ==>
      && r.value.orgName == Null
      && !r.value.canJoin
      && (r.value.shouldCreateOrg <==> forall i :: 0 <= i < |orgs| ==> At(orgs[i].data, "nombre") != requested)
  {
    match device
    case None => Ok(Check(false, Null, false, false, UNKNOWN_DEVICE))
    case Some(d) =>
      if Bound(d) then
        var bound := At(d, "organizacionNombre");
        if !bound.Str? || !requested.Str? then Fail(VERIFY_FAILED)
        else if Lower(bound.s) == Lower(requested.s) then Ok(Joined(bound.s))
        else Ok(Check(true, bound, false, false,
                      "ESP32 ya está asignado a " + bound.s + ". No puedes usar un nombre diferente."))
      else if requested == Undefined then Fail(VERIFY_FAILED)
      else
        var same := Where(orgs, "nombre", requested);
        if same != [] then
          assert same[0] in orgs;
          Ok(Check(true, Null, false, false,
                   "Ya existe una organización con el nombre \"" + ToJsString(requested) + "\". Elige un nombre diferente."))
        else
          assert forall i :: 0 <= i < |orgs| ==> orgs[i] !in same;
          Ok(Check(true, Null, false, true,
                   "ESP32 disponible. Se creará la organización \"" + ToJsString(requested) + "\" y se asignará el ESP32."))
  }

  /** `esp32_ids/{esp32Id}`. */
  function DeviceRef(esp32Id: Value): (r: Result<Path>)
    ensures r.Ok? <==> esp32Id.Str? && ValidSegment(esp32Id.s)
    ensures r.Ok? ==> r.value == [DEVICES, esp32Id.s] && ValidDocPath(r.value)
  {
    if esp32Id.Str? && ValidSegment(esp32Id.s) then
      assert ValidSegment(DEVICES);
      Ok([DEVICES, esp32Id.s])
    else Fail(Err(NoCode, INVALID_PATH))
  }

  /** The device record a binding may touch, when the id names one. */
  function DevicePaths(esp32Id: Value): set<Path> {
    if DeviceRef(esp32Id).Ok? then {DeviceRef(esp32Id).value} else {}
  }

  /** `checkEsp32IdAdvanced(esp32Id, organizationName)`: reads only. */
  function CheckEsp32IdAdvanced(db: Db, esp32Id: Value, organizationName: Value): (r: Result<Check>)
    reads db
    ensures DeviceRef(esp32Id).Fail? ==> r == Fail(VERIFY_FAILED)
    ensures DeviceRef(esp32Id).Ok? ==> r == Decide(db.Get(DeviceRef(esp32Id).value), organizationName, db.Collection([ORGS]))
  {
    match DeviceRef(esp32Id)
    case Fail(_) => Fail(VERIFY_FAILED)
    case Ok(p) => Decide(db.Get(p), organizationName, db.Collection([ORGS]))
  }

  /** A device bound to the non-empty name `n` accepts every request that
      names `n` up to letter case, whatever the organizations are. */
  lemma BoundDeviceJoinsCaseVariants(device: Doc, n: string, m: string, orgs: seq<Snap>)
    requires Truthy(At(device, "organizacionId")) && At(device, "organizacionNombre") == Str(n) && n != ""
    requires Lower(m) == Lower(n)
    ensures Decide(Some(device), Str(m), orgs) == Ok(Joined(n))
  {
  }

  /** The fields `assignEsp32ToOrganization` writes. */
  function Binding(orgId: Value, orgName: Value, now: int): Doc {
    map["organizacionId" := orgId, "organizacionNombre" := orgName, "asignadoEn" := Time(now), "activo" := Bool(true)]
  }

  /** `assignEsp32ToOrganization(esp32Id, organizacionId, organizacionNombre)`:
      an update of the existing device record, so an unknown device fails;
      every failure surfaces as the generic assignment error. Once bound, a
      later check naming the organization in any letter case can join. */
  method AssignEsp32ToOrganization(db: Db, esp32Id: Value, orgId: Value, orgName: Value, now: int) returns (r: Result<()>)
    requires db.Valid()
    modifies db
    ensures db.Valid()
    ensures db.order == old(db.order)
    ensures r.Fail? ==> r.err == ASSIGN_FAILED && db.docs == old(db.docs)
    ensures r.Ok? <==>
      && DeviceRef(esp32Id).Ok?
      && DeviceRef(esp32Id).value in old(db.docs)
      && WriteCheck(db.faults, DeviceRef(esp32Id).value, Binding(orgId, orgName, now)).Ok?
    ensures r.Ok? ==>
      var p := DeviceRef(esp32Id).value;
      db.docs == old(db.docs)[p := old(db.docs)[p] + Binding(orgId, orgName, now)]
    ensures Untouched(old(db.docs), db.docs, DevicePaths(esp32Id))
    ensures r.Ok? && Truthy(orgId) && orgName.Str? && orgName.s != "" ==>
      forall m :: Lower(m) == Lower(orgName.s) ==> CheckEsp32IdAdvanced(db, esp32Id, Str(m)) == Ok(Joined(orgName.s))
  {
    var p := DeviceRef(esp32Id);
    if p.Fail? {
      return Fail(ASSIGN_FAILED);
    }
    var w := db.Update(p.value, Binding(orgId, orgName, now));
    if w.Fail? {
      return Fail(ASSIGN_FAILED);
    }
    UpdateTouchesOne(old(db.docs), p.value, old(db.docs)[p.value] + Binding(orgId, orgName, now));
    r := Ok(());
    if Truthy(orgId) && orgName.Str? && orgName.s != "" {
      var d := db.docs[p.value];
      assert At(d, "organizacionId") == orgId && At(d, "organizacionNombre") == orgName;
      forall m | Lower(m) == Lower(orgName.s)
        ensures CheckEsp32IdAdvanced(db, esp32Id, Str(m)) == Ok(Joined(orgName.s))
      {
        BoundDeviceJoinsCaseVariants(d, orgName.s, m, db.Collection([ORGS]));
      }
    }
  }

  /** The answer of `checkOrganizationExists`. */
  datatype Existence = Existence(orgExists: bool, orgName: Value)

  /** `checkOrganizationExists(esp32Id, organizationName)`: is there an
      organization whose `codigoRegistro` is exactly `esp32Id` and whose
      `nombre` is exactly the name? A missing argument makes the query
      throw. */
  function CheckOrganizationExists(db: Db, esp32Id: Value, organizationName: Value): (r: Result<Existence>)
    reads db
    ensures r.Fail? <==> esp32Id == Undefined || organizationName == Undefined
    ensures r.Fail? ==> r.err == EXISTS_FAILED
    ensures r.Ok? ==> (r.value.orgExists <==> exists x ::
                        (x in db.Collection([ORGS]) && At(x.data, "codigoRegistro") == esp32Id && At(x.data, "nombre") == organizationName))
    ensures r.Ok? && r.value.orgExists ==> r.value.orgName == organizationName
    ensures r.Ok? && !r.value.orgExists ==> r.value.orgName == Null
  {
    if esp32Id == Undefined || organizationName == Undefined then Fail(EXISTS_FAILED)
    else
      var hits := Where(Where(db.Collection([ORGS]), "codigoRegistro", esp32Id), "nombre", organizationName);
      if hits == [] then Ok(Existence(false, Null))
      else
        assert hits[0] in hits;
        Ok(Existence(true, At(hits[0].data, "nombre")))
  }

  /** `String(org.nombre || "")`, the sort key of `getAllOrganizations`. */
  function NameKey(row: Doc): string {
    ToJsString(Or(At(row, "nombre"), Str("")))
  }

  predicate NameLeq(x: Doc, y: Doc) {
    Leq(NameKey(x), NameKey(y))
  }

  predicate SortedByName(s: seq<Doc>) {
    forall i, j :: 0 <= i < j < |s| ==> NameLeq(s[i], s[j])
  }

  /** `s[..i + 1]` is ordered by name except at `j`, whose name is no
      larger than any after it: the state between two swaps of an insertion. */
  predicate Hole(s: seq<Doc>, j: nat, i: nat)
    requires j <= i < |s|
  {
    && (forall p, q :: 0 <= p < q <= i && p != j && q != j ==> NameLeq(s[p], s[q]))
    && (forall q :: j < q <= i ==> NameLeq(s[j], s[q]))
  }

  lemma SwapKeepsHole(s: seq<Doc>, j: nat, i: nat)
    requires 0 < j <= i < |s| && Hole(s, j, i) && !NameLeq(s[j - 1], s[j])
    ensures Hole(s[j - 1 := s[j]][j := s[j - 1]], j - 1, i)
  {
    LeqTotal(NameKey(s[j - 1]), NameKey(s[j]));
  }

  lemma HoleClosed(s: seq<Doc>, j: nat, i: nat)
    requires j <= i < |s| && Hole(s, j, i) && (j == 0 || NameLeq(s[j - 1], s[j]))
    ensures SortedByName(s[..i + 1])
  {
    forall p, q | 0 <= p < q <= i
      ensures NameLeq(s[p], s[q])
    {
      if q == j && p < j - 1 {
        LeqTransitive(NameKey(s[p]), NameKey(s[j - 1]), NameKey(s[j]));
      }
    }
  }

  lemma HoleOpened(s: seq<Doc>, i: nat)
    requires i < |s| && SortedByName(s[..i])
    ensures Hole(s, i, i)
  {
    forall p, q | 0 <= p < q <= i && p != i && q != i
      ensures NameLeq(s[p], s[q])
    {
      assert s[p] == s[..i][p] && s[q] == s[..i][q];
    }
  }

  lemma SwapPermutes(s: seq<Doc>, j: nat)
    requires 0 < j < |s|
    ensures multiset(s[j - 1 := s[j]][j := s[j - 1]]) == multiset(s)
  {
  }

  /** One step of insertion: `a[i]` moves left past the larger names until
      `a[..i + 1]` is ordered. */
  method InsertByName(a: array<Doc>, i: nat)
    requires i < a.Length && SortedByName(a[..i])
    modifies a
    ensures SortedByName(a[..i + 1])
    ensures multiset(a[..]) == multiset(old(a[..]))
  {
    var j := i;
    HoleOpened(a[..], i);
    while j > 0 && !NameLeq(a[j - 1], a[j])
      invariant 0 <= j <= i
      invariant multiset(a[..]) == multiset(old(a[..]))
      invariant Hole(a[..], j, i)
    {
      ghost var s := a[..];
      SwapKeepsHole(s, j, i);
      SwapPermutes(s, j);
      a[j - 1], a[j] := a[j], a[j - 1];
      assert a[..] == s[j - 1 := s[j]][j := s[j - 1]];
      j := j - 1;
    }
    HoleClosed(a[..], j, i);
  }

  /** `list.sort((a, b) => String(a.nombre || "").localeCompare(...))`, in
      place, by insertion. */
  method SortByName(a: array<Doc>)
    modifies a
    ensures SortedByName(a[..])
    ensures multiset(a[..]) == multiset(old(a[..]))
  {
    var i := 0;
    while i < a.Length
      invariant 0 <= i <= a.Length
      invariant SortedByName(a[..i])
      invariant multiset(a[..]) == multiset(old(a[..]))
    {
      InsertByName(a, i);
      i := i + 1;
    }
    assert a[..a.Length] == a[..];
  }

  /** `getAllOrganizations()`: every organization as `{ id, ...data }`,
      ordered by name with a missing name sorting as "". */
  method GetAllOrganizations(db: Db) returns (list: seq<Doc>)
    ensures multiset(list) == multiset(Rows(db.Collection([ORGS])))
    ensures SortedByName(list)
  {
    var rows := Rows(db.Collection([ORGS]));
    var a := new Doc[|rows|](i requires 0 <= i < |rows| => rows[i]);
    assert a[..] == rows;
    SortByName(a);
    list := a[..];
  }
}
