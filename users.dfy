/**
 * The role resolver: which role (doctor or patient) and which organization
 * a signed-in uid has. The `users/{uid}` document is a cache; when it does
 * not answer, the resolver looks for a doctor record (a collection-group
 * query, or a probe of every organization when that query throws), then for
 * a patient record, and repairs the cache with what it found.
 */
module Users {
  import opened Json
  import opened Store
  import opened Directory

  /** The answer of `getUserRoleAndOrg`. */
  datatype RoleInfo = RoleInfo(rol: string, organizacionId: Value)

  function UsersPath(uid: string): Path {
    [USERS, uid]
  }

  /** What the `users/{uid}` document answers by itself, if anything. */
  function CachedRole(u: Option<Doc>): (r: Option<RoleInfo>)
    ensures r.Some? <==> u.Some? && (At(u.value, "rol") == Str("doctor") || At(u.value, "rol") == Str("paciente"))
    ensures r.Some? ==> r.value.rol == At(u.value, "rol").s
    ensures r.Some? && r.value.rol == "doctor" ==> r.value.organizacionId == Or(At(u.value, "organizacionId"), Null)
    ensures r.Some? && r.value.rol == "paciente" ==> r.value.organizacionId == Null
  {
    match u
    case None => None
    case Some(d) =>
      if At(d, "rol") == Str("doctor") then Some(RoleInfo("doctor", Or(At(d, "organizacionId"), Null)))
      else if At(d, "rol") == Str("paciente") then Some(RoleInfo("paciente", Null))
      else None
  }

  /** The organization the doctor search finds for `uid`: path segment 1 of
      the first `doctores` document whose `uid` field is `uid`, or, when the
      collection-group query throws, the first organization holding
      `doctores/{uid}`. */
  function DoctorOrg(docs: map<Path, Doc>, order: seq<Path>, groupIndexMissing: set<string>, uid: string): (r: Option<string>)
    ensures DOCTORS !in groupIndexMissing && r.Some? ==>
      var sel := Select(order, docs, Family(DOCTORS));
      exists i :: 0 <= i < |sel| && At(sel[i].data, "uid") == Str(uid) && r.value == sel[i].path[1]
                    && (forall j :: 0 <= j < i ==> At(sel[j].data, "uid") != Str(uid))
    ensures DOCTORS !in groupIndexMissing && r.None? ==>
      forall x :: x in Select(order, docs, Family(DOCTORS)) ==> At(x.data, "uid") != Str(uid)
    ensures DOCTORS in groupIndexMissing ==>
      var orgs := CollectionOf(order, docs, [ORGS]);
      var i := FirstOrgHolding(docs, orgs, uid);
      (r.Some? <==> i.Some?) && (i.Some? ==> r.value == orgs[i.value].Id())
  {
    if DOCTORS !in groupIndexMissing then
      var sel := Select(order, docs, Family(DOCTORS));
      var hits := Where(sel, "uid", Str(uid));
      if hits == [] then None
      else
        WhereHead(sel, "uid", Str(uid));
        assert exists i :: 0 <= i < |sel| && hits[0] == sel[i] && At(sel[i].data, "uid") == Str(uid)
                           && (forall j :: 0 <= j < i ==> At(sel[j].data, "uid") != Str(uid));
        Some(hits[0].path[1])
    else
      var orgs := CollectionOf(order, docs, [ORGS]);
      match FirstOrgHolding(docs, orgs, uid)
      case Some(i) => Some(orgs[i].Id())
      case None => None
  }

  /** The answer of `getUserRoleAndOrg(uid)` on a store holding `docs`,
      enumerated in `order`: the cache first, then a doctor record, then a
      patient record, else nothing. */
  function ResolveRole(docs: map<Path, Doc>, order: seq<Path>, groupIndexMissing: set<string>, uid: string): (r: Option<RoleInfo>)
    ensures var cached := CachedRole(if UsersPath(uid) in docs then Some(docs[UsersPath(uid)]) else None);
      cached.Some? ==> r == cached
    ensures r.Some? ==> r.value.rol == "doctor" || r.value.rol == "paciente"
    ensures r.Some? && r.value.rol == "paciente" ==> r.value.organizacionId == Null
    ensures r.None? ==> [PATIENTS, uid] !in docs
    ensures var cached := CachedRole(if UsersPath(uid) in docs then Some(docs[UsersPath(uid)]) else None);
      var o := DoctorOrg(docs, order, groupIndexMissing, uid);
      && (cached.None? && o.Some? && o.value != "" ==> r == Some(RoleInfo("doctor", Str(o.value))))
      && (cached.None? && (o.None? || o.value == "") ==>
            (r.Some? <==> [PATIENTS, uid] in docs) && (r.Some? ==> r.value == RoleInfo("paciente", Null)))
  {
    var cached := CachedRole(if UsersPath(uid) in docs then Some(docs[UsersPath(uid)]) else None);
    if cached.Some? then cached
    else
      var o := DoctorOrg(docs, order, groupIndexMissing, uid);
      if o.Some? && o.value != "" then Some(RoleInfo("doctor", Str(o.value)))
      else if [PATIENTS, uid] in docs then Some(RoleInfo("paciente", Null))
      else None
  }

  /** The fields `safeCreateUsersDoc` merges into `users/{uid}`: nothing
      when the document already holds a different role, `creadoEn` only when
      the document is new. */
  function CacheEntry(existing: Option<Doc>, rol: string, orgId: Value, now: int): (r: Option<Doc>)
    ensures r.None? <==> existing.Some? && Truthy(At(existing.value, "rol")) && At(existing.value, "rol") != Str(rol)
    ensures r.Some? ==> At(r.value, "rol") == Str(rol) && At(r.value, "organizacionId") == Or(orgId, Null)
    ensures r.Some? ==> ("creadoEn" in r.value <==> existing.None?)
    ensures r.Some? ==> r.value.Keys <= {"rol", "organizacionId", "creadoEn"}
  {
    if existing.Some? && Truthy(At(existing.value, "rol")) && At(existing.value, "rol") != Str(rol) then None
    else
      var fields := map["rol" := Str(rol), "organizacionId" := Or(orgId, Null)];
      if existing.Some? then Some(fields) else Some(fields["creadoEn" := Time(now)])
  }

  /** The documents after `safeCreateUsersDoc(uid, { rol, organizacionId })`:
      a failed write is swallowed and leaves them as they were. */
  function Repair(docs: map<Path, Doc>, faults: set<Path>, uid: string, rol: string, orgId: Value, now: int): map<Path, Doc> {
    var p := UsersPath(uid);
    var existing := if p in docs then Some(docs[p]) else None;
    var e := CacheEntry(existing, rol, orgId, now);
    if e.Some? && WriteCheck(faults, p, e.value).Ok? then
      docs[p := MergeDeep(if p in docs then docs[p] else map[], e.value)]
    else docs
  }

  /** The repair touches `users/{uid}` only, never replaces a role the
      document already holds, and when it writes, the document then records
      the role and organization given. */
  lemma RepairIsWriteOnce(docs: map<Path, Doc>, faults: set<Path>, uid: string, rol: string, orgId: Value, now: int)
    ensures var docs' := Repair(docs, faults, uid, rol, orgId, now);
      var p := UsersPath(uid);
      && (docs' == docs || (p in docs' && docs' == docs[p := docs'[p]]))
      && (UsersPath(uid) in docs && Truthy(At(docs[p], "rol")) ==> At(docs'[p], "rol") == At(docs[p], "rol"))
      && (docs' != docs && !orgId.Obj? ==> At(docs'[p], "rol") == Str(rol) && At(docs'[p], "organizacionId") == Or(orgId, Null))
  {
  }

  /** What the repair leaves in `users/{uid}` depends on that document
      alone. */
  lemma RepairIsLocal(d1: map<Path, Doc>, d2: map<Path, Doc>, faults: set<Path>, uid: string, rol: string, orgId: Value, now: int)
    requires Entry(d1, UsersPath(uid)) == Entry(d2, UsersPath(uid))
    ensures Entry(Repair(d1, faults, uid, rol, orgId, now), UsersPath(uid))
         == Entry(Repair(d2, faults, uid, rol, orgId, now), UsersPath(uid))
  {
  }

  /** `safeCreateUsersDoc(uid, { rol, organizacionId })`. */
  method SafeCreateUsersDoc(db: Db, uid: string, rol: string, orgId: Value, now: int)
    requires db.Valid() && ValidSegment(uid)
    modifies db
    ensures db.Valid()
    ensures db.docs == Repair(old(db.docs), db.faults, uid, rol, orgId, now)
    ensures db.order == Track(old(db.order), db.docs, UsersPath(uid))
    ensures forall p :: p in old(db.docs) && p != UsersPath(uid) ==> p in db.docs && db.docs[p] == old(db.docs)[p]
    ensures Untouched(old(db.docs), db.docs, {UsersPath(uid)})
  {
    var p := UsersPath(uid);
    assert ValidSegment(USERS);
    var snap := db.Get(p);
    var e := CacheEntry(snap, rol, orgId, now);
    if e.None? {
      return;
    }
    var _ := db.Merge(p, e.value);
  }

  /** The doctor lookup of `getUserRoleAndOrg`: the first `doctores`
      document holding `uid` in the collection group, or, when that query
      needs a missing index, the first organization with a doctor record for
      `uid`. */
  method FindDoctorOrg(db: Db, uid: string) returns (r: Option<string>)
    ensures r == DoctorOrg(db.docs, db.order, db.groupIndexMissing, uid)
  {
    r := None;
    var group := db.Group(DOCTORS);
    if group.Ok? {
      var hits := Where(group.value, "uid", Str(uid));
      if hits != [] {
        assert hits[0] in hits;
        r := Some(hits[0].path[1]);
      }
    } else {
      var orgs, i := ProbeDoctorOrg(db, uid);
      if i.Some? {
        r := Some(orgs[i.value].Id());
      }
    }
  }

  /** `getUserRoleAndOrg(uid)`: the resolved role, with the cache repaired
      when the answer did not come from it; asking again then gives the same
      answer. Nothing it reads can fail here, so its generic error is never
      raised. */
  method GetUserRoleAndOrg(db: Db, uid: string, now: int) returns (r: Option<RoleInfo>)
    requires db.Valid() && ValidSegment(uid)
    modifies db
    ensures db.Valid()
    ensures r == ResolveRole(old(db.docs), old(db.order), db.groupIndexMissing, uid)
    ensures CachedRole(old(db.Get(UsersPath(uid)))).Some? || r.None? ==> db.docs == old(db.docs) && db.order == old(db.order)
    ensures CachedRole(old(db.Get(UsersPath(uid)))).None? && r.Some? ==>
      && db.docs == Repair(old(db.docs), db.faults, uid, r.value.rol, r.value.organizacionId, now)
      && db.order == Track(old(db.order), db.docs, UsersPath(uid))
    ensures ResolveRole(db.docs, db.order, db.groupIndexMissing, uid) == r
  {
    assert ValidSegment(USERS) && ValidSegment(PATIENTS);
    ghost var docs0, order0 := db.docs, db.order;
    var cached := CachedRole(db.Get(UsersPath(uid)));
    if cached.Some? {
      return cached;
    }
    var doctorOrgId := FindDoctorOrg(db, uid);
    if doctorOrgId.Some? && doctorOrgId.value != "" {
      SafeCreateUsersDoc(db, uid, "doctor", Str(doctorOrgId.value), now);
      ResolveAfterRepair(docs0, order0, db.groupIndexMissing, db.faults, uid, now);
      return Some(RoleInfo("doctor", Str(doctorOrgId.value)));
    }
    if db.Get([PATIENTS, uid]).Some? {
      SafeCreateUsersDoc(db, uid, "paciente", Null, now);
      ResolveAfterRepair(docs0, order0, db.groupIndexMissing, db.faults, uid, now);
      return Some(RoleInfo("paciente", Null));
    }
    return None;
  }

  /** A doctor registered under an existing organization is resolved as a
      doctor, even when a patient record exists too, as long as the cache
      does not say otherwise. */
  lemma RegisteredDoctorResolves(docs: map<Path, Doc>, order: seq<Path>, groupIndexMissing: set<string>, uid: string, org: string)
    requires forall p :: p in docs ==> ValidDocPath(p) && p in order
    requires [ORGS, org] in docs
    requires DoctorPath(org, uid) in docs && At(docs[DoctorPath(org, uid)], "uid") == Str(uid)
    requires CachedRole(if UsersPath(uid) in docs then Some(docs[UsersPath(uid)]) else None).None?
    ensures var r := ResolveRole(docs, order, groupIndexMissing, uid);
      r.Some? && r.value.rol == "doctor" && r.value.organizacionId.Str?
  {
    var o := DoctorOrg(docs, order, groupIndexMissing, uid);
    if DOCTORS !in groupIndexMissing {
      var x := Snap(DoctorPath(org, uid), docs[DoctorPath(org, uid)]);
      assert InScope(x.path, Family(DOCTORS));
      assert x in Select(order, docs, Family(DOCTORS));
      var y :| y in Select(order, docs, Family(DOCTORS)) && At(y.data, "uid") == Str(uid) && o.value == y.path[1];
      assert ValidDocPath(y.path);
    } else {
      var orgs := CollectionOf(order, docs, [ORGS]);
      assert InScope([ORGS, org], Children([ORGS]));
      var s := Snap([ORGS, org], docs[[ORGS, org]]);
      assert s in orgs;
      var k :| 0 <= k < |orgs| && orgs[k] == s;
      assert Holds(docs, orgs, uid, k);
      var i := FirstOrgHolding(docs, orgs, uid).value;
      assert ValidDocPath(orgs[i].path);
    }
  }

  /** The doctor search reads nothing a write to `users/{uid}` changes. */
  lemma DoctorOrgIgnoresUsers(docs: map<Path, Doc>, order: seq<Path>, groupIndexMissing: set<string>, uid: string, d: Doc)
    ensures DoctorOrg(docs[UsersPath(uid) := d], order, groupIndexMissing, uid) == DoctorOrg(docs, order, groupIndexMissing, uid)
    ensures DoctorOrg(docs, order + [UsersPath(uid)], groupIndexMissing, uid) == DoctorOrg(docs, order, groupIndexMissing, uid)
  {
    var p := UsersPath(uid);
    if DOCTORS !in groupIndexMissing {
      assert !InScope(p, Family(DOCTORS));
      SelectIgnores(order, docs, Family(DOCTORS), p, d);
    } else {
      assert p[..1] == [USERS];
      assert !InScope(p, Children([ORGS]));
      SelectIgnores(order, docs, Children([ORGS]), p, d);
      var orgs := CollectionOf(order, docs, [ORGS]);
      FirstOrgHoldingAgrees(docs[p := d], docs, orgs, uid);
    }
  }

  /** Resolving again after the repair gives the same answer: the repair
      only ever writes what the resolver found, and touches nothing a doctor
      or patient lookup reads. */
  lemma ResolveAfterRepair(docs: map<Path, Doc>, order: seq<Path>, groupIndexMissing: set<string>,
                           faults: set<Path>, uid: string, now: int)
    requires CachedRole(if UsersPath(uid) in docs then Some(docs[UsersPath(uid)]) else None).None?
    requires ResolveRole(docs, order, groupIndexMissing, uid).Some?
    ensures var info := ResolveRole(docs, order, groupIndexMissing, uid).value;
      var docs' := Repair(docs, faults, uid, info.rol, info.organizacionId, now);
      && ResolveRole(docs', order, groupIndexMissing, uid) == ResolveRole(docs, order, groupIndexMissing, uid)
      && ResolveRole(docs', order + [UsersPath(uid)], groupIndexMissing, uid) == ResolveRole(docs, order, groupIndexMissing, uid)
  {
    var info := ResolveRole(docs, order, groupIndexMissing, uid).value;
    var p := UsersPath(uid);
    var docs' := Repair(docs, faults, uid, info.rol, info.organizacionId, now);
    RepairIsWriteOnce(docs, faults, uid, info.rol, info.organizacionId, now);
    if docs' == docs {
      DoctorOrgIgnoresUsers(docs, order, groupIndexMissing, uid, map[]);
    } else {
      var d := docs'[p];
      assert info.organizacionId == Null || (info.organizacionId.Str? && info.organizacionId.s != "");
      assert CachedRole(Some(d)) == Some(info);
    }
  }
}
