/**
 * The analyses of a patient, `patients/{patientId}/analyses/{analysisId}`:
 * creating one under a chosen or date-based id, listing them by `createdAt`, largest first,
 * reading, merging into and deleting one.
 */
module Analysis {
  import opened Text
  import opened Json
  import opened Store
  import opened Directory

  const PATIENT_ID_REQUIRED := "patientId requerido"
  const CREATE_FAILED := "Error al crear análisis."
  const GET_FAILED := "Error al obtener análisis."
  const UPDATE_FAILED := "Error al actualizar análisis."
  const DELETE_FAILED := "Error al eliminar análisis."
  /** Stand-in for the client library's message on a limit that is not a
      whole number. */
  const INVALID_LIMIT := "Value for argument \"limit\" is not a valid integer."
  const DEFAULT_LIMIT := 50

  // ---------------------------------------------------------------------
  // Ids

  /** `iso.replace(/[:.]/g, "_")`, applied to the ISO-8601 form of the
      clock. */
  function BuildDateIdUTC(iso: string): (r: string)
    ensures |r| == |iso|
    ensures forall i :: 0 <= i < |iso| ==> r[i] == if iso[i] == ':' || iso[i] == '.' then '_' else iso[i]
  {
    if iso == [] then []
    else [if iso[0] == ':' || iso[0] == '.' then '_' else iso[0]] + BuildDateIdUTC(iso[1..])
  }

  /** The date-based id holds no ':' or '.', and is a usable document id
      whenever the clock's text is non-empty and holds no '/'. */
  lemma DateIdShape(iso: string)
    ensures ':' !in BuildDateIdUTC(iso) && '.' !in BuildDateIdUTC(iso)
    ensures iso != [] && '/' !in iso ==> ValidSegment(BuildDateIdUTC(iso))
    ensures BuildDateIdUTC(BuildDateIdUTC(iso)) == BuildDateIdUTC(iso)
  {
    var r := BuildDateIdUTC(iso);
    assert forall i :: 0 <= i < |r| ==> r[i] != ':' && r[i] != '.';
    if iso != [] && '/' !in iso {
      assert forall i :: 0 <= i < |r| ==> r[i] != '/';
    }
  }

  /** `analysisData?.id || analysisData?.analysisId || buildDateIdUTC()`. */
  function DesiredId(data: Value, iso: string): (r: Value)
    ensures Truthy(Prop(data, "id")) ==> r == Prop(data, "id")
    ensures !Truthy(Prop(data, "id")) && Truthy(Prop(data, "analysisId")) ==> r == Prop(data, "analysisId")
    ensures !Truthy(Prop(data, "id")) && !Truthy(Prop(data, "analysisId")) ==> r == Str(BuildDateIdUTC(iso))
  {
    Or(Or(Prop(data, "id"), Prop(data, "analysisId")), Str(BuildDateIdUTC(iso)))
  }

  /** The id the new analysis is stored under: the desired id, or, when a
      document already has it, the desired id with "_" and `suffix` (what
      `Math.random().toString(36).slice(2, 6)` returned) appended, without
      checking the new id again. */
  function FinalId(docs: map<Path, Doc>, patientId: string, desired: string, suffix: string): (r: string)
    ensures AnalysisPath(patientId, desired) !in docs ==> r == desired
    ensures AnalysisPath(patientId, desired) in docs ==> r == desired + "_" + suffix && r != desired
  {
    if AnalysisPath(patientId, desired) in docs then desired + "_" + suffix else desired
  }

  // ---------------------------------------------------------------------
  // Creating

  /** What is stored: the input's fields with both timestamps set to the
      commit time. */
  function Payload(data: Value, now: int): (r: Doc)
    ensures r.Keys == Spread(data).Keys + {"createdAt", "updatedAt"}
    ensures r["createdAt"] == Time(now) && r["updatedAt"] == Time(now)
    ensures forall k :: k in Spread(data) && k != "createdAt" && k != "updatedAt" ==> r[k] == Spread(data)[k]
  {
    Spread(data) + map["createdAt" := Time(now), "updatedAt" := Time(now)]
  }

  /** `{ id: docRef.id, analysisId: docRef.id, ...payload }` as written: the
      payload's own `id` and `analysisId` win over the document's id. */
  function CreatedAsWritten(docId: string, payload: Doc): (r: Doc)
    ensures r.Keys == payload.Keys + {"id", "analysisId"}
    ensures "id" in payload ==> r["id"] == payload["id"]
    ensures "analysisId" in payload ==> r["analysisId"] == payload["analysisId"]
  {
    map["id" := Str(docId), "analysisId" := Str(docId)] + payload
  }

  /** A chosen id that collides is renamed, yet the reply made as written
      still names the old, colliding id. */
  lemma CreatedAsWrittenMisreportsRename()
    ensures var docId := FinalId(map[AnalysisPath("p1", "a1") := map[]], "p1", "a1", "x9k2");
      var out := CreatedAsWritten(docId, Payload(Obj(map["id" := Str("a1")]), 0));
      && docId == "a1_x9k2"
      && out["id"] == Str("a1")
      && out["id"] != Str(docId)
  {
    var docId := FinalId(map[AnalysisPath("p1", "a1") := map[]], "p1", "a1", "x9k2");
    assert docId == "a1_x9k2";
    var payload := Payload(Obj(map["id" := Str("a1")]), 0);
    assert payload["id"] == Str("a1");
  }

  /** The reply the service intends: the stored fields, with `id` and
      `analysisId` both the id of the document actually written. */
  function Created(docId: string, payload: Doc): (r: Doc)
    ensures r.Keys == payload.Keys + {"id", "analysisId"}
    ensures r["id"] == Str(docId) && r["analysisId"] == Str(docId)
    ensures forall k :: k in payload && k != "id" && k != "analysisId" ==> r[k] == payload[k]
  {
    payload + map["id" := Str(docId), "analysisId" := Str(docId)]
  }

  /** `createAnalysis(patientId, analysisData)`, with `iso` the clock as
      `toISOString()` prints it, `now` the commit time and `suffix` the
      random text of a rename. Every failure is reported as the same
      generic error. */
  method CreateAnalysis(db: Db, patientId: Value, data: Value, iso: string, now: int, suffix: string)
    returns (r: Result<Doc>)
    requires db.Valid()
    modifies db
    ensures db.Valid()
    ensures r.Fail? ==> r.err == Err(NoCode, CREATE_FAILED) && db.docs == old(db.docs) && db.order == old(db.order)
    ensures !Truthy(patientId) ==> r.Fail?
    ensures r.Ok? ==>
      && patientId.Str? && ValidSegment(patientId.s)
      && DesiredId(data, iso).Str?
      && var docId := FinalId(old(db.docs), patientId.s, DesiredId(data, iso).s, suffix);
      && ValidSegment(docId)
      && db.docs == old(db.docs)[AnalysisPath(patientId.s, docId) := Payload(data, now)]
      && db.order == Grow(old(db.order), AnalysisPath(patientId.s, docId))
      && r.value == Created(docId, Payload(data, now))
      && AnalysisById(db.docs, patientId, Str(docId)) == Ok(Obj(WithId(docId, Payload(data, now))))
    ensures var desired := DesiredId(data, iso);
      (&& patientId.Str? && ValidSegment(patientId.s) && desired.Str? && ValidSegment(desired.s)
       && ValidSegment(FinalId(old(db.docs), patientId.s, desired.s, suffix))
       && WriteCheck(db.faults, AnalysisPath(patientId.s, FinalId(old(db.docs), patientId.s, desired.s, suffix)), Payload(data, now)).Ok?)
      ==> r.Ok?
  {
    if !Truthy(patientId) || !patientId.Str? || !ValidSegment(patientId.s) {
      return Fail(Err(NoCode, CREATE_FAILED));
    }
    var payload := Payload(data, now);
    var desired := DesiredId(data, iso);
    if !desired.Str? || !ValidSegment(desired.s) {
      return Fail(Err(NoCode, CREATE_FAILED));
    }
    var docId := desired.s;
    var existing := db.Get(AnalysisPath(patientId.s, docId));
    if existing.Some? {
      docId := docId + "_" + suffix;
      if !ValidSegment(docId) {
        return Fail(Err(NoCode, CREATE_FAILED));
      }
    }
    assert docId == FinalId(db.docs, patientId.s, desired.s, suffix);
    var p := AnalysisPath(patientId.s, docId);
    assert ValidSegment(PATIENTS) && ValidSegment(ANALYSES);
    assert ValidDocPath(p);
    var w := db.Set(p, payload);
    if w.Fail? {
      return Fail(Err(NoCode, CREATE_FAILED));
    }
    WrittenAnalysisReads(old(db.docs), patientId.s, docId, payload);
    r := Ok(Created(docId, payload));
  }

  // ---------------------------------------------------------------------
  // Reading

  /** The path of one analysis once both ids are truthy, accepted strings. */
  function AnalysisRef(patientId: Value, analysisId: Value): (r: Option<Path>)
    ensures !Truthy(patientId) || !Truthy(analysisId) ==> r.None?
    ensures r.Some? <==> patientId.Str? && analysisId.Str? && ValidSegment(patientId.s) && ValidSegment(analysisId.s)
    ensures r.Some? ==> r.value == AnalysisPath(patientId.s, analysisId.s) && ValidDocPath(r.value)
  {
    if patientId.Str? && analysisId.Str? && ValidSegment(patientId.s) && ValidSegment(analysisId.s) then
      assert ValidSegment(PATIENTS) && ValidSegment(ANALYSES);
      Some(AnalysisPath(patientId.s, analysisId.s))
    else None
  }

  /** `getAnalysisById(patientId, analysisId)` over the documents `docs`:
      the analysis with its id, `null` when there is none. */
  function AnalysisById(docs: map<Path, Doc>, patientId: Value, analysisId: Value): (r: Result<Value>)
    ensures AnalysisRef(patientId, analysisId).None? <==> r.Fail?
    ensures r.Fail? ==> r.err == Err(NoCode, GET_FAILED)
    ensures r.Ok? ==>
      var p := AnalysisRef(patientId, analysisId).value;
      && (p !in docs ==> r.value == Null)
      && (p in docs ==> r.value == Obj(WithId(analysisId.s, docs[p])))
  {
    match AnalysisRef(patientId, analysisId)
    case None => Fail(Err(NoCode, GET_FAILED))
    case Some(p) => Ok(if p in docs then Obj(WithId(analysisId.s, docs[p])) else Null)
  }

  /** What was just written at an analysis's path is what reading it by
      its id returns. */
  lemma WrittenAnalysisReads(docs: map<Path, Doc>, patientId: string, docId: string, payload: Doc)
    requires ValidSegment(patientId) && ValidSegment(docId)
    ensures AnalysisById(docs[AnalysisPath(patientId, docId) := payload], Str(patientId), Str(docId))
      == Ok(Obj(WithId(docId, payload)))
  {
  }

  /** The page size `getAnalyses` asks for: 50 when none is given. */
  function PageSize(limit: Value): (r: Result<nat>)
    ensures limit.Undefined? ==> r == Ok(DEFAULT_LIMIT)
    ensures limit.Num? && limit.n >= 0 ==> r == Ok(limit.n)
    ensures !limit.Undefined? && !(limit.Num? && limit.n >= 0) ==> r.Fail?
  {
    if limit.Undefined? then Ok(DEFAULT_LIMIT)
    else if limit.Num? && limit.n >= 0 then Ok(limit.n)
    else Fail(Err(NoCode, INVALID_LIMIT))
  }

  function Take<T>(s: seq<T>, n: nat): (r: seq<T>)
    ensures |r| == if n < |s| then n else |s|
    ensures forall i :: 0 <= i < |r| ==> r[i] == s[i]
  {
    if n < |s| then s[..n] else s
  }

  /** `getAnalyses(patientId, limit)`: the analyses that hold a `createdAt`,
      of any type, largest first in `orderBy`'s value order, at most `limit` of them, each with its id.
      The `timestamp` fallback runs only when the first query throws, and
      with the same limit it throws again, so it never changes the
      outcome. */
  function GetAnalyses(db: Db, patientId: Value, limit: Value): (r: Result<seq<Doc>>)
    reads db
    ensures !Truthy(patientId) ==> r == Fail(Err(NoCode, PATIENT_ID_REQUIRED))
    ensures Truthy(patientId) && !(patientId.Str? && ValidSegment(patientId.s)) ==> r == Fail(Err(NoCode, INVALID_PATH))
    ensures r.Ok? ==>
      && patientId.Str? && ValidSegment(patientId.s) && PageSize(limit).Ok?
      && var listed := OrderByDesc(db.Collection(AnalysesPath(patientId.s)), "createdAt");
      && r.value == Rows(Take(listed, PageSize(limit).value))
      && AllHaveField(listed, "createdAt") && SortedDesc(listed, "createdAt")
      && |r.value| <= PageSize(limit).value
  {
    if !Truthy(patientId) then Fail(Err(NoCode, PATIENT_ID_REQUIRED))
    else if !(patientId.Str? && ValidSegment(patientId.s)) then Fail(Err(NoCode, INVALID_PATH))
    else
      match PageSize(limit)
      case Fail(e) => Fail(e)
      case Ok(n) =>
        var listed := OrderByDesc(db.Collection(AnalysesPath(patientId.s)), "createdAt");
        Ok(Rows(Take(listed, n)))
  }

  /** `getLatestAnalysis(patientId)`: the first analysis of a one-element
      page, `null` when there is none. */
  function GetLatestAnalysis(db: Db, patientId: Value): (r: Result<Value>)
    reads db
    ensures r.Fail? <==> GetAnalyses(db, patientId, Num(1)).Fail?
    ensures r.Ok? ==>
      var listed := OrderByDesc(db.Collection(AnalysesPath(patientId.s)), "createdAt");
      && (listed == [] ==> r.value == Null)
      && (listed != [] ==> r.value == Obj(WithId(listed[0].Id(), listed[0].data)))
  {
    match GetAnalyses(db, patientId, Num(1))
    case Fail(e) => Fail(e)
    case Ok(list) => Ok(if list == [] then Null else Obj(list[0]))
  }

  /** The latest analysis is one of the patient's analyses that hold a
      `createdAt`, and none of theirs holds a larger one in `orderBy`'s
      value order. */
  lemma LatestIsNewest(db: Db, patientId: string)
    requires ValidSegment(patientId)
    requires GetLatestAnalysis(db, Str(patientId)).Ok? && GetLatestAnalysis(db, Str(patientId)).value != Null
    ensures var all := db.Collection(AnalysesPath(patientId));
      exists i :: 0 <= i < |all| && HasField(all[i], "createdAt")
        && GetLatestAnalysis(db, Str(patientId)).value == Obj(WithId(all[i].Id(), all[i].data))
        && forall j :: 0 <= j < |all| && HasField(all[j], "createdAt") ==>
             ValueLeq(Key(all[j], "createdAt"), Key(all[i], "createdAt"))
  {
    var all := db.Collection(AnalysesPath(patientId));
    FirstIsNewest(all, "createdAt");
    var first := OrderByDesc(all, "createdAt")[0];
    var i :| 0 <= i < |all| && all[i] == first;
  }

  // ---------------------------------------------------------------------
  // Updating and deleting

  /** `{ ...partial, updatedAt }`. */
  function UpdateFields(partial: Value, now: int): (r: Doc)
    ensures r.Keys == Spread(partial).Keys + {"updatedAt"}
    ensures r["updatedAt"] == Time(now)
    ensures forall k :: k in Spread(partial) && k != "updatedAt" ==> r[k] == Spread(partial)[k]
  {
    Spread(partial) + map["updatedAt" := Time(now)]
  }

  /** `updateAnalysis(patientId, analysisId, partial)`: merges the partial
      and the update time into the analysis, creating it when missing, and
      returns what the document then holds, with its id. */
  method UpdateAnalysis(db: Db, patientId: Value, analysisId: Value, partial: Value, now: int)
    returns (r: Result<Doc>)
    requires db.Valid()
    modifies db
    ensures db.Valid()
    ensures r.Fail? ==> r.err == Err(NoCode, UPDATE_FAILED) && db.docs == old(db.docs) && db.order == old(db.order)
    ensures AnalysisRef(patientId, analysisId).None? ==> r.Fail?
    ensures var ref := AnalysisRef(patientId, analysisId);
      ref.Some? ==> (r.Ok? <==> WriteCheck(db.faults, ref.value, UpdateFields(partial, now)).Ok?)
    ensures r.Ok? ==>
      var p := AnalysisRef(patientId, analysisId).value;
      var merged := MergeDeep(if p in old(db.docs) then old(db.docs)[p] else map[], UpdateFields(partial, now));
      && db.docs == old(db.docs)[p := merged]
      && db.order == Grow(old(db.order), p)
      && merged["updatedAt"] == Time(now)
      && r.value == WithId(analysisId.s, merged)
      && AnalysisById(db.docs, patientId, analysisId) == Ok(Obj(r.value))
  {
    var ref := AnalysisRef(patientId, analysisId);
    if ref.None? {
      return Fail(Err(NoCode, UPDATE_FAILED));
    }
    var m := db.Merge(ref.value, UpdateFields(partial, now));
    if m.Fail? {
      return Fail(Err(NoCode, UPDATE_FAILED));
    }
    var snap := db.Get(ref.value);
    r := Ok(WithId(analysisId.s, snap.value));
  }

  /** `deleteAnalysis(patientId, analysisId)`: afterwards the analysis reads
      back as `null`. */
  method DeleteAnalysis(db: Db, patientId: Value, analysisId: Value) returns (r: Result<Doc>)
    requires db.Valid()
    modifies db
    ensures db.Valid()
    ensures r.Fail? ==> r.err == Err(NoCode, DELETE_FAILED) && db.docs == old(db.docs) && db.order == old(db.order)
    ensures AnalysisRef(patientId, analysisId).None? ==> r.Fail?
    ensures var ref := AnalysisRef(patientId, analysisId);
      ref.Some? ==> (r.Ok? <==> ref.value !in db.faults)
    ensures r.Ok? ==>
      && r.value == map["ok" := Bool(true)]
      && db.docs == old(db.docs) - {AnalysisRef(patientId, analysisId).value}
      && db.order == Without(old(db.order), AnalysisRef(patientId, analysisId).value)
      && AnalysisById(db.docs, patientId, analysisId) == Ok(Null)
  {
    var ref := AnalysisRef(patientId, analysisId);
    if ref.None? {
      return Fail(Err(NoCode, DELETE_FAILED));
    }
    var d := db.Delete(ref.value);
    if d.Fail? {
      return Fail(Err(NoCode, DELETE_FAILED));
    }
    r := Ok(map["ok" := Bool(true)]);
  }
}
