/**
 * The recommendations attached to one analysis of a patient
 * (`patients/{patientId}/analyses/{analysisId}`): a structured block
 * (`personalRecommendations`: a treatment plan, upcoming check-ups and
 * goals) that is sanitised on every read and write, and the older flat list
 * of strings (`recomendaciones`) kept in step with it.
 */
module Recommendations {
  import opened Text
  import opened Json
  import opened Store
  import opened Directory

  const VALID_PRIORITIES: set<string> := {"primary", "success", "warning", "danger"}
  const VALID_ICONS: set<string> := {"Clipboard", "Activity", "Heart", "Settings", "User", "Stethoscope", "Pill", "Target"}

  const INVALID_ARG := "invalid-arg"
  const NOT_FOUND := "not-found"
  const ID_REQUIRED := Err(StrCode(INVALID_ARG), "id requerido")
  const PATIENT_ID_REQUIRED := Err(StrCode(INVALID_ARG), "patientId requerido")
  const ANALYSIS_NOT_FOUND := Err(StrCode(NOT_FOUND), "Cita/analysis no encontrada")
  const NO_ANALYSES := Err(StrCode(NOT_FOUND), "no-analyses-for-patient")
  const GET_FAILED := "Error al obtener recomendaciones."
  const SAVE_FAILED := "Error al guardar recomendaciones."
  const PATCH_FAILED := "Error al actualizar recomendaciones."
  const LATEST_FAILED := "Error al obtener última cita."

  /** The TypeError reading property `k` of `null` raises. */
  function NullRead(k: string): (r: Err)
    ensures r.code == NoCode
  {
    Err(NoCode, "Cannot read properties of null (reading '" + k + "')")
  }

  /** `ensureId(s)`: a non-empty string, or an "invalid-arg" error. */
  function EnsureId(s: Value): (r: Result<string>)
    ensures r.Ok? <==> s.Str? && s.s != ""
    ensures r.Ok? ==> r.value == s.s
    ensures r.Fail? ==> r.err == ID_REQUIRED && r.err.code == StrCode(INVALID_ARG)
  {
    if !Truthy(s) || !s.Str? then Fail(ID_REQUIRED) else Ok(s.s)
  }

  /** The errors every service method passes on as they are. */
  predicate Known(e: Err) {
    e.code == StrCode(NOT_FOUND) || e.code == StrCode(INVALID_ARG)
  }

  /** The catch block of every service method: a known error is rethrown,
      any other becomes the method's generic error. */
  function Rewrap(e: Err, generic: string): (r: Err)
    ensures Known(e) ==> r == e
    ensures !Known(e) ==> r == Err(NoCode, generic) && !Known(r)
  {
    if Known(e) then e else Err(NoCode, generic)
  }

  // ---------------------------------------------------------------------
  // Sanitising

  /** The three lists of the structured block. */
  datatype List = Plan | CheckUps | Goals

  function ListField(l: List): string {
    match l
    case Plan => "planTratamiento"
    case CheckUps => "proximasRevisiones"
    case Goals => "objetivos"
  }

  /** The fields a sanitised item of each list has, and no others. */
  function ItemKeys(l: List): set<string> {
    match l
    case Plan => {"id", "titulo", "subtitulo", "descripcion", "icon", "priority"}
    case CheckUps => {"id", "titulo", "subtitulo", "fecha", "hora"}
    case Goals => {"id", "titulo", "subtitulo", "icon"}
  }

  /** `allowed.has(v) ? v : fallback`. */
  function Pick(v: Value, allowed: set<string>, fallback: string): (r: Value)
    ensures v.Str? && v.s in allowed ==> r == v
    ensures !(v.Str? && v.s in allowed) ==> r == Str(fallback)
    ensures fallback in allowed ==> r.Str? && r.s in allowed
  {
    if v.Str? && v.s in allowed then v else Str(fallback)
  }

  /** One item as the sanitiser rewrites it; `freshId` is what
      `cryptoRandom()` would return. */
  function Item(l: List, it: Value, freshId: string): (r: Doc)
    ensures r.Keys == ItemKeys(l)
    ensures r["id"] == Or(Prop(it, "id"), Str(freshId))
    ensures r["titulo"] == Or(Prop(it, "titulo"), Str("")) && r["subtitulo"] == Or(Prop(it, "subtitulo"), Str(""))
    ensures l == Plan ==>
      && r["descripcion"] == Or(Prop(it, "descripcion"), Or(Prop(it, "texto"), Str("")))
      && r["icon"] == Pick(Prop(it, "icon"), VALID_ICONS, "Clipboard")
      && r["priority"] == Pick(Prop(it, "priority"), VALID_PRIORITIES, "primary")
    ensures l == CheckUps ==> r["fecha"] == Or(Prop(it, "fecha"), Str("")) && r["hora"] == Or(Prop(it, "hora"), Str(""))
    ensures l == Goals ==> r["icon"] == Pick(Prop(it, "icon"), VALID_ICONS, "Target")
  {
    var id := Or(Prop(it, "id"), Str(freshId));
    var title := Or(Prop(it, "titulo"), Str(""));
    var subtitle := Or(Prop(it, "subtitulo"), Str(""));
    match l
    case Plan =>
      map["id" := id, "titulo" := title, "subtitulo" := subtitle,
          "descripcion" := Or(Prop(it, "descripcion"), Or(Prop(it, "texto"), Str(""))),
          "icon" := Pick(Prop(it, "icon"), VALID_ICONS, "Clipboard"),
          "priority" := Pick(Prop(it, "priority"), VALID_PRIORITIES, "primary")]
    case CheckUps =>
      map["id" := id, "titulo" := title, "subtitulo" := subtitle,
          "fecha" := Or(Prop(it, "fecha"), Str("")), "hora" := Or(Prop(it, "hora"), Str(""))]
    case Goals =>
      map["id" := id, "titulo" := title, "subtitulo" := subtitle,
          "icon" := Pick(Prop(it, "icon"), VALID_ICONS, "Target")]
  }

  /** `cryptoRandom()` for the item at position `i` of list `l`: "id-"
      followed by random characters, which `rand` supplies. */
  function FreshId(rand: (List, nat) -> string, l: List, i: nat): (r: string)
    ensures r != ""
  {
    "id-" + rand(l, i)
  }

  /** The list `l` of a block, as an array's items. */
  function ListOf(pr: Value, l: List): seq<Value> {
    var v := Prop(pr, ListField(l));
    if v.Arr? then v.items else []
  }

  /** Some element is `null`. */
  predicate HasNull(items: seq<Value>) {
    exists i :: 0 <= i < |items| && items[i].Null?
  }

  /** The list of `pr` named by `l`, with each item rewritten (`[]` when it
      is not an array). A `null` item makes the rewrite throw; `undefined`
      counts as `{}`. */
  function Items(l: List, pr: Value, rand: (List, nat) -> string): (r: Result<seq<Value>>)
    ensures var items := ListOf(pr, l);
      && (r.Fail? <==> HasNull(items))
      && (r.Ok? ==> |r.value| == |items|)
      && (r.Ok? ==> forall i :: 0 <= i < |items| ==> r.value[i] == Obj(Item(l, items[i], FreshId(rand, l, i))))
    ensures r.Fail? ==> r.err == NullRead("id") && !Known(r.err)
  {
    var items := ListOf(pr, l);
    if HasNull(items) then Fail(NullRead("id"))
    else Ok(seq(|items|, i requires 0 <= i < |items| => Obj(Item(l, items[i], FreshId(rand, l, i)))))
  }

  /** The fields of a sanitised block. */
  const BLOCK_KEYS: set<string> := {"planTratamiento", "proximasRevisiones", "objetivos", "status", "message", "timestamp"}

  /** `sanitizePersonalRecommendations(pr)`, with `now` the reading of
      `Date.now()`. */
  function Sanitize(pr: Value, rand: (List, nat) -> string, now: int): (r: Result<Value>)
    ensures pr.Null? ==> r == Fail(NullRead("planTratamiento"))
    ensures r.Fail? ==> !Known(r.err)
    ensures r.Ok? ==> r.value.Obj? && r.value.fields.Keys == BLOCK_KEYS
  {
    if pr.Null? then Fail(NullRead("planTratamiento"))
    else
      match Items(Plan, pr, rand)
      case Fail(e) => Fail(e)
      case Ok(plan) =>
        match Items(CheckUps, pr, rand)
        case Fail(e) => Fail(e)
        case Ok(checkUps) =>
          match Items(Goals, pr, rand)
          case Fail(e) => Fail(e)
          case Ok(goals) =>
            Ok(Obj(map[
              "planTratamiento" := Arr(plan),
              "proximasRevisiones" := Arr(checkUps),
              "objetivos" := Arr(goals),
              "status" := if Prop(pr, "status").Str? then Prop(pr, "status") else Str("success"),
              "message" := if Prop(pr, "message").Str? then Prop(pr, "message") else Str(""),
              "timestamp" := if NumOrStr(Prop(pr, "timestamp")) then Prop(pr, "timestamp") else Num(now)]))
  }

  /** What holds of every item the sanitiser returns (`o`) for an input
      item `it`: an object with exactly its list's fields and a non-empty
      id, whose icon and priority are among the allowed ones, kept when
      they already were and the list's default otherwise. */
  predicate SanitizedItem(l: List, it: Value, o: Value) {
    && o.Obj? && o.fields.Keys == ItemKeys(l) && Truthy(o.fields["id"])
    && (l != CheckUps ==> o.fields["icon"].Str? && o.fields["icon"].s in VALID_ICONS)
    && (l == Plan ==> o.fields["priority"].Str? && o.fields["priority"].s in VALID_PRIORITIES)
    && (l == Plan ==> o.fields["icon"] == Pick(Prop(it, "icon"), VALID_ICONS, "Clipboard"))
    && (l == Plan ==> o.fields["priority"] == Pick(Prop(it, "priority"), VALID_PRIORITIES, "primary"))
    && (l == Goals ==> o.fields["icon"] == Pick(Prop(it, "icon"), VALID_ICONS, "Target"))
  }

  /** What sanitising promises: each list keeps its length and every item
      is sanitised; a status that is not a string becomes "success", a
      message that is not a string "", and a timestamp that is neither a
      number nor a string the current time. */
  lemma SanitizeShape(pr: Value, rand: (List, nat) -> string, now: int, l: List)
    requires Sanitize(pr, rand, now).Ok?
    ensures var out := Sanitize(pr, rand, now).value;
      && |ListOf(out, l)| == |ListOf(pr, l)|
      && forall i :: 0 <= i < |ListOf(pr, l)| ==> SanitizedItem(l, ListOf(pr, l)[i], ListOf(out, l)[i])
    ensures var out := Sanitize(pr, rand, now).value.fields;
      && out["status"] == (if Prop(pr, "status").Str? then Prop(pr, "status") else Str("success"))
      && out["message"] == (if Prop(pr, "message").Str? then Prop(pr, "message") else Str(""))
      && out["timestamp"] == (if NumOrStr(Prop(pr, "timestamp")) then Prop(pr, "timestamp") else Num(now))
  {
    var out := Sanitize(pr, rand, now).value;
    var items := Items(l, pr, rand);
    assert ListOf(out, l) == items.value;
    forall i | 0 <= i < |ListOf(pr, l)|
      ensures SanitizedItem(l, ListOf(pr, l)[i], ListOf(out, l)[i])
    {
      var o := Item(l, ListOf(pr, l)[i], FreshId(rand, l, i));
      assert ListOf(out, l)[i] == Obj(o);
    }
  }

  /** `x || ""` applied twice is applied once. */
  lemma OrEmptyIdempotent(v: Value)
    ensures Or(Or(v, Str("")), Str("")) == Or(v, Str(""))
  {
  }

  /** Rewriting an item that was already rewritten gives it back. */
  lemma ItemIdempotent(l: List, it: Value, freshId: string, freshId': string)
    requires freshId != ""
    ensures Item(l, Obj(Item(l, it, freshId)), freshId') == Item(l, it, freshId)
  {
    var once := Item(l, it, freshId);
    var o := Obj(once);
    var twice := Item(l, o, freshId');
    assert Truthy(once["id"]);
    assert twice["id"] == once["id"];
    OrEmptyIdempotent(Prop(it, "titulo"));
    OrEmptyIdempotent(Prop(it, "subtitulo"));
    assert twice["titulo"] == once["titulo"] && twice["subtitulo"] == once["subtitulo"];
    match l
    case Plan =>
      assert Prop(o, "texto") == Undefined;
      assert twice["descripcion"] == once["descripcion"];
      assert twice["icon"] == once["icon"] && twice["priority"] == once["priority"];
    case CheckUps =>
      OrEmptyIdempotent(Prop(it, "fecha"));
      OrEmptyIdempotent(Prop(it, "hora"));
      assert twice["fecha"] == once["fecha"] && twice["hora"] == once["hora"];
    case Goals =>
      assert twice["icon"] == once["icon"];
  }

  /** A list that was already sanitised is left as it is. */
  lemma ItemsIdempotent(l: List, pr: Value, out: Value, rand: (List, nat) -> string, rand': (List, nat) -> string)
    requires Items(l, pr, rand).Ok?
    requires Prop(out, ListField(l)) == Arr(Items(l, pr, rand).value)
    ensures Items(l, out, rand') == Items(l, pr, rand)
  {
    var once := Items(l, pr, rand).value;
    var items := ListOf(pr, l);
    assert ListOf(out, l) == once;
    forall i | 0 <= i < |once|
      ensures Obj(Item(l, once[i], FreshId(rand', l, i))) == once[i]
    {
      ItemIdempotent(l, items[i], FreshId(rand, l, i), FreshId(rand', l, i));
    }
    assert forall i :: 0 <= i < |once| ==> once[i].Obj?;
    assert Items(l, out, rand').Ok?;
    var twice := Items(l, out, rand').value;
    assert |twice| == |once|;
    assert forall i :: 0 <= i < |once| ==> twice[i] == once[i];
    assert twice == once;
  }

  /** Sanitising a sanitised block gives it back, whatever the clock and
      the random ids say the second time. */
  lemma SanitizeIdempotent(pr: Value, rand: (List, nat) -> string, rand': (List, nat) -> string, now: int, now': int)
    requires Sanitize(pr, rand, now).Ok?
    ensures Sanitize(Sanitize(pr, rand, now).value, rand', now') == Sanitize(pr, rand, now)
  {
    var out := Sanitize(pr, rand, now).value;
    ItemsIdempotent(Plan, pr, out, rand, rand');
    ItemsIdempotent(CheckUps, pr, out, rand, rand');
    ItemsIdempotent(Goals, pr, out, rand, rand');
    var again := Sanitize(out, rand', now').value;
    assert again.fields.Keys == out.fields.Keys;
    forall k | k in out.fields
      ensures again.fields[k] == out.fields[k]
    {
    }
  }

  // ---------------------------------------------------------------------
  // The flat list

  /** `it?.titulo || it?.descripcion || it?.subtitulo || it?.texto`. */
  function Label(it: Value): Value {
    Or(Or(Or(Prop(it, "titulo"), Prop(it, "descripcion")), Prop(it, "subtitulo")), Prop(it, "texto"))
  }

  /** `s.filter(Boolean)`. */
  function Truthies(s: seq<Value>): (r: seq<Value>)
    ensures |r| <= |s|
    ensures forall x :: x in r <==> x in s && Truthy(x)
    ensures (forall i :: 0 <= i < |s| ==> Truthy(s[i])) ==> r == s
  {
    if s == [] then []
    else if Truthy(s[0]) then [s[0]] + Truthies(s[1..])
    else Truthies(s[1..])
  }

  /** `fromPersonalToLegacyStrings(pr)`: the label of every plan item that
      has one, in plan order. */
  function LegacyStrings(pr: Value): (r: seq<Value>)
    ensures !Truthy(pr) || !Prop(pr, ListField(Plan)).Arr? ==> r == []
    ensures |r| <= |ListOf(pr, Plan)|
    ensures forall i :: 0 <= i < |r| ==> Truthy(r[i])
    ensures forall x :: x in r <==> Truthy(x) && exists i :: 0 <= i < |ListOf(pr, Plan)| && Label(ListOf(pr, Plan)[i]) == x
  {
    if !Truthy(pr) || !Prop(pr, ListField(Plan)).Arr? then []
    else
      var plan := ListOf(pr, Plan);
      var labels := seq(|plan|, i requires 0 <= i < |plan| => Label(plan[i]));
      assert forall i :: 0 <= i < |labels| ==> labels[i] == Label(plan[i]);
      Truthies(labels)
  }

  /** A plan whose every item has a title yields exactly the titles. */
  lemma LegacyTitles(pr: Value)
    requires Truthy(pr) && Prop(pr, ListField(Plan)).Arr?
    requires forall i :: 0 <= i < |ListOf(pr, Plan)| ==> Truthy(Prop(ListOf(pr, Plan)[i], "titulo"))
    ensures LegacyStrings(pr) == seq(|ListOf(pr, Plan)|, i requires 0 <= i < |ListOf(pr, Plan)| => Prop(ListOf(pr, Plan)[i], "titulo"))
  {
    var plan := ListOf(pr, Plan);
    var labels := seq(|plan|, i requires 0 <= i < |plan| => Label(plan[i]));
    assert forall i :: 0 <= i < |plan| ==> labels[i] == Prop(plan[i], "titulo");
  }

  // ---------------------------------------------------------------------
  // Reading

  /** The path of the analysis the recommendations belong to, once both ids
      passed `ensureId`; an id Firestore cannot use as a document id makes
      building the reference throw. */
  function AnalysisRef(patientId: Value, analysisId: Value): (r: Result<Path>)
    ensures EnsureId(patientId).Fail? || EnsureId(analysisId).Fail? ==> r == Fail(ID_REQUIRED)
    ensures r.Ok? <==> EnsureId(patientId).Ok? && EnsureId(analysisId).Ok? && ValidSegment(patientId.s) && ValidSegment(analysisId.s)
    ensures r.Ok? ==> r.value == AnalysisPath(patientId.s, analysisId.s) && ValidDocPath(r.value)
    ensures r.Fail? && !Known(r.err) ==> r.err == Err(NoCode, INVALID_PATH)
  {
    match EnsureId(patientId)
    case Fail(e) => Fail(e)
    case Ok(pid) =>
      match EnsureId(analysisId)
      case Fail(e) => Fail(e)
      case Ok(aid) =>
        if ValidSegment(pid) && ValidSegment(aid) then
          assert ValidSegment(PATIENTS) && ValidSegment(ANALYSES);
          Ok(AnalysisPath(pid, aid))
        else Fail(Err(NoCode, INVALID_PATH))
  }

  /** The stored `personalRecommendations`, sanitised (an absent one as `{}`). */
  function Personal(data: Doc, rand: (List, nat) -> string, now: int): Result<Value> {
    var pr := At(data, "personalRecommendations");
    Sanitize(if Truthy(pr) then pr else Obj(map[]), rand, now)
  }

  /** `rec` is the read shape built from the analysis document `data` and
      its block `personal`: exactly five keys, the stored non-empty legacy
      list or else the one derived from the block, the stored status and
      timestamp over the block's, and the details defaulting to []. */
  ghost predicate ReadShape(data: Doc, personal: Value, rec: Doc) {
    var stored := At(data, "recomendaciones");
    && rec.Keys == {"recomendaciones", "status", "timestamp", "recomendacionesDetalle", "personalRecommendations"}
    && At(rec, "personalRecommendations") == personal
    && (stored.Arr? && stored.items != [] ==> At(rec, "recomendaciones") == stored)
    && (!(stored.Arr? && stored.items != []) ==> At(rec, "recomendaciones") == Arr(LegacyStrings(personal)))
    && At(rec, "status") == (if At(data, "status").Str? then At(data, "status") else Prop(personal, "status"))
    && At(rec, "timestamp") == Or(At(data, "timestamp"), Prop(personal, "timestamp"))
    && At(rec, "recomendacionesDetalle") ==
         (if At(data, "recomendacionesDetalle").Arr? then At(data, "recomendacionesDetalle") else Arr([]))
  }

  /** The five-key record the read assembles from `data` and its block. */
  function ReadRecord(data: Doc, personal: Value): (rec: Doc)
    ensures ReadShape(data, personal, rec)
  {
    var stored := At(data, "recomendaciones");
    map[
      "recomendaciones" := if stored.Arr? && stored.items != [] then stored else Arr(LegacyStrings(personal)),
      "status" := if At(data, "status").Str? then At(data, "status") else Prop(personal, "status"),
      "timestamp" := Or(At(data, "timestamp"), Prop(personal, "timestamp")),
      "recomendacionesDetalle" := if At(data, "recomendacionesDetalle").Arr? then At(data, "recomendacionesDetalle") else Arr([]),
      "personalRecommendations" := personal]
  }

  /** The record `getRecommendations` returns for the analysis document
      `data`, before any error handling. */
  function Recommended(data: Doc, rand: (List, nat) -> string, now: int): (r: Result<Doc>)
    ensures r.Fail? <==> Personal(data, rand, now).Fail?
    ensures r.Fail? ==> !Known(r.err)
    ensures r.Ok? ==> ReadShape(data, Personal(data, rand, now).value, r.value)
  {
    match Personal(data, rand, now)
    case Fail(e) => Fail(e)
    case Ok(personal) => Ok(ReadRecord(data, personal))
  }

  /** `getRecommendations(patientId, analysisId)`. */
  function GetRecommendations(db: Db, patientId: Value, analysisId: Value, rand: (List, nat) -> string, now: int): (r: Result<Doc>)
    reads db
    ensures EnsureId(patientId).Fail? || EnsureId(analysisId).Fail? ==> r == Fail(ID_REQUIRED)
    ensures AnalysisRef(patientId, analysisId).Ok? && AnalysisRef(patientId, analysisId).value !in db.docs ==>
      r == Fail(ANALYSIS_NOT_FOUND)
    ensures AnalysisRef(patientId, analysisId).Ok? && AnalysisRef(patientId, analysisId).value in db.docs ==>
      r == match Recommended(db.docs[AnalysisRef(patientId, analysisId).value], rand, now)
           case Ok(d) => Ok(d)
           case Fail(_) => Fail(Err(NoCode, GET_FAILED))
    ensures r.Fail? ==> Known(r.err) || r.err == Err(NoCode, GET_FAILED)
  {
    var raw :=
      match AnalysisRef(patientId, analysisId)
      case Fail(e) => Fail(e)
      case Ok(p) =>
        match db.Get(p)
        case None => Fail(ANALYSIS_NOT_FOUND)
        case Some(data) => Recommended(data, rand, now);
    match raw
    case Ok(d) => Ok(d)
    case Fail(e) => Fail(Rewrap(e, GET_FAILED))
  }

  // ---------------------------------------------------------------------
  // Writing

  /** The fields a save or a patch may write. */
  const WRITE_KEYS: set<string> := {
    "recomendaciones", "recomendacionesDetalle", "personalRecommendations",
    "status", "timestamp", "personalRecommendationsUpdatedAt"
  }

  /** Every field of a sanitised block is a list, a string or a number,
      never a nested object. */
  lemma BlockIsFlat(pr: Value, rand: (List, nat) -> string, now: int)
    requires Sanitize(pr, rand, now).Ok?
    ensures forall k :: k in BLOCK_KEYS ==> !Sanitize(pr, rand, now).value.fields[k].Obj?
  {
  }

  /** Rewriting a list reads nothing but that list. */
  lemma ItemsReadsList(l: List, a: Value, b: Value, rand: (List, nat) -> string)
    requires Prop(a, ListField(l)) == Prop(b, ListField(l))
    ensures Items(l, a, rand) == Items(l, b, rand)
  {
    var x := Items(l, a, rand);
    var y := Items(l, b, rand);
    assert ListOf(a, l) == ListOf(b, l);
    if x.Ok? {
      assert |x.value| == |y.value|;
      assert forall i :: 0 <= i < |x.value| ==> x.value[i] == y.value[i];
    }
  }

  /** Sanitising reads nothing but the six fields of the block. */
  lemma SanitizeReadsBlock(a: Value, b: Value, rand: (List, nat) -> string, now: int)
    requires a.Obj? && b.Obj?
    requires forall k :: k in BLOCK_KEYS ==> Prop(a, k) == Prop(b, k)
    ensures Sanitize(a, rand, now) == Sanitize(b, rand, now)
  {
    assert Prop(a, "planTratamiento") == Prop(b, "planTratamiento");
    assert Prop(a, "proximasRevisiones") == Prop(b, "proximasRevisiones");
    assert Prop(a, "objetivos") == Prop(b, "objetivos");
    assert Prop(a, "status") == Prop(b, "status");
    assert Prop(a, "message") == Prop(b, "message");
    assert Prop(a, "timestamp") == Prop(b, "timestamp");
    ItemsReadsList(Plan, a, b, rand);
    ItemsReadsList(CheckUps, a, b, rand);
    ItemsReadsList(Goals, a, b, rand);
  }

  /** Merging a flat block over an object leaves what sanitising reads as
      it is. */
  lemma FlatBlockSurvivesMerge(under: Doc, block: Value, rand: (List, nat) -> string, now: int)
    requires block.Obj? && block.fields.Keys == BLOCK_KEYS
    requires forall k :: k in BLOCK_KEYS ==> !block.fields[k].Obj?
    ensures Sanitize(Obj(MergeDeep(under, block.fields)), rand, now) == Sanitize(block, rand, now)
  {
    var m := MergeDeep(under, block.fields);
    assert forall k :: k in BLOCK_KEYS ==> m[k] == block.fields[k];
    SanitizeReadsBlock(Obj(m), block, rand, now);
  }

  /** A stored sanitised block survives a merge into any document and reads
      back as it is. */
  lemma BlockSurvivesMerge(old_: Doc, w: Doc, pr0: Value, rand0: (List, nat) -> string, now0: int,
                           rand: (List, nat) -> string, now: int)
    requires Sanitize(pr0, rand0, now0).Ok?
    requires "personalRecommendations" in w && w["personalRecommendations"] == Sanitize(pr0, rand0, now0).value
    ensures Personal(MergeDeep(old_, w), rand, now) == Ok(w["personalRecommendations"])
  {
    var block := w["personalRecommendations"];
    var merged := At(MergeDeep(old_, w), "personalRecommendations");
    SanitizeIdempotent(pr0, rand0, rand, now0, now);
    if "personalRecommendations" in old_ && old_["personalRecommendations"].Obj? {
      assert merged == Obj(MergeDeep(old_["personalRecommendations"].fields, block.fields));
      BlockIsFlat(pr0, rand0, now0);
      FlatBlockSurvivesMerge(old_["personalRecommendations"].fields, block, rand, now);
    } else {
      assert merged == block;
    }
  }

  /** A block as sanitising leaves its status and timestamp, or no block
      (`undefined`). */
  predicate BlockOrNone(pr: Value) {
    pr.Undefined? ||
    (pr.Obj? && "status" in pr.fields && pr.fields["status"].Str? && "timestamp" in pr.fields && NumOrStr(pr.fields["timestamp"]))
  }

  /** The fields `saveRecommendations` writes for `payload`, with `pr` the
      sanitised block or `undefined` when the payload gives none. */
  function SaveFields(payload: Value, pr: Value, now: int, iso: string): (r: Doc)
    requires BlockOrNone(pr)
    ensures {"recomendaciones", "status", "timestamp", "personalRecommendationsUpdatedAt"} <= r.Keys <= WRITE_KEYS
    ensures "personalRecommendations" in r <==> pr.Obj?
    ensures pr.Obj? ==> r["personalRecommendations"] == pr
    ensures "recomendacionesDetalle" in r <==> Prop(payload, "recomendacionesDetalle").Arr?
    ensures "recomendacionesDetalle" in r ==> r["recomendacionesDetalle"] == Prop(payload, "recomendacionesDetalle")
    ensures r["recomendaciones"].Arr?
    ensures Prop(payload, "recomendaciones").Arr? ==> r["recomendaciones"] == Prop(payload, "recomendaciones")
    ensures !Prop(payload, "recomendaciones").Arr? && pr.Obj? ==> r["recomendaciones"] == Arr(LegacyStrings(pr))
    ensures !Prop(payload, "recomendaciones").Arr? && !pr.Obj? ==> r["recomendaciones"] == Arr([])
    ensures r["status"].Str?
    ensures Prop(payload, "status").Str? ==> r["status"] == Prop(payload, "status")
    ensures NumOrStr(r["timestamp"])
    ensures NumOrStr(Prop(payload, "timestamp")) ==> r["timestamp"] == Prop(payload, "timestamp")
    ensures r["personalRecommendationsUpdatedAt"] == Num(now)
  {
    var recs := Prop(payload, "recomendaciones");
    var detail := Prop(payload, "recomendacionesDetalle");
    var base := map[
      "recomendaciones" := if recs.Arr? then recs else if Truthy(pr) then Arr(LegacyStrings(pr)) else Arr([]),
      "status" := if Prop(payload, "status").Str? then Prop(payload, "status") else Or(Prop(pr, "status"), Str("success")),
      "timestamp" := if NumOrStr(Prop(payload, "timestamp")) then Prop(payload, "timestamp")
                     else Or(Prop(pr, "timestamp"), Str(iso)),
      "personalRecommendationsUpdatedAt" := Num(now)];
    var withDetail := if detail.Arr? then base["recomendacionesDetalle" := detail] else base;
    if Truthy(pr) then withDetail["personalRecommendations" := pr] else withDetail
  }

  /** The document `saveRecommendations` merges for `payload` (an absent
      payload counts as `{}`); `now` is `Date.now()` and `iso` the same
      instant as `new Date().toISOString()`. */
  function SaveWrite(payload: Value, rand: (List, nat) -> string, now: int, iso: string): (r: Result<Doc>)
    ensures var given := Prop(payload, "personalRecommendations");
      r.Fail? <==> payload.Null? || (Truthy(given) && Sanitize(given, rand, now).Fail?)
    ensures r.Fail? ==> !Known(r.err)
    ensures var given := Prop(payload, "personalRecommendations");
      r.Ok? && Truthy(given) ==> r.value == SaveFields(payload, Sanitize(given, rand, now).value, now, iso)
    ensures var given := Prop(payload, "personalRecommendations");
      r.Ok? && !Truthy(given) ==> r.value == SaveFields(payload, Undefined, now, iso)
  {
    if payload.Null? then Fail(NullRead("personalRecommendations"))
    else
      var given := Prop(payload, "personalRecommendations");
      if !Truthy(given) then Ok(SaveFields(payload, Undefined, now, iso))
      else
        match Sanitize(given, rand, now)
        case Fail(e) => Fail(e)
        case Ok(pr) =>
          SanitizeShape(given, rand, now, Plan);
          Ok(SaveFields(payload, pr, now, iso))
  }

  /** A saved or patched block, status and non-empty flat list are what a
      later read of the analysis returns. */
  lemma WrittenReadsBack(old_: Doc, w: Doc, pr0: Value, rand0: (List, nat) -> string, now0: int,
                         rand: (List, nat) -> string, now: int)
    requires Sanitize(pr0, rand0, now0).Ok?
    requires "personalRecommendations" in w && w["personalRecommendations"] == Sanitize(pr0, rand0, now0).value
    requires "status" in w && w["status"].Str?
    ensures var r := Recommended(MergeDeep(old_, w), rand, now);
      && r.Ok?
      && r.value["personalRecommendations"] == w["personalRecommendations"]
      && r.value["status"] == w["status"]
      && ("recomendaciones" in w && w["recomendaciones"].Arr? && w["recomendaciones"].items != [] ==>
            r.value["recomendaciones"] == w["recomendaciones"])
  {
    BlockSurvivesMerge(old_, w, pr0, rand0, now0, rand, now);
  }

  /** A read that returns the block and the status `w` wrote. */
  predicate ReadsBack(read: Result<Doc>, w: Doc) {
    && read.Ok?
    && "personalRecommendations" in read.value && "personalRecommendations" in w
    && read.value["personalRecommendations"] == w["personalRecommendations"]
    && "status" in read.value && "status" in w
    && read.value["status"] == w["status"]
  }

  /** `saveRecommendations(patientId, analysisId, payload)`. */
  method SaveRecommendations(db: Db, patientId: Value, analysisId: Value, payload: Value,
                             rand: (List, nat) -> string, now: int, iso: string) returns (r: Result<Doc>)
    requires db.Valid()
    modifies db
    ensures db.Valid()
    ensures db.order == old(db.order)
    ensures EnsureId(patientId).Fail? || EnsureId(analysisId).Fail? ==> r == Fail(ID_REQUIRED)
    ensures var ref := AnalysisRef(patientId, analysisId);
      ref.Ok? && ref.value !in old(db.docs) ==> r == Fail(ANALYSIS_NOT_FOUND)
    ensures r.Fail? ==> db.docs == old(db.docs)
    ensures r.Fail? ==> Known(r.err) || r.err == Err(NoCode, SAVE_FAILED)
    ensures var ref := AnalysisRef(patientId, analysisId);
      var w := SaveWrite(payload, rand, now, iso);
      r.Ok? <==> ref.Ok? && ref.value in old(db.docs) && w.Ok? && WriteCheck(db.faults, ref.value, w.value).Ok?
    ensures r.Ok? ==>
      var p := AnalysisRef(patientId, analysisId).value;
      && r == SaveWrite(payload, rand, now, iso)
      && db.docs == old(db.docs)[p := MergeDeep(old(db.docs)[p], r.value)]
    ensures r.Ok? && Truthy(Prop(payload, "personalRecommendations")) ==>
      ReadsBack(GetRecommendations(db, patientId, analysisId, rand, now), r.value)
  {
    var ref := AnalysisRef(patientId, analysisId);
    if ref.Fail? {
      return Fail(Rewrap(ref.err, SAVE_FAILED));
    }
    var snap := db.Get(ref.value);
    if snap.None? {
      return Fail(ANALYSIS_NOT_FOUND);
    }
    var w := SaveWrite(payload, rand, now, iso);
    if w.Fail? {
      return Fail(Rewrap(w.err, SAVE_FAILED));
    }
    ghost var before := db.docs;
    var m := db.Merge(ref.value, w.value);
    if m.Fail? {
      return Fail(Rewrap(m.err, SAVE_FAILED));
    }
    r := w;
    if Truthy(Prop(payload, "personalRecommendations")) {
      WrittenReadsBack(before[ref.value], w.value, Prop(payload, "personalRecommendations"), rand, now, rand, now);
    }
  }

  /** `d` with every field the patch names explicitly, with the type it
      must have to count, written over it. */
  function Overridden(d: Doc, partial: Value): (r: Doc)
    ensures var recs := Prop(partial, "recomendaciones");
      && ("recomendaciones" in r <==> "recomendaciones" in d || recs.Arr?)
      && ("recomendaciones" in r ==> r["recomendaciones"] == if recs.Arr? then recs else d["recomendaciones"])
    ensures var detail := Prop(partial, "recomendacionesDetalle");
      && ("recomendacionesDetalle" in r <==> "recomendacionesDetalle" in d || detail.Arr?)
      && ("recomendacionesDetalle" in r ==>
            r["recomendacionesDetalle"] == if detail.Arr? then detail else d["recomendacionesDetalle"])
    ensures var status := Prop(partial, "status");
      && ("status" in r <==> "status" in d || status.Str?)
      && ("status" in r ==> r["status"] == if status.Str? then status else d["status"])
    ensures var ts := Prop(partial, "timestamp");
      && ("timestamp" in r <==> "timestamp" in d || NumOrStr(ts))
      && ("timestamp" in r ==> r["timestamp"] == if NumOrStr(ts) then ts else d["timestamp"])
    ensures forall k :: k !in {"recomendaciones", "recomendacionesDetalle", "status", "timestamp"} ==>
      (k in r <==> k in d) && (k in r ==> r[k] == d[k])
  {
    var recs := Prop(partial, "recomendaciones");
    var detail := Prop(partial, "recomendacionesDetalle");
    var status := Prop(partial, "status");
    var ts := Prop(partial, "timestamp");
    var d1 := if recs.Arr? then d["recomendaciones" := recs] else d;
    var d2 := if detail.Arr? then d1["recomendacionesDetalle" := detail] else d1;
    var d3 := if status.Str? then d2["status" := status] else d2;
    if NumOrStr(ts) then d3["timestamp" := ts] else d3
  }

  /** A block the sanitiser returned: an object with a status and a
      timestamp. */
  predicate IsBlock(block: Value) {
    block.Obj? && "status" in block.fields && "timestamp" in block.fields
  }

  /** The fields a patch collects when its block, if it gave one,
      sanitises to `block`: those the block supplies, overridden by the
      fields named explicitly. */
  function Merged(partial: Value, block: Option<Value>): Doc
    requires block.Some? ==> IsBlock(block.value)
  {
    var supplied := if block.None? then map[] else
      var b := block.value;
      map["personalRecommendations" := b, "recomendaciones" := Arr(LegacyStrings(b)),
          "status" := b.fields["status"], "timestamp" := b.fields["timestamp"]];
    Overridden(supplied, partial)
  }

  /** What a patch merges, before the update time is added. */
  function Patch(partial: Value, rand: (List, nat) -> string, now: int): (r: Result<Doc>)
    ensures r.Fail? ==> !Known(r.err)
  {
    if partial.Null? then Fail(NullRead("personalRecommendations"))
    else
      var given := Prop(partial, "personalRecommendations");
      if !Truthy(given) then Ok(Merged(partial, None))
      else
        match Sanitize(given, rand, now)
        case Fail(e) => Fail(e)
        case Ok(block) => Ok(Merged(partial, Some(block)))
  }

  /** A patch fails only when it is `null` or its block cannot be
      sanitised; otherwise it merges the sanitised block, and a block
      stored with it is a sanitised one, whose status is a string. */
  lemma PatchSanitizes(partial: Value, rand: (List, nat) -> string, now: int)
    ensures var given := Prop(partial, "personalRecommendations");
      Patch(partial, rand, now).Fail? <==> partial.Null? || (Truthy(given) && Sanitize(given, rand, now).Fail?)
    ensures var given := Prop(partial, "personalRecommendations");
      Patch(partial, rand, now).Ok? && !Truthy(given) ==> Patch(partial, rand, now).value == Merged(partial, None)
    ensures var given := Prop(partial, "personalRecommendations");
      Patch(partial, rand, now).Ok? && Truthy(given) ==>
        && Sanitize(given, rand, now).Ok?
        && Sanitize(given, rand, now).value.fields["status"].Str?
        && Patch(partial, rand, now).value == Merged(partial, Some(Sanitize(given, rand, now).value))
  {
    var given := Prop(partial, "personalRecommendations");
    if !partial.Null? && Truthy(given) && Sanitize(given, rand, now).Ok? {
      SanitizeShape(given, rand, now, Plan);
    }
  }

  /** A patch writes only the fields a save may write, and names nothing
      exactly when it gives neither a block nor a well-typed explicit
      field. */
  lemma MergedNamesNothing(partial: Value, block: Option<Value>)
    requires block.Some? ==> IsBlock(block.value)
    ensures var r := Merged(partial, block);
      && r.Keys <= WRITE_KEYS - {"personalRecommendationsUpdatedAt"}
      && (r.Keys == {} <==>
            && block.None?
            && !Prop(partial, "recomendaciones").Arr? && !Prop(partial, "recomendacionesDetalle").Arr?
            && !Prop(partial, "status").Str? && !NumOrStr(Prop(partial, "timestamp")))
  {
    var r := Merged(partial, block);
    if block.Some? { assert "personalRecommendations" in r; }
    if Prop(partial, "recomendaciones").Arr? { assert "recomendaciones" in r; }
    if Prop(partial, "recomendacionesDetalle").Arr? { assert "recomendacionesDetalle" in r; }
    if Prop(partial, "status").Str? { assert "status" in r; }
    if NumOrStr(Prop(partial, "timestamp")) { assert "timestamp" in r; }
  }

  /** A given block is stored as it is and supplies the flat list; an
      explicit flat list overrides it. */
  lemma MergedShape(partial: Value, block: Option<Value>)
    requires block.Some? ==> IsBlock(block.value)
    ensures var r := Merged(partial, block);
      var recs := Prop(partial, "recomendaciones");
      && ("personalRecommendations" in r <==> block.Some?)
      && (block.Some? ==> r["personalRecommendations"] == block.value)
      && ("recomendaciones" in r <==> block.Some? || recs.Arr?)
      && (recs.Arr? ==> r["recomendaciones"] == recs)
      && (block.Some? && !recs.Arr? ==> r["recomendaciones"] == Arr(LegacyStrings(block.value)))
  {
  }

  /** The detailed list is written only when the patch gives one. */
  lemma MergedDetail(partial: Value, block: Option<Value>)
    requires block.Some? ==> IsBlock(block.value)
    ensures var r := Merged(partial, block);
      var detail := Prop(partial, "recomendacionesDetalle");
      && ("recomendacionesDetalle" in r <==> detail.Arr?)
      && (detail.Arr? ==> r["recomendacionesDetalle"] == detail)
  {
  }

  /** The status and the timestamp: an explicit one wins, the block's
      otherwise. */
  lemma MergedStatus(partial: Value, block: Option<Value>)
    requires block.Some? ==> IsBlock(block.value)
    ensures var r := Merged(partial, block);
      var status := Prop(partial, "status");
      var ts := Prop(partial, "timestamp");
      && ("status" in r <==> block.Some? || status.Str?)
      && (status.Str? ==> r["status"] == status)
      && (block.Some? && !status.Str? ==> r["status"] == block.value.fields["status"])
      && ("timestamp" in r <==> block.Some? || NumOrStr(ts))
      && (NumOrStr(ts) ==> r["timestamp"] == ts)
      && (block.Some? && !NumOrStr(ts) ==> r["timestamp"] == block.value.fields["timestamp"])
  {
  }

  /** The fields `patchRecommendations` collects in `toMerge`, one `if` at
      a time. */
  method PatchFields(partial: Value, rand: (List, nat) -> string, now: int) returns (r: Result<Doc>)
    ensures r == Patch(partial, rand, now)
  {
    if partial.Null? {
      return Fail(NullRead("personalRecommendations"));
    }
    var toMerge: Doc := map[];
    var given := Prop(partial, "personalRecommendations");
    if Truthy(given) {
      var block := Sanitize(given, rand, now);
      if block.Fail? {
        return Fail(block.err);
      }
      toMerge := toMerge["personalRecommendations" := block.value];
      toMerge := toMerge["recomendaciones" := Arr(LegacyStrings(block.value))];
      toMerge := toMerge["status" := block.value.fields["status"]];
      toMerge := toMerge["timestamp" := block.value.fields["timestamp"]];
    }
    if Prop(partial, "recomendaciones").Arr? {
      toMerge := toMerge["recomendaciones" := Prop(partial, "recomendaciones")];
    }
    if Prop(partial, "recomendacionesDetalle").Arr? {
      toMerge := toMerge["recomendacionesDetalle" := Prop(partial, "recomendacionesDetalle")];
    }
    if Prop(partial, "status").Str? {
      toMerge := toMerge["status" := Prop(partial, "status")];
    }
    if NumOrStr(Prop(partial, "timestamp")) {
      toMerge := toMerge["timestamp" := Prop(partial, "timestamp")];
    }
    r := Ok(toMerge);
  }

  /** A patch goes through: the analysis exists, the patch is readable and
      sanitizes, and either it names nothing or the store accepts the
      stamped fields at the analysis. */
  ghost predicate Patchable(docs: map<Path, Doc>, faults: set<Path>, ref: Result<Path>, patch: Result<Doc>, now: int)
  {
    && ref.Ok? && ref.value in docs && patch.Ok?
    && (patch.value.Keys == {}
        || WriteCheck(faults, ref.value, patch.value["personalRecommendationsUpdatedAt" := Num(now)]).Ok?)
  }

  /** `patchRecommendations(patientId, analysisId, partial)`: a patch that
      names nothing writes nothing and returns `{}`. */
  method PatchRecommendations(db: Db, patientId: Value, analysisId: Value, partial: Value,
                              rand: (List, nat) -> string, now: int) returns (r: Result<Doc>)
    requires db.Valid()
    modifies db
    ensures db.Valid()
    ensures db.order == old(db.order)
    ensures EnsureId(patientId).Fail? || EnsureId(analysisId).Fail? ==> r == Fail(ID_REQUIRED)
    ensures var ref := AnalysisRef(patientId, analysisId);
      ref.Ok? && ref.value !in old(db.docs) ==> r == Fail(ANALYSIS_NOT_FOUND)
    ensures r.Fail? ==> db.docs == old(db.docs)
    ensures r.Fail? ==> Known(r.err) || r.err == Err(NoCode, PATCH_FAILED)
    ensures r.Ok? <==> Patchable(old(db.docs), db.faults, AnalysisRef(patientId, analysisId), Patch(partial, rand, now), now)
    ensures r.Ok? && r.value.Keys == {} ==> db.docs == old(db.docs) && Patch(partial, rand, now) == Ok(map[])
    ensures r.Ok? && r.value.Keys != {} ==>
      && AnalysisRef(patientId, analysisId).Ok?
      && var p := AnalysisRef(patientId, analysisId).value;
      && p in old(db.docs)
      && Patch(partial, rand, now).Ok?
      && r.value == Patch(partial, rand, now).value["personalRecommendationsUpdatedAt" := Num(now)]
      && db.docs == old(db.docs)[p := MergeDeep(old(db.docs)[p], r.value)]
  {
    var ref := AnalysisRef(patientId, analysisId);
    if ref.Fail? {
      return Fail(Rewrap(ref.err, PATCH_FAILED));
    }
    var snap := db.Get(ref.value);
    if snap.None? {
      return Fail(ANALYSIS_NOT_FOUND);
    }
    var fields := PatchFields(partial, rand, now);
    if fields.Fail? {
      return Fail(Rewrap(fields.err, PATCH_FAILED));
    }
    if fields.value.Keys == {} {
      return Ok(map[]);
    }
    var toMerge := fields.value["personalRecommendationsUpdatedAt" := Num(now)];
    var m := db.Merge(ref.value, toMerge);
    if m.Fail? {
      return Fail(Rewrap(m.err, PATCH_FAILED));
    }
    r := Ok(toMerge);
  }

  /** The greatest id, in the order of document ids. */
  function MaxId(ids: seq<string>): (r: string)
    requires ids != []
    ensures r in ids
    ensures forall x :: x in ids ==> Leq(x, r)
  {
    if |ids| == 1 then
      LeqTotal(ids[0], ids[0]);
      ids[0]
    else
      var rest := MaxId(ids[1..]);
      LeqTotal(ids[0], rest);
      if Leq(ids[0], rest) then
        forall x | x in ids[1..]
          ensures Leq(x, rest)
        {
        }
        rest
      else
        assert Leq(rest, ids[0]);
        LeqTotal(ids[0], ids[0]);
        forall x | x in ids[1..]
          ensures Leq(x, ids[0])
        {
          LeqTransitive(x, rest, ids[0]);
        }
        ids[0]
  }

  /** `getLatestRecommendations(patientId)`: the recommendations of the
      analysis with the greatest id, `orderBy(documentId(), "desc")`. */
  function GetLatestRecommendations(db: Db, patientId: Value, rand: (List, nat) -> string, now: int): (r: Result<Doc>)
    reads db
    ensures !Truthy(patientId) ==> r == Fail(PATIENT_ID_REQUIRED)
    ensures Truthy(patientId) && !(patientId.Str? && ValidSegment(patientId.s)) ==> r == Fail(Err(NoCode, LATEST_FAILED))
    ensures patientId.Str? && ValidSegment(patientId.s) && Ids(db.Collection(AnalysesPath(patientId.s))) == [] ==>
      r == Fail(NO_ANALYSES)
    ensures patientId.Str? && ValidSegment(patientId.s) && Ids(db.Collection(AnalysesPath(patientId.s))) != [] ==>
      var ids := Ids(db.Collection(AnalysesPath(patientId.s)));
      var id := MaxId(ids);
      && (forall x :: x in ids ==> Leq(x, id))
      && (r.Ok? <==> GetRecommendations(db, patientId, Str(id), rand, now).Ok?)
      && (r.Ok? ==> r.value == map["analysisId" := Str(id),
                                   "data" := Obj(GetRecommendations(db, patientId, Str(id), rand, now).value)])
      && (r.Fail? ==> r.err == Rewrap(GetRecommendations(db, patientId, Str(id), rand, now).err, LATEST_FAILED))
    ensures r.Fail? ==> Known(r.err) || r.err == Err(NoCode, LATEST_FAILED)
  {
    if !Truthy(patientId) then Fail(PATIENT_ID_REQUIRED)
    else if !(patientId.Str? && ValidSegment(patientId.s)) then Fail(Err(NoCode, LATEST_FAILED))
    else
      var ids := Ids(db.Collection(AnalysesPath(patientId.s)));
      if ids == [] then Fail(NO_ANALYSES)
      else
        var id := MaxId(ids);
        match GetRecommendations(db, patientId, Str(id), rand, now)
        case Ok(data) => Ok(map["analysisId" := Str(id), "data" := Obj(data)])
        case Fail(e) => Fail(Rewrap(e, LATEST_FAILED))
  }
}
