/**
 * Where the services keep their documents, and the linear search over
 * organizations that three of them share: find the first organization, in
 * the order the store lists them, that holds `doctores/{uid}`.
 */
module Directory {
  import opened Json
  import opened Store

  const ORGS := "organizaciones"
  const DOCTORS := "doctores"
  const APPOINTMENTS := "citas"
  const USERS := "users"
  const PATIENTS := "patients"
  const ANALYSES := "analyses"
  const DEVICES := "esp32_ids"

  /** `organizaciones/{org}/doctores/{uid}`. */
  function DoctorPath(org: string, uid: string): Path {
    [ORGS, org, DOCTORS, uid]
  }

  /** The organization at `orgs[i]` holds a doctor document for `uid`. */
  predicate Holds(docs: map<Path, Doc>, orgs: seq<Snap>, uid: string, i: int)
    requires 0 <= i < |orgs|
  {
    DoctorPath(orgs[i].Id(), uid) in docs
  }

  /** `patients/{patientId}/analyses`. */
  function AnalysesPath(patientId: string): Path {
    [PATIENTS, patientId, ANALYSES]
  }

  /** `patients/{patientId}/analyses/{analysisId}`. */
  function AnalysisPath(patientId: string, analysisId: string): Path {
    AnalysesPath(patientId) + [analysisId]
  }

  /** The first position at or after `from` whose organization holds `uid`. */
  function FirstOrgFrom(docs: map<Path, Doc>, orgs: seq<Snap>, uid: string, from: nat): (r: Option<nat>)
    requires from <= |orgs|
    ensures r.Some? ==> from <= r.value < |orgs| && Holds(docs, orgs, uid, r.value)
    ensures r.Some? ==> forall j :: from <= j < r.value ==> !Holds(docs, orgs, uid, j)
    ensures r.None? ==> forall j :: from <= j < |orgs| ==> !Holds(docs, orgs, uid, j)
    decreases |orgs| - from
  {
    if from == |orgs| then None
    else if Holds(docs, orgs, uid, from) then Some(from)
    else FirstOrgFrom(docs, orgs, uid, from + 1)
  }

  /** The first organization, in enumeration order, holding `doctores/{uid}`. */
  function FirstOrgHolding(docs: map<Path, Doc>, orgs: seq<Snap>, uid: string): (r: Option<nat>)
    ensures r.Some? ==> r.value < |orgs| && Holds(docs, orgs, uid, r.value)
    ensures r.Some? ==> forall j :: 0 <= j < r.value ==> !Holds(docs, orgs, uid, j)
    ensures r.None? <==> forall j :: 0 <= j < |orgs| ==> !Holds(docs, orgs, uid, j)
  {
    FirstOrgFrom(docs, orgs, uid, 0)
  }

  /** The search depends only on which organizations hold the doctor. */
  lemma FirstOrgHoldingAgrees(docs: map<Path, Doc>, docs': map<Path, Doc>, orgs: seq<Snap>, uid: string)
    requires forall i :: 0 <= i < |orgs| ==> (Holds(docs, orgs, uid, i) <==> Holds(docs', orgs, uid, i))
    ensures FirstOrgHolding(docs, orgs, uid) == FirstOrgHolding(docs', orgs, uid)
  {
  }

  /** The loop `for (const orgDoc of orgsSnap.docs) { ... doctores/{uid} ...
      if (exists) return/break }`: the position of the first organization
      holding the doctor, among the organizations the store lists. */
  method ProbeDoctorOrg(db: Db, uid: string) returns (orgs: seq<Snap>, r: Option<nat>)
    ensures orgs == db.Collection([ORGS])
    ensures r == FirstOrgHolding(db.docs, orgs, uid)
  {
    orgs := db.Collection([ORGS]);
    var i := 0;
    while i < |orgs|
      invariant 0 <= i <= |orgs|
      invariant FirstOrgHolding(db.docs, orgs, uid) == FirstOrgFrom(db.docs, orgs, uid, i)
    {
      var doctor := db.Get(DoctorPath(orgs[i].Id(), uid));
      if doctor.Some? {
        return orgs, Some(i);
      }
      i := i + 1;
    }
    return orgs, None;
  }
}
