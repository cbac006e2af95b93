# Stepwise backend: a verified model of its services

This project models the service layer of the Stepwise clinical backend, a
Node.js server that keeps its data in Cloud Firestore. Doctors belong to
organizations (clinics). A clinic is identified by the ESP32 devices
registered to it. Patients have a record, clinical analyses and
recommendations attached to each analysis. Patients propose appointments,
and doctors accept, reject or reschedule them.

The model covers these parts of the backend:

- the appointment service and the `/api/appointments` handlers that do more
  than forward a call;
- the organization service: device checks, device binding and the
  organization listing;
- the user service: role resolution and the `users/{uid}` role cache;
- registration and login;
- the recommendations service;
- the profile service;
- the analysis service.

Each service is a Dafny module. Operations that read become functions of
the store's state. Operations that write become methods of `Store.Db`. The
services' common ground has its own modules:

- `Json`: JavaScript values, truthiness, `||`, the object spread and
  Firestore's merge;
- `Text`: trimming, splitting, lower-casing and string order;
- `Store`: the document store, its queries, and how it refuses a write;
- `Directory`: the clinic and patient paths, and the "first organization
  holding this doctor" search that three services repeat;
- `Identity`: the authentication provider's accounts and custom claims.

Error paths are modelled. A thrown error is a `Store.Result` failure that
carries the `code` and `message` the caller sees. Store-level failures are
parameters of the store:

- `Db.faults` is the set of paths where every write is rejected;
- `Db.groupIndexMissing` is the set of collection-group queries that throw
  for lack of an index.

The clock, the random suffixes and the ISO date strings are parameters of
the operations that use them.

## Model

| member | source | states |
|---|---|---|
| Json.At | services/appointmentService.js:21 | Reading a missing property gives `undefined`; otherwise it gives the stored value. |
| Json.Or | routes/appointments.js:35 | `a \|\| b` is `a` when `a` is truthy and `b` otherwise. |
| Json.Default | services/appointmentService.js:112 | A default parameter replaces only `undefined`; every other value, `null` included, is kept. |
| Json.MergeDeep | services/recommendationsService.js:180 | `set(..., { merge: true })`: the result has the union of both key sets; old keys absent from the patch are unchanged; a non-empty nested object of the patch merges into a stored object recursively, and every other patch value, an empty object included, replaces the old one. |
| Json.WithId | services/appointmentService.js:68 | `{ id: doc.id, ...doc.data() }` has the document's keys plus `id`; every stored field is kept, so a stored `id` wins over the snapshot id. |
| Json.Spread | services/analysisService.js:23-24 | `{ ...v }` copies an object's own fields; `null`, `undefined` and the other scalars contribute nothing. |
| Store.Ref | services/appointmentService.js:9-14 | A chain of `.collection()`/`.doc()` calls succeeds exactly when every segment is a non-empty string without '/'; the path is those strings in order; otherwise it fails with the SDK's invalid-path error. |
| Store.Select | services/organizationService.js:128 | A query returns exactly the stored documents in scope (a collection's children or a collection group), each with its data, in enumeration order. |
| Store.SelectIgnores | services/userService.js:22-23 | Storing or enumerating a document outside a query's scope does not change that query's result. |
| Store.Ids | services/recommendationsService.js:269 | One document id per snapshot, in order. |
| Store.Where | services/organizationService.js:53 | `where(field, "==", v)` keeps exactly the snapshots whose field equals `v`. |
| Store.WhereHead | services/userService.js:24-27 | The first snapshot a filter keeps is the earliest snapshot of its input with that field value. |
| Store.UpdateTouchesOne | services/organizationService.js:94-98 | Writing one document leaves every other document as it was. |
| Store.ValueLeqTotal | services/appointmentService.js:118 | Any two field values are comparable in `orderBy`'s value order. |
| Store.ValueLeqTransitive | services/appointmentService.js:118 | `orderBy`'s value order is transitive. |
| Store.TimesByInstant | services/analysisService.js:57 | Two timestamps are ordered by their instants; null, booleans and numbers sort below every timestamp and strings above it. |
| Store.OrderByDesc | services/appointmentService.js:118 | `orderBy(field, "desc")` keeps exactly the documents that hold the field, whatever the type of its value, as a permutation of them, sorted in descending order: first by type (null, boolean, number, timestamp, string, array, map), then by value. |
| Store.FirstIsNewest | services/analysisService.js:57-69 | The head of a descending listing holds the field, and its value is at least that of every document holding the field. |
| Store.Rows | services/appointmentService.js:119 | Snapshots are mapped one by one to `{ id, ...data }`. |
| Store.WriteCheck | services/appointmentService.js:40 | A write succeeds exactly when the document holds no `undefined` and the path is writable; otherwise it fails with the SDK's invalid-value error or with PERMISSION_DENIED (code 7). |
| Store.Db.Get | services/appointmentService.js:52-54 | `ref.get()` finds a document exactly when one is stored at the path, and returns its data. |
| Store.Db.Group | services/appointmentService.js:182 | A collection-group query throws FAILED_PRECONDITION (code 9) exactly when its index is missing. |
| Store.Db.Set | services/appointmentService.js:40 | `ref.set(d)` replaces the document with `d` when the write check passes, and changes nothing otherwise; a new document is enumerated last, and an existing one keeps its place. |
| Store.Db.Merge | services/recommendationsService.js:180 | `ref.set(d, { merge: true })` deep-merges `d` into the document, or into an empty one, when the write check passes (a non-empty nested object merges, an empty one replaces), and changes nothing otherwise; a new document is enumerated last. |
| Store.Grow | services/appointmentService.js:40 | Storing `p` adds exactly `p` to the enumeration order, never twice. |
| Store.Tracked | services/authBackendService.js:67-111 | After a series of writes, every earlier path keeps its place in the enumeration order. |
| Store.TrackedMembers | services/authBackendService.js:67-111 | After a series of writes the enumeration order lists exactly the earlier paths and the written paths that are now stored, each once. |
| Store.TrackedIdle | services/authBackendService.js:67-87 | Writes to paths that were already stored leave the enumeration order as it was. |
| Store.Db.Update | services/appointmentService.js:132-135 | `ref.update(d)` overwrites the named top-level fields of an existing document; on a missing document it fails with NOT_FOUND (code 5) and changes nothing. |
| Store.Db.Delete | services/analysisService.js:111 | `ref.delete()` removes the document, and drops it from the enumeration order, when the path is writable; it succeeds on a missing document, and fails with PERMISSION_DENIED, changing nothing, otherwise. |
| Text.Trim | services/authBackendService.js:36 | `trim()` keeps a contiguous part of the string that starts and ends with non-whitespace. |
| Text.TrimStartDropsPrefix | services/authBackendService.js:36 | The start is trimmed by dropping a prefix made only of whitespace. |
| Text.TrimEndDropsSuffix | services/authBackendService.js:36 | The end is trimmed by dropping a suffix made only of whitespace. |
| Text.TrimEmptyIffAllSpace | services/profileService.js:98 | `s.trim() === ""` exactly when `s` is all whitespace. |
| Text.TrimIsInfix | services/authBackendService.js:36 | Trimming adds no character. |
| Text.Split | services/authBackendService.js:35 | `split(",")` gives at least one piece, none containing the separator, and joining the pieces with it gives back the string. |
| Text.SplitAppend | services/authBackendService.js:35 | Splitting `a + "," + b` gives the pieces of `a` followed by the pieces of `b`. |
| Text.SplitWithoutSep | services/authBackendService.js:35 | A string without the separator splits into itself alone. |
| Text.Lower | services/organizationService.js:30 | `toLowerCase()` on ASCII and Latin-1 capitals: each such letter becomes its lower-case form, every other character is kept, and the length is kept. |
| Text.LowerIdempotent | services/organizationService.js:30 | Lower-casing twice gives the same result as lower-casing once. |
| Text.LeqTotal | services/organizationService.js:132 | Any two names are comparable in the sort order. |
| Text.LeqTransitive | services/organizationService.js:132 | The sort order is transitive. |
| Text.LeqAntisymmetric | services/organizationService.js:132 | Two names ordered both ways are equal. |
| Directory.FirstOrgFrom | services/appointmentService.js:51-57 | The loop from position `from` stops at the first organization holding the doctor, with none before it; when it finds none, no organization from `from` on holds it. |
| Directory.FirstOrgHolding | services/appointmentService.js:49-59 | The search over all organizations finds the first that holds a `doctores/{uid}` document; it finds none exactly when none holds one. |
| Directory.FirstOrgHoldingAgrees | services/profileService.js:15-25 | The search's answer depends only on which organizations hold the doctor. |
| Directory.ProbeDoctorOrg | services/appointmentService.js:50-57 | The loop reads the organization listing and stops where `FirstOrgHolding` says. |
| Identity.CreateRefusal | services/authBackendService.js:9-14 | `createUser` accepts exactly a syntactically valid, unused email with a password of at least six characters; every refusal carries an "auth/" code. |
| Identity.Auth.CreateUser | services/authBackendService.js:9-14 | `createUser` adds the account when it is not refused, and changes nothing when it is. |
| Identity.Auth.DeleteUser | services/authBackendService.js:118-120 | `deleteUser` removes the account and its claims, and fails with user-not-found for an unknown uid. |
| Identity.Auth.SetCustomUserClaims | services/authBackendService.js:91 | `setCustomUserClaims` replaces the claims of an existing account, and fails with user-not-found otherwise. |
| Appointments.AppointmentsRef | services/appointmentService.js:9-14 | The appointments collection of a clinic's doctor, which exists exactly when both ids are valid document ids. |
| Appointments.AppointmentRef | services/appointmentService.js:131 | One appointment under that collection, which exists exactly when the collection exists and the appointment id is valid. |
| Appointments.NewAppointment | services/appointmentService.js:30-38 | A new appointment keeps every field the caller sent, except that status "pending", both timestamps and the empty response and alternatives are forced. |
| Appointments.Listing | services/appointmentService.js:117-118 | The status filter ("all" keeps everything) and the descending order keep exactly the matching documents that hold `createdAt`, of any type, sorted by `orderBy`'s value order. |
| Appointments.DoctorAppointments | services/appointmentService.js:116-118 | A doctor's listing holds exactly the stored appointments of that collection that match the status and hold `createdAt`, largest first in `orderBy`'s value order. |
| Appointments.GetAppointmentsByDoctor | services/appointmentService.js:112-124 | It fails exactly when an id is missing or invalid, always with "Error al obtener citas."; otherwise it returns the listing as rows. |
| Appointments.PatientAppointments | services/appointmentService.js:182-189 | The collection-group query fails exactly when its index is missing; otherwise it holds exactly the appointments of that patient, under any clinic and doctor, that match the status and hold `createdAt`, largest first in `orderBy`'s value order. |
| Appointments.GetAppointmentsByPatient | services/appointmentService.js:178-191 | A missing patient id fails with "patientId es requerido"; a missing index surfaces unwrapped; it succeeds exactly when the id is given and the index exists, returning the rows of the patient query. |
| Appointments.CreateAppointment | services/appointmentService.js:19-46 | It succeeds exactly when all four required fields are truthy, the ids form a valid path and the write passes; then it stores the new appointment at the supplied id (replacing whatever was stored there) and returns it with that id. Every failure is "Error al crear cita." and writes nothing. |
| Appointments.PendingAppointmentListed | services/appointmentService.js:112-124 | A stored pending appointment appears in its doctor's listing, and, when the group index exists, in its patient's listing, whether filtered by "pending" or by "all". |
| Appointments.Stamped | services/appointmentService.js:132-135 | The updates plus `updatedAt`, which always takes the current time. |
| Appointments.DecidedFields | services/appointmentService.js:145-160 | After accepting or rejecting, the appointment reads the new status, the notes (default "") as the response, and the processing and update times. |
| Appointments.RescheduledFields | services/appointmentService.js:163-172 | After rescheduling, the appointment reads "rescheduled", the alternative date and time, and the notes. |
| Appointments.ApplyStatus | services/appointmentService.js:74-79 | Update then read: only the named fields and `updatedAt` change; every other field of the appointment, the previous status included, stays as it was; the reply is the updated document with its id; a missing appointment fails with NOT_FOUND. |
| Appointments.UpdateAppointmentStatus | services/appointmentService.js:129-142 | It succeeds exactly when the appointment exists and the write passes, replying with the updated document; every failure is "Error al actualizar cita." and writes nothing. |
| Appointments.AcceptAppointment | services/appointmentService.js:145-151 | It succeeds exactly when the appointment path is valid, the appointment exists and the write passes. The appointment then becomes "accepted" with the doctor's notes as response, no other document changes, and the reply is the updated appointment with its id. Every failure is "Error al actualizar cita." and writes nothing. |
| Appointments.RejectAppointment | services/appointmentService.js:154-160 | It succeeds exactly when the appointment path is valid, the appointment exists and the write passes. The appointment then becomes "rejected" with the doctor's notes as response, no other document changes, and the reply is the updated appointment with its id. |
| Appointments.RescheduleAppointment | services/appointmentService.js:163-172 | Without both alternatives it fails before any write with its own error. Otherwise it succeeds exactly when the appointment exists and the write passes; the appointment becomes "rescheduled" with the alternatives and the reply is the updated appointment with its id. |
| Appointments.ClinicOfIsFirstHolder | services/appointmentService.js:49-59 | The clinic found is the first organization holding the doctor; there is none exactly when no organization holds it. |
| Appointments.GetClinicaIdByDoctor | services/appointmentService.js:49-59 | It returns that clinic's id, or fails with "No se encontró la clínica para este doctor". |
| Appointments.AutoRef | services/appointmentService.js:72-73 | The Auto variants address the appointment under the clinic found, or fail with the search's error. |
| Appointments.UpdateAppointmentStatusAuto | services/appointmentService.js:71-80 | The same update under the clinic found; its errors surface without rewrapping; it succeeds exactly when the clinic is found, the appointment exists and the write passes. |
| Appointments.AcceptAppointmentAuto | services/appointmentService.js:82-88 | Accepting under the clinic found: the search's error surfaces as it is; it succeeds exactly when the clinic is found, the appointment exists and the write passes; status "accepted", and the reply is the updated appointment. |
| Appointments.RejectAppointmentAuto | services/appointmentService.js:90-96 | Rejecting under the clinic found: the search's error surfaces as it is; it succeeds exactly when the clinic is found, the appointment exists and the write passes; status "rejected", and the reply is the updated appointment. |
| Appointments.RescheduleAppointmentAuto | services/appointmentService.js:98-107 | Rescheduling under the clinic found; without both alternatives it fails before any lookup or write. Otherwise it succeeds exactly when the clinic is found, the appointment exists and the write passes, and replies with the rescheduled appointment. |
| Appointments.GetAppointmentsByDoctorAuto | services/appointmentService.js:61-69 | The doctor's listing under the clinic found, or the search's error. |
| AppointmentRoutes.Reply | routes/appointments.js:45-48 | A handler answers the success status with the service's result, and 400 with `{ error: message }` on any failure. |
| AppointmentRoutes.Personal | routes/appointments.js:36-41 | `datos_personales?.[k] \|\| null`: the personal datum when it is truthy, otherwise null. |
| AppointmentRoutes.Snapshot | routes/appointments.js:32-41 | The patient fields the route records: identity, email, phone (default ""), and the personal data (default null). |
| AppointmentRoutes.PatientSnapshot | routes/appointments.js:30-42 | The appointment data keeps every body field, except that the patient snapshot fields override it. |
| AppointmentRoutes.PostAppointment | routes/appointments.js:17-50 | Without a patient record it answers 404 and writes nothing. Otherwise it answers 201 exactly when the service call succeeds (the required fields are present, the ids are valid and the write passes), with the created appointment stored under the body's clinic and doctor; else 400 with the service's error and no write. |
| AppointmentRoutes.AcceptRoute | routes/appointments.js:79-94 | Without a non-empty string `doctorName` it answers 400 and writes nothing. Otherwise it answers 200 exactly when the accept succeeds, with the accepted appointment as body; else 400 and no write. |
| AppointmentRoutes.RejectRoute | routes/appointments.js:97-107 | 200 exactly when the reject succeeds, with the rejected appointment as body; else 400 and no write. |
| AppointmentRoutes.RescheduleRoute | routes/appointments.js:110-120 | Without both alternatives it answers 400 with the service's message and writes nothing; otherwise 200 exactly when the reschedule succeeds, with the rescheduled appointment as body, else 400 and no write. |
| Organizations.Decide | services/organizationService.js:15-74 | An unknown device gives exists=false. A bound device answers its own organization name, and allows joining exactly when the names agree after `Text.Lower` (ignoring the case of ASCII and Latin-1 letters). An unbound device refuses joining, and allows creating exactly when no organization has the requested name. Joining and creating are never both allowed. |
| Organizations.DeviceRef | services/organizationService.js:12 | The device record path, which exists exactly when the id is a valid document id. |
| Organizations.CheckEsp32IdAdvanced | services/organizationService.js:9-79 | Reads only, and takes the decision on the device record and the organization listing; an invalid id fails with "Error al verificar el ESP32 ID.". |
| Organizations.BoundDeviceJoinsCaseVariants | services/organizationService.js:28-38 | A device bound to a name accepts every request whose name differs from it only in letter case. |
| Organizations.AssignEsp32ToOrganization | services/organizationService.js:87-100 | It overwrites the binding fields of an existing device record and nothing else; afterwards the check lets in every case variant of the name. Every failure is "Error al asignar ESP32 a la organización." and writes nothing. |
| Organizations.CheckOrganizationExists | services/organizationService.js:102-118 | It says exists exactly when some organization has both the code and the name, and then reports that name; either argument undefined fails with the generic error. |
| Organizations.SwapKeepsHole | services/organizationService.js:132 | One insertion swap keeps the prefix sorted except at the moving element. |
| Organizations.HoleClosed | services/organizationService.js:132 | Once the moving element is in place, the prefix is sorted. |
| Organizations.InsertByName | services/organizationService.js:132 | One insertion step extends the sorted prefix by one, as a permutation of the array. |
| Organizations.SortByName | services/organizationService.js:132 | The array ends sorted by `String(nombre \|\| "")` and is a permutation of its input. |
| Organizations.GetAllOrganizations | services/organizationService.js:124-139 | The list holds every organization as `{ id, ...data }`, as a permutation, sorted by name. |
| Users.CachedRole | services/userService.js:5-18 | A `users/{uid}` document answers by itself exactly when its role is "doctor" or "paciente"; a doctor keeps the cached organization (or null), and a patient has none. |
| Users.DoctorOrg | services/userService.js:20-44 | The doctor search takes segment 1 of the first `doctores` document, in enumeration order, whose `uid` matches, and finds nothing exactly when none matches. When the group index is missing, it falls back to the first organization holding `doctores/{uid}`. |
| Users.ResolveRole | services/userService.js:3-63 | A valid cache answers first. Otherwise a doctor record with a non-empty organization id answers doctor with that organization, even when a patient record exists; without one, the answer is paciente exactly when a patient record exists, and nothing otherwise. A patient has no organization. |
| Users.CacheEntry | services/userService.js:65-86 | The repair writes nothing over a different role; otherwise it writes the role and the organization (or null), with `creadoEn` exactly when the document is new. |
| Users.RepairIsWriteOnce | services/userService.js:65-86 | The repair touches `users/{uid}` only, never replaces a set role, and otherwise records the requested role and organization. |
| Users.RepairIsLocal | services/userService.js:65-86 | What the repair leaves in `users/{uid}` depends only on what that document held before. |
| Users.SafeCreateUsersDoc | services/userService.js:65-86 | The store after the call is the repaired one; a refused write is swallowed. No document other than `users/{uid}` changes, and a newly stored `users/{uid}` is enumerated last. |
| Users.FindDoctorOrg | services/userService.js:20-44 | The doctor lookup returns the organization `DoctorOrg` names, by the collection group or by the fallback probe. |
| Users.GetUserRoleAndOrg | services/userService.js:3-63 | The answer is the resolved role. The cache is repaired only when it did not answer (documents and enumeration order stay as they were otherwise), and resolving afterwards gives the same answer. |
| Users.RegisteredDoctorResolves | services/authBackendService.js:76-88 | A doctor stored under an existing organization, with no cached role, resolves as a doctor with an organization. |
| Users.DoctorOrgIgnoresUsers | services/userService.js:20-44 | The doctor search reads nothing a write to `users/{uid}` changes. |
| Users.ResolveAfterRepair | services/userService.js:46-56 | Resolving again after the repair gives the same answer. |
| Registration.Clean | services/authBackendService.js:36-37 | The trimmed, non-empty pieces: never more pieces, none empty, and no comma is introduced. |
| Registration.CleanAppend | services/authBackendService.js:36-37 | Cleaning distributes over concatenation. |
| Registration.ParseCodigos | services/authBackendService.js:33-37 | The parsed device codes are non-empty and contain no comma. |
| Registration.NewCodigoRegistro | services/authBackendService.js:39-44 | Nothing is written exactly when the id is already listed; otherwise the id alone, or the old text followed by "," and the id. |
| Registration.CodigoAppended | services/authBackendService.js:39-44 | Adding a clean id keeps every listed code in order and adds the id last. |
| Registration.CodigoIdempotent | services/authBackendService.js:39 | Registering the same clean id again writes nothing. |
| Registration.SlugHasNoSpace | services/authBackendService.js:51 | The organization id derived from a name contains no whitespace. |
| Registration.CaseVariantsShareSlug | services/authBackendService.js:24-51 | Names without whitespace that differ only in letter case share the derived id, which is their lower-case form. |
| Registration.CatchAsWritten | services/authBackendService.js:126 | As written, a numeric store code makes the `startsWith` test throw; an "auth/" string code is rethrown. |
| Registration.Catch | services/authBackendService.js:123-134 | Provider errors are rethrown and every other failure is cleaned up and wrapped; the test never throws. |
| Registration.CatchAsWrittenSkipsCleanup | services/authBackendService.js:126-131 | The two handlings agree on every error without a numeric code; a PERMISSION_DENIED store error tells them apart. |
| Registration.OrgChoice | services/authBackendService.js:23-65 | An undefined name fails the query. An existing organization with that name is reused by id. Otherwise the derived id is used, created exactly when its write passes. No failure carries a string code. |
| Registration.JoinChoice | services/authBackendService.js:29-49 | Reusing returns the organization's id; a non-string `codigoRegistro` throws on `split`. |
| Registration.SlugChoice | services/authBackendService.js:51-62 | Creating returns the derived id when it is a valid document id and the write passes. |
| Registration.ResolveOrganization | services/authBackendService.js:23-65 | The outcome is `OrgChoice` on the listing read; on success the organization is stored. A reused organization gets only its codes updated, when the id is new; a created one is stored whole. Failures write nothing. |
| Registration.FirstHitIsOrganization | services/authBackendService.js:29-31 | The first by-name hit is a stored organization document with its own id. |
| Registration.JoinOrganization | services/authBackendService.js:29-49 | Reusing writes at most the new `codigoRegistro`. |
| Registration.CreateOrganization | services/authBackendService.js:51-62 | Creating stores the new organization document under the derived id, enumerated last when it is new. |
| Registration.DoctorOrganization | services/authBackendService.js:20-66 | A `userData` that cannot be destructured fails before any read; otherwise the outcome is `OrgChoice`, only the chosen organization may change, and a failure writes nothing. |
| Registration.RegisterDoctor | services/authBackendService.js:20-93 | For a destructurable `userData`, it stores the doctor under the organization `OrgChoice` picks, repairs the role cache, sets the doctor claims and returns `{ uid, email, rol, organizacionId }`; failures set no claims. Only the organization, the device, the doctor's record and the cache may change, and the enumeration order gains exactly those of the organization, the doctor's record and the cache that are newly stored, in that order. |
| Registration.StoreDoctor | services/authBackendService.js:67-87 | A failed device binding is ignored. The doctor document is written exactly when the store accepts it; then `users/{uid}` holds the repaired cache entry, the organization stays in place, and nothing outside the device, the doctor's record and the cache changes. |
| Registration.DoctorStored | services/authBackendService.js:67-87 | The device binding, the doctor's record and the cache repair together touch only the device, the doctor's record and the cache, and leave the cache as the repair of the original store would. |
| Registration.DoctorWritesAfterOrg | services/authBackendService.js:23-87 | Finding or creating the organization first does not change what the doctor's writes leave in the cache and the doctor's record. |
| Registration.WriteDoctor | services/authBackendService.js:67-91 | A failed device binding is ignored; the doctor document, the repaired cache and the claims follow, and nothing else changes. |
| Registration.StorePatient | services/authBackendService.js:95-111 | The store becomes the repaired one (role cache first), plus the patient document exactly when the store accepts it; nothing else changes. |
| Registration.RegisterPatient | services/authBackendService.js:94-115 | It stores the patient record with "Pendiente" placeholders after repairing the role cache and sets the patient claims; failures set no claims. The store after the call is exactly the repaired one, plus the record on success; the cache and then the record are enumerated last when new. |
| Registration.RoleSteps | services/authBackendService.js:20-122 | An unknown role deletes the new account and fails; a known role keeps the account and, on success, sets the role's claims. A doctor lands in the organization `OrgChoice` picks; the documents written are exactly those of the role's branch, and they are enumerated in the order the branch writes them. |
| Registration.FinishRegistration | services/authBackendService.js:20-133 | After the account exists: a failed step deletes the account again and is wrapped under the registration prefix; success keeps it and sets the role's claims; the documents written are those of the role's branch, enumerated in the order it writes them. |
| Registration.RegisterUser | services/authBackendService.js:5-135 | A refused account creation is rethrown and changes nothing, not even the enumeration order. With the corrected catch (`Catch`), any later failure deletes the account and is wrapped as "Error al registrar usuario: ...". Success creates the account, lands a doctor in the organization `OrgChoice` picks, and stores the role's records and the repaired role cache; no other document changes. |
| Registration.LoginUser | services/authBackendService.js:137-169 | A user with no resolvable role cannot log in. Otherwise the role's claims are set and `{ uid, email, rol, organizacionId }` returned. Every failure is wrapped as "Error al iniciar sesión: ..." and sets no claims. When the role did not come from the cache, the store afterwards holds the repaired `users/{uid}` entry; otherwise the store is unchanged. |
| Recommendations.NullRead | services/recommendationsService.js:32-45 | Reading a property of `null` is a TypeError without a code. |
| Recommendations.EnsureId | services/recommendationsService.js:22-28 | An id is accepted exactly when it is a non-empty string; otherwise "id requerido" with code invalid-arg. |
| Recommendations.Rewrap | services/recommendationsService.js:129-131 | The catch keeps not-found and invalid-arg errors, and replaces every other error by the generic one. |
| Recommendations.Pick | services/recommendationsService.js:49-50 | An allowed icon or priority is kept; anything else becomes the default, which is allowed. |
| Recommendations.Item | services/recommendationsService.js:44-66 | Each sanitized item has exactly its list's keys, with the fallbacks of the code: a fresh id, empty texts, and the default icon and priority. |
| Recommendations.FreshId | services/recommendationsService.js:79-82 | A generated id is never empty. |
| Recommendations.Items | services/recommendationsService.js:44-66 | Mapping a list fails exactly when it holds a `null` item; otherwise it sanitizes every item in place, keeping the length. |
| Recommendations.Sanitize | services/recommendationsService.js:30-69 | A `null` block throws; otherwise the block has exactly the six known keys; no failure is a known error. |
| Recommendations.SanitizeShape | services/recommendationsService.js:30-69 | The three lists keep their lengths and hold sanitized items; status, message and timestamp keep valid values and fall back to "success", "" and the current time. |
| Recommendations.ItemIdempotent | services/recommendationsService.js:44-66 | Sanitizing a sanitized item changes nothing. |
| Recommendations.ItemsIdempotent | services/recommendationsService.js:44-66 | Sanitizing a sanitized list changes nothing, whatever ids would be generated. |
| Recommendations.SanitizeIdempotent | services/recommendationsService.js:30-69 | Sanitizing a sanitized block gives it back unchanged, whatever the clock and the random ids. |
| Recommendations.Truthies | services/recommendationsService.js:76 | `filter(Boolean)` keeps exactly the truthy elements and keeps an all-truthy list whole. |
| Recommendations.LegacyStrings | services/recommendationsService.js:71-77 | No block or no plan gives []; otherwise exactly the truthy labels of the plan items, never more than the plan has. |
| Recommendations.LegacyTitles | services/recommendationsService.js:74-76 | When every plan item has a title, the legacy list is the titles in order. |
| Recommendations.AnalysisRef | services/recommendationsService.js:6-7 | The analysis path, built exactly when both ids pass `ensureId` and are valid document ids. |
| Recommendations.Recommended | services/recommendationsService.js:108-126 | The read shape has exactly the five keys. It uses stored non-empty legacy strings, or else those derived from the block. The stored status and timestamp win over the block's. The details default to []. |
| Recommendations.GetRecommendations | services/recommendationsService.js:94-133 | Invalid ids fail with invalid-arg, a missing analysis with not-found, and a failed sanitize with the generic error; otherwise it returns the read shape. |
| Recommendations.FlatBlockSurvivesMerge | services/recommendationsService.js:180 | Merging a flat block over an existing object changes nothing that sanitizing the result reads. |
| Recommendations.BlockSurvivesMerge | services/recommendationsService.js:180 | A merged sanitized block is read back as itself. |
| Recommendations.SaveFields | services/recommendationsService.js:166-178 | The write always holds legacy strings, a string status, a number-or-string timestamp and the update time. It holds the block exactly when given, and the details exactly when an array. Explicit payload values win. |
| Recommendations.SaveWrite | services/recommendationsService.js:156-178 | Building the write fails exactly on a `null` payload or a failed sanitize; otherwise it holds the sanitized block, if one was given. |
| Recommendations.WrittenReadsBack | services/recommendationsService.js:166-182 | After merging a write with a block, reading returns that block and that status. |
| Recommendations.SaveRecommendations | services/recommendationsService.js:143-188 | It requires valid ids and an existing analysis. It succeeds exactly when the write can be built and stored; then it merges it and returns it. A later read returns the saved block and status. Failures write nothing. |
| Recommendations.Overridden | services/recommendationsService.js:218-229 | Each of the four fields is written from the partial exactly when it has the required type (array, array, string, number or string); otherwise it keeps its earlier value or stays absent. No other field changes. |
| Recommendations.PatchSanitizes | services/recommendationsService.js:206-217 | The patch fails exactly on a `null` partial or a block that fails to sanitize. A successful patch merges the sanitized block when one is given, and no block otherwise. A merged block's status is a string. |
| Recommendations.MergedNamesNothing | services/recommendationsService.js:206-233 | The patch names only known fields. It names nothing exactly when it gives no block and no field of the right type. |
| Recommendations.MergedShape | services/recommendationsService.js:207-220 | The block is written exactly when given, unchanged. The legacy strings are written when given or when a block is given; an explicit list wins over the block's. |
| Recommendations.MergedDetail | services/recommendationsService.js:221-223 | The details are written exactly when the partial holds an array, and then as given. |
| Recommendations.MergedStatus | services/recommendationsService.js:215-229 | Status and timestamp are written when explicit or when a block is given. An explicit value wins; otherwise the block's is used. |
| Recommendations.PatchFields | services/recommendationsService.js:206-229 | Building `toMerge` step by step gives the patch. |
| Recommendations.PatchRecommendations | services/recommendationsService.js:193-244 | Invalid ids fail with "id requerido", a missing analysis with not-found. It succeeds exactly when the analysis exists, the patch sanitizes and, for a patch that names something, the merge is accepted; a patch naming nothing writes nothing and returns `{}`, any other success merges the stamped patch. |
| Recommendations.MaxId | services/recommendationsService.js:259-260 | `orderBy(documentId, "desc").limit(1)` picks a listed id that is greatest in the id order. |
| Recommendations.GetLatestRecommendations | services/recommendationsService.js:246-281 | A missing patient id is invalid-arg, and no analyses is not-found. Otherwise it reads the greatest id's recommendations, returned as `{ analysisId, data }`, and rewraps unknown errors. |
| Profile.ProfileOf | services/profileService.js:5-42 | Another role gives null. A patient gets the stored record or null. A doctor gets an object or null. |
| Profile.DoctorProfileIsFirstMatch | services/profileService.js:11-26 | A doctor's profile is null exactly when no organization holds the doctor. Otherwise it comes from the first organization that does: the doctor's fields plus that organization's id and name. |
| Profile.GetUserProfile | services/profileService.js:5-42 | The loop returns `ProfileOf` on the store read. |
| Profile.UpdateData | services/profileService.js:49-52 | The update holds every field of the data plus `updatedAt`, which always takes the current time. |
| Profile.UpdateTarget | services/profileService.js:54-65 | A doctor with an organization writes the doctor document, and a patient writes the patient record. Any other call writes nothing. An invalid organization id fails. |
| Profile.UpdateUserProfile | services/profileService.js:45-73 | It merges the update into the target, or writes nothing, and replies with the success message; store errors surface unchanged and write nothing. |
| Profile.RequiredFields | services/profileService.js:82-94 | A patient has seven required fields, a doctor four, any other role none. |
| Profile.Resolve | services/profileService.js:97 | Following an empty path gives the value itself; stepping into a non-object gives `undefined`. |
| Profile.ResolveThroughMissing | services/profileService.js:97 | Once the path reaches a non-object, the whole path resolves to `undefined`. |
| Profile.CountFilled | services/profileService.js:96-101 | The count is at most the field count; it equals it exactly when every field is filled and is 0 exactly when none is. |
| Profile.RoundPercent | services/profileService.js:103 | `Math.round(c / n * 100)`: a percentage in 0..100 within half a point of the exact ratio. |
| Profile.CountCompleted | services/profileService.js:96-101 | The loop counts the filled fields. |
| Profile.CalculateProfileCompletion | services/profileService.js:76-104 | The computed score is the completion. |
| Profile.CompletionBounds | services/profileService.js:76-104 | For a doctor or a patient the score is a percentage in 0..100. It is 100 exactly when every field is filled, and 0 exactly when the profile is falsy or no field is filled. |
| Profile.RoundPercentExtremes | services/profileService.js:103 | With four or seven fields, rounding gives 100 only for all, and 0 only for none. |
| Profile.OtherRoleIsNaN | services/profileService.js:76-103 | For any other role the score is NaN, or 0 for a falsy profile. |
| Analysis.BuildDateIdUTC | services/analysisService.js:7-10 | The id is the ISO date with every ':' and '.' replaced by '_', keeping the length. |
| Analysis.DateIdShape | services/analysisService.js:7-10 | The date id has no ':' or '.', is a valid document id for a non-empty date without '/', and converting it again changes nothing. |
| Analysis.DesiredId | services/analysisService.js:30 | The data's truthy `id`, else its truthy `analysisId`, else the date id. |
| Analysis.FinalId | services/analysisService.js:33-38 | A free id is kept; a taken id gets "_" and the random suffix, so it differs. |
| Analysis.Payload | services/analysisService.js:23-27 | The stored document is the data's fields plus both timestamps. |
| Analysis.CreatedAsWritten | services/analysisService.js:42 | As written, the reply's `id` and `analysisId` come from the payload when the data has them. |
| Analysis.CreatedAsWrittenMisreportsRename | services/analysisService.js:33-42 | After a collision rename, the reply as written reports the old id, not the id of the stored document. |
| Analysis.Created | services/analysisService.js:42 | The reply names the stored document's id as `id` and `analysisId`, with every other payload field. |
| Analysis.CreateAnalysis | services/analysisService.js:16-47 | A missing patient id fails. Success stores the payload at the final id and replies with the corrected reply (`Created`), whose id is that final id; reading it back gives the stored document. Every failure is "Error al crear análisis." and writes nothing. Valid ids and a passing write do succeed. |
| Analysis.AnalysisRef | services/analysisService.js:75-80 | The analysis path, built exactly when both ids are valid document ids; a falsy id gives none. |
| Analysis.AnalysisById | services/analysisService.js:73-88 | A missing document gives null, a stored one `{ id, ...data }`; invalid ids fail with "Error al obtener análisis.". |
| Analysis.PageSize | services/analysisService.js:52 | The limit defaults to 50; a non-negative number is used as given. |
| Analysis.Take | services/analysisService.js:57 | `limit(n)` keeps the first `n` documents, or all when fewer. |
| Analysis.GetAnalyses | services/analysisService.js:52-64 | A missing patient id fails with "patientId requerido". Otherwise the result is the first `limit` analyses holding `createdAt`, of any type, largest first in `orderBy`'s value order, as rows. |
| Analysis.GetLatestAnalysis | services/analysisService.js:67-70 | The first analysis of that listing as a row, or null when no analysis holds `createdAt`; it fails exactly when the listing does. |
| Analysis.LatestIsNewest | services/analysisService.js:67-70 | The latest analysis is a stored analysis holding `createdAt`, and no analysis holds a `createdAt` that sorts after its own, whatever the types. |
| Analysis.UpdateFields | services/analysisService.js:96 | The merge holds the partial's fields plus `updatedAt`, which always takes the current time. |
| Analysis.UpdateAnalysis | services/analysisService.js:91-105 | It merges the partial plus `updatedAt`, creating the document when it was missing, and replies with the merged document and its id. Reading it back gives the same. Failures are "Error al actualizar análisis." and write nothing. |
| Analysis.DeleteAnalysis | services/analysisService.js:108-117 | It removes the analysis and replies `{ ok: true }`; afterwards reading it gives null. Failures are "Error al eliminar análisis." and write nothing. |

## Left out

- Concurrency is not modelled. Every service call runs to completion with no other writer in between. Firestore transactions are not used by the code.
- The clock, `Math.random` and `Date.prototype.toISOString` are not modelled. They are parameters: `now`, the random ids or suffix, and `iso`. Server timestamps are stored as the commit time `now`, and so are the replies that echo a sentinel.
- Firestore enumerates documents in id order. The model enumerates them in the abstract order `Db.order`, new documents last. Only `getLatestRecommendations` orders by id, through the code-point order `Text.Leq`. That order also stands in for `localeCompare` in `getAllOrganizations`.
- Ties in `orderBy(field, "desc")` are left unresolved. The model proves the set of documents and the descending order, not the position of equal values.
- Store.OrderByDesc: `ValueLeq` ranks types and orders booleans, numbers, timestamps and strings by value, as Firestore does. Two arrays, two maps, or two nulls count as equal, so their relative position is not stated; Firestore compares arrays element by element and maps key by key. Numbers are integers, so NaN and the mixing of integers with doubles are not modelled. References, geopoints and bytes values do not occur in the model.
- Floating-point numbers are not modelled; `Num` holds integers. `Math.round(c / n * 100)` is modelled exactly in integers, and its extremes are proved for the field counts the code uses (4 and 7).
- The text of the SDK's errors and of JavaScript TypeErrors (`INVALID_PATH`, `INVALID_VALUE`, `NotAFunction`, ...) is a stand-in. The model relies on their codes, never on their wording.
- A document id containing '/' addresses a nested path in Firestore. The model refuses it as an invalid path.
- The HTTP layer is not modelled: authentication middleware, Express and the handlers that only forward a call and wrap its error as 400 (GET `/doctor/me`, `/doctor/:doctorId`, `/patient/me`). `AppointmentRoutes.Reply` is the wrapping they share.
- `acceptAppointmentAuto` receives `doctorName` from the route and ignores it; the model does the same.
- `getUserRoleAndOrg` falls back to the manual organization scan only when the collection-group query throws. The model takes the missing index as the sole cause of that exception.
- `checkOrganizationExists` matches `codigoRegistro` by exact equality with the device id, as the query does. It does not look inside a comma-separated list.
- Text.Lower: only ASCII and Latin-1 capitals are lowered; capitals of other scripts (Greek, Cyrillic, ...) are kept, and the length-changing mappings of `toLowerCase` (such as "İ", which becomes two characters) are not modelled. This affects the derived organization id of `registerUser` and the case-insensitive name comparison of `checkEsp32IdAdvanced`.
- Organizations.Decide: the "same name ignoring case" test is the `Text.Lower` comparison, so two names that differ only in the case of a non-Latin letter (for example "МЕДИЦИНА" and "медицина") count as different names, whereas the source lets the doctor join.
- There is no rollback in `registerUser`: organization, device and cache writes made before a failure stay, and only the identity is cleaned up.
- `safeCreateUsersDoc` and the device binding swallow their errors, and so does the model. Their logging is not modelled.
- Reads never fail in the model. `Db.Get` and `Db.Collection` always answer, and `Db.Group` fails only when the collection-group index is missing. Read errors of the store (PERMISSION_DENIED, UNAVAILABLE, ...) and the generic messages the services wrap them in on their read paths are not modelled.
- Registration.RegisterUser: it is built on the corrected handling `Registration.Catch` (see Findings), not on the code as written. As written, a store error with a numeric code makes the catch throw a TypeError: the account is then not deleted and the caller gets that TypeError.
- Analysis.CreateAnalysis: it replies with the corrected reply `Analysis.Created` (see Findings), not with the reply as written. As written, a payload holding `id` or `analysisId` overrides the stored document's id in the reply.
- Organizations.GetAllOrganizations: it states a sorted permutation, not that organizations with equal names keep their listing order as the source's stable `sort` does.
- `createAnalysis` does not re-check the renamed id after a collision. `set` then overwrites whatever is stored there, and the model does the same.
- `getAnalyses` retries with `orderBy("timestamp")` only when the first query throws. Ordering by a missing field does not throw, it drops the document, so that fallback is left out. A limit the SDK refuses (`PageSize` failing) is a stand-in for its error.
- `Recommendations.FreshId`: the random ids are given per list and position by a function the caller supplies. The model does not prove that they are distinct.
- Json.Spread: spreading a string or an array is modelled as spreading nothing, not as copying its indexed characters or elements.
- Profile.RequiredFields: the dotted field names are modelled as the key paths that `split(".")` makes of them, written out.
- The uid of an authenticated caller is assumed to be a valid document id (`ValidSegment(uid)`), as the identity provider guarantees.
- Console logging is not modelled.

## Findings

| source | as written | input that shows it | evidently intended | confidence | as-written member | corrected member |
|---|---|---|---|---|---|---|
| services/analysisService.js:42 | The reply spreads the payload after the document id, so a caller's `id` or `analysisId` overrides it. | Patient "p1" with analysis "a1" stored; create with data `{ id: "a1" }` and suffix "x9k2": the document is stored as "a1_x9k2", but the reply says `id: "a1"`. | The reply names the id the document was stored under. | not executed | Analysis.CreatedAsWritten, Analysis.CreatedAsWrittenMisreportsRename | Analysis.Created |
| services/authBackendService.js:126 | `error.code.startsWith` is called on any truthy code, but store errors carry a numeric code. The test throws a TypeError, so the new account is not deleted. | A registration whose doctor or patient write is refused with PERMISSION_DENIED (code 7). | Only provider errors ("auth/...") are rethrown. Every other failure deletes the account and is wrapped. | not executed | Registration.CatchAsWritten, Registration.CatchAsWrittenSkipsCleanup | Registration.Catch |
