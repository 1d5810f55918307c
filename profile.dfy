/**
 The profile page's behaviour (src/pages/protected/Profile.tsx): the mount
 effect that adopts a fresh registration, the patient lookup run when the user
 changes, the three input handlers, and `handleSubmit` with its three paths
 (a registration not yet signed in, a signed-in patient, anyone else).

 As for the session, each operation is a function from the world before to the
 world after, with the properties it guarantees, and a method of the
 `ProfilePage` class proved to end in the world the function describes. The
 `setTimeout(navigate…)` and `window.location.reload()` calls are recorded as
 the navigation the page has scheduled.
 */
module Profile {
  import opened Wrappers
  import opened Js
  import JsString
  import opened Net
  import Auth
  import opened ProfileRules

  /** The entry `Register` leaves for the profile page: the new account with its password. */
  const RegistrationKey: string := "cf_registration_data"
  /** The entry of the older registration flow. */
  const TempUserKey: string := "temp_user_data"

  const UpdateFailedText: string := "Erreur lors de la mise à jour"
  const ToLoginText: string := "Profil sauvegardé ! Redirection vers la connexion..."
  const PatientSavedText: string := "\U{2705} Profil patient enregistré ! Redirection vers votre tableau de bord..."
  const ProfileCompletedText: string := "\U{2705} Profil complété avec succès ! Redirection vers le tableau de bord..."
  const UpsertSavedText: string := "\U{2705} Profil patient enregistré (via user upsert) ! Redirection..."
  const ProfileUpdatedText: string := "Profil mis à jour avec succès !"

  /** Where a scheduled navigation goes: `/dashboard?from=profile`,
      `/login?email=…&profile_completed=true`, or a reload of the page. */
  datatype Nav = Dashboard | LoginWithEmail(email: Json) | Reload

  /** The page's own state (its `useState` hooks) and the navigation it has scheduled. */
  datatype Page = Page(error: string, success: string, isLoading: bool, isEditing: bool,
                       tempUser: Json, patient: Json, profileData: ProfileData,
                       patientLoading: bool, navigation: Option<Nav>)

  /** The page next to the session and the browser. */
  datatype World = World(page: Page, session: Auth.State)

  /** The hooks' initial values (lines 26-41); `isEditing` starts on for a welcome visit. */
  function InitialPage(user: Json, isWelcome: bool): (p: Page)
    ensures p.error == "" && p.success == "" && !p.isLoading && p.isEditing == isWelcome
    ensures p.tempUser == Null && p.patient == Null && p.navigation == None
    ensures p.profileData == ProfileDataOf(user)
  {
    Page("", "", false, isWelcome, Null, Null, ProfileDataOf(user), false, None)
  }

  // ---------------------------------------------------------------------------
  // The mount effect (lines 94-144)

  /** The form as filled from a registration record: only the name is carried over. */
  function RegistrationForm(data: Json): (pd: ProfileData)
    ensures pd.name == Or(Get(data, "name"), Str(""))
    ensures pd.firstName == pd.lastName == pd.phone == pd.specialty == pd.address == Str("")
  {
    ProfileData(Or(Get(data, "name"), Str("")), Str(""), Str(""), Str(""), Str(""), Str(""))
  }

  /** Taking a stored record as the temporary user. Reading `.name` off a null
      record throws, which cuts the effect short after `setTempUser`. */
  function Adopt(p: Page, data: Json, edit: bool): Page {
    if IsNullish(data) then p.(tempUser := data)
    else p.(tempUser := data, profileData := RegistrationForm(data), isEditing := edit || p.isEditing)
  }

  function MountSpec(w: World, fromRegister: bool, isTemp: bool): (p: Page)
    ensures Truthy(w.session.auth.user) ==>
      p == w.page.(profileData := ProfileDataOf(w.session.auth.user))
    ensures !Truthy(w.session.auth.user) && fromRegister && RegistrationKey in w.session.env.storage ==>
      var data := w.session.env.storage[RegistrationKey];
      p == if IsNullish(data) then w.page.(tempUser := data)
           else w.page.(tempUser := data, profileData := RegistrationForm(data), isEditing := true)
    ensures (!Truthy(w.session.auth.user) && !(fromRegister && RegistrationKey in w.session.env.storage) &&
             isTemp && TempUserKey in w.session.env.storage) ==>
      var data := w.session.env.storage[TempUserKey];
      p == if IsNullish(data) then w.page.(tempUser := data)
           else w.page.(tempUser := data, profileData := RegistrationForm(data))
    ensures (!Truthy(w.session.auth.user) && !(fromRegister && RegistrationKey in w.session.env.storage) &&
             !(isTemp && TempUserKey in w.session.env.storage)) ==> p == w.page
  {
    var user := w.session.auth.user;
    var storage := w.session.env.storage;
    if fromRegister && RegistrationKey in storage && !Truthy(user) then Adopt(w.page, storage[RegistrationKey], true)
    else if isTemp && !Truthy(user) && TempUserKey in storage then Adopt(w.page, storage[TempUserKey], false)
    else if Truthy(user) then w.page.(profileData := ProfileDataOf(user))
    else w.page
  }

  /** A registration record adopted on mount sends the next submission down the registration path. */
  lemma MountedRegistrationIsTempPath(w: World, isTemp: bool)
    requires !Truthy(w.session.auth.user) && RegistrationKey in w.session.env.storage
    requires Truthy(w.session.env.storage[RegistrationKey])
    ensures var p := MountSpec(w, true, isTemp);
      && Truthy(p.tempUser) && p.isEditing
      && p.profileData == RegistrationForm(w.session.env.storage[RegistrationKey])
  {
  }

  // ---------------------------------------------------------------------------
  // The patient lookup (lines 147-181)

  function LookupRequest(user: Json): Request {
    Request(GET, PatientsOfUser(Get(user, "id")), Undefined)
  }

  /** The effect run for the current user: only a patient is looked up; a
      truthy record is adopted and prefills the form; a failure changes nothing. */
  function FetchPatientSpec(w: World): (r: World)
    ensures r.session.auth == w.session.auth && r.session.env.storage == w.session.env.storage
    ensures r.page.error == w.page.error && r.page.success == w.page.success && r.page.navigation == w.page.navigation
  {
    var user := w.session.auth.user;
    if !Truthy(user) || LookupRole(user) != Str("patient") then w
    else
      var (o, env) := Call(w.session.env, LookupRequest(user));
      var payload := if o.Ok? then LookupPayload(o.data) else Null;
      var page := if Truthy(payload) then w.page.(patient := payload, profileData := Prefill(w.page.profileData, payload))
                  else w.page;
      World(page.(patientLoading := false), w.session.(env := env))
  }

  /** Exactly one request, the lookup by user id, and only for a patient; the
      record and the form change only on a truthy answer. */
  lemma FetchPatientRequests(w: World)
    ensures var r := FetchPatientSpec(w);
      var user := w.session.auth.user;
      && (Truthy(user) && LookupRole(user) == Str("patient") ==>
            && r.session.env.log == w.session.env.log + [LookupRequest(user)]
            && !r.page.patientLoading
            && var o := OutcomeAt(w.session.env.script, 0);
               if o.Ok? && Truthy(LookupPayload(o.data)) then
                 r.page.patient == LookupPayload(o.data) && r.page.profileData == Prefill(w.page.profileData, LookupPayload(o.data))
               else
                 r.page == w.page.(patientLoading := false))
      && (!(Truthy(user) && LookupRole(user) == Str("patient")) ==> r == w)
  {
  }

  /** Looking the same record up twice prefills the form as once. */
  lemma FetchPatientTwice(w: World)
    requires Truthy(w.session.auth.user) && LookupRole(w.session.auth.user) == Str("patient")
    requires var o := OutcomeAt(w.session.env.script, 0); o.Ok? && Truthy(LookupPayload(o.data))
    requires OutcomeAt(w.session.env.script, 1) == OutcomeAt(w.session.env.script, 0)
    ensures FetchPatientSpec(FetchPatientSpec(w)).page.profileData == FetchPatientSpec(w).page.profileData
  {
    var payload := LookupPayload(OutcomeAt(w.session.env.script, 0).data);
    OutcomeAfterFirst(w.session.env.script, 0);
    PrefillIdempotent(w.page.profileData, payload);
  }

  // ---------------------------------------------------------------------------
  // handleSubmit (lines 248-516)

  /** `setError(""); setSuccess(""); setIsLoading(true)` */
  function Start(w: World): World {
    w.(page := w.page.(error := "", success := "", isLoading := true))
  }

  /** How a path ends: a success message with a navigation scheduled, or an
      error message with none; the other message is left as it was. */
  predicate Settled(before: Page, after: Page) {
    || (after.success != "" && after.error == before.error && after.navigation.Some?)
    || (after.error != "" && after.success == before.success && after.navigation == before.navigation)
  }

  /** `err.message || "Erreur lors de la mise à jour"` for an error thrown by the JavaScript engine itself. */
  function EngineError(engineText: string): (e: string)
    ensures e != ""
  {
    JsString.OrElse(engineText, UpdateFailedText)
  }

  /** `e?.response?.data?.message || e?.message || "Erreur lors de la mise à jour"` */
  function FailureText(o: Outcome): (e: string)
    requires o.Fail?
    ensures e != ""
    ensures o.status.Some? && o.apiMessage != "" ==> e == o.apiMessage
    ensures (o.status.None? || o.apiMessage == "") && o.message != "" ==> e == o.message
  {
    JsString.OrElse(ResponseMessage(o), JsString.OrElse(o.message, UpdateFailedText))
  }

  /** The user update with its one fallback (lines 348-357 and 460-494):
      `PATCH /users/:id`, and only after a 404 `PATCH /users/profile`. */
  function UserSteps(id: Json, pd: ProfileData): seq<Step> {
    [Step(Request(PATCH, UserById(id), ProfileJson(pd)), OnStatus({404})),
     Step(Request(PATCH, UsersProfile, ProfileJson(pd)), Never)]
  }

  /** The patient record a registration creates (lines 296-302). */
  function TempPatientBody(userId: Json, pd: ProfileData): Json {
    Obj(map["user" := userId, "firstName" := pd.firstName, "lastName" := pd.lastName, "phone" := pd.phone,
            "address" := Obj(map["street" := Or(pd.address, Str(""))])])
  }

  /** `POST /patients`; after a 404 or 409 `PATCH /patients/user/:userId`;
      after any failure of that `PUT /patients/:userId` (lines 304-335). */
  function TempPatientSteps(userId: Json, pd: ProfileData): seq<Step> {
    var body := TempPatientBody(userId, pd);
    [Step(Request(POST, Patients, body), OnStatus({404, 409})),
     Step(Request(PATCH, PatientsOfUser(userId), body), AnyFailure),
     Step(Request(PUT, PatientById(userId), body), Never)]
  }

  /** The first save of a signed-in patient (lines 424-433): by record id when
      the record has one, else a creation linked to the user. */
  function SaveRequest(patient: Json, userId: Json, data: Json): Request {
    var id := Or(Get(patient, "_id"), Get(patient, "id"));
    if Truthy(patient) && Truthy(id) then Request(PATCH, PatientById(id), data)
    else Request(POST, Patients, CreateBody(userId, data))
  }

  /** The fallback after any failure of the save: the upsert by user id with
      the payload as built, not as parsed (lines 440-447). */
  function Upsert(userId: Json, payload: Json): Request {
    Request(PATCH, PatientsOfUser(userId), payload)
  }

  function UpsertSteps(first: Request, upsert: Request): seq<Step> {
    [Step(first, AnyFailure), Step(upsert, Never)]
  }

  /** The password deletion after the automatic login (lines 281-292): the
      stored record, or `{}` when there is none, loses a truthy password. */
  function Scrubbed(storage: map<string, Json>): (r: map<string, Json>)
    ensures r.Keys == storage.Keys
    ensures forall k :: k in storage && k != RegistrationKey ==> r[k] == storage[k]
    ensures !Truthy(Get(GetItem(r, RegistrationKey), "password"))
    ensures forall k :: k != "password" ==> Get(GetItem(r, RegistrationKey), k) == Get(GetItem(storage, RegistrationKey), k)
  {
    var reg := GetItem(storage, RegistrationKey);
    if Truthy(reg) && Truthy(Get(reg, "password")) then storage[RegistrationKey := Obj(reg.fields - {"password"})]
    else storage
  }

  /** The redirection to the login page with the registration's email. */
  function ToLogin(w: World): World {
    w.(page := w.page.(success := ToLoginText, navigation := Some(LoginWithEmail(Get(w.page.tempUser, "email")))))
  }

  /** A completed registration: the stored record is removed and the temporary user forgotten. */
  function Completed(w: World, text: string): World {
    World(w.page.(success := text, tempUser := Null, navigation := Some(Dashboard)),
          w.session.(env := w.session.env.(storage := w.session.env.storage - {RegistrationKey})))
  }

  /** The end of the registration path once its chain has run: a failure
      redirects to the login, a success completes the registration. */
  function TempDone(w: World, run: Run, patientRole: bool): (r: World)
    ensures Settled(w.page, r.page) && r.session.auth == w.session.auth
  {
    var w1 := w.(session := w.session.(env := run.env));
    if run.outcome.Fail? then ToLogin(w1)
    else Completed(w1, if patientRole then PatientSavedText else ProfileCompletedText)
  }

  /** The registration path once the automatic login has returned `loggedUser`
      (lines 269-367); `cu` is the current user as it was before the login. */
  function TempSave(w: World, cu: Json, loggedUser: Json): World {
    var patientRole := AutoLoginRole(loggedUser, w.page.tempUser, cu) == Str("patient");
    TempChain(w, TempSteps(patientRole, Or(Get(loggedUser, "id"), Get(cu, "id")), w.page.profileData), patientRole)
  }

  /** The registration's save: the patient record for a patient, the user update for anyone else. */
  function TempSteps(patientRole: bool, userId: Json, pd: ProfileData): (steps: seq<Step>)
    ensures |steps| == if patientRole then 3 else 2
  {
    if patientRole then TempPatientSteps(userId, pd) else UserSteps(userId, pd)
  }

  /** The password deletion, then the save chain and its end. */
  function TempChain(w: World, steps: seq<Step>, patientRole: bool): World
    requires |steps| > 0
  {
    var scrubbed := w.(session := w.session.(env := w.session.env.(storage := Scrubbed(w.session.env.storage))));
    TempDone(scrubbed, RunChain(steps, scrubbed.session.env), patientRole)
  }

  /** The registration path (lines 256-385). */
  function SubmitTempSpec(w: World, engineText: string): (r: World)
    ensures Settled(w.page, r.page)
  {
    var storage := w.session.env.storage;
    if RegistrationKey !in storage then ToLogin(w)
    else if IsNullish(storage[RegistrationKey]) then w.(page := w.page.(error := EngineError(engineText)))
    else
      var reg := storage[RegistrationKey];
      var login := Auth.LoginSpec(w.session, Get(reg, "email"), Get(reg, "password"));
      var w1 := w.(session := login.state);
      match login.result
      case Threw(_) => ToLogin(w1)
      case Returned(loggedUser) => TempSave(w1, CurrentUser(w.session.auth.user, w.page.tempUser), loggedUser)
  }

  /** The end of the signed-in patient path once its chain has run. */
  function PatientDone(w: World, run: Run): (r: World)
    ensures Settled(w.page, r.page) && r.session.auth == w.session.auth
  {
    var w1 := w.(session := w.session.(env := run.env));
    if run.outcome.Fail? then w1.(page := w1.page.(error := JsString.OrElse(run.outcome.message, UpdateFailedText)))
    else
      var done := World(w1.page.(success := if run.attempts == 1 then PatientSavedText else UpsertSavedText,
                                 navigation := Some(Dashboard)),
                        w1.session.(env := run.env.(storage := run.env.storage - {RegistrationKey})));
      if run.attempts == 1 then done.(page := done.page.(patient := Null)) else done
  }

  /** The signed-in patient path (lines 388-456). */
  function SubmitPatientSpec(w: World, zodText: Issue -> string): (r: World)
    ensures Settled(w.page, r.page)
  {
    var cu := CurrentUser(w.session.auth.user, w.page.tempUser);
    var payload := PatientPayload(w.page.patient, w.page.profileData);
    if PatientIssues(payload) != [] then w.(page := w.page.(error := ValidationError(payload, zodText)))
    else
      var id := Get(cu, "id");
      PatientSave(w, SaveRequest(w.page.patient, id, ParsedPatient(payload)), Upsert(id, payload))
  }

  /** The save of a payload the schema accepted, with its fallback. */
  function PatientSave(w: World, first: Request, upsert: Request): (r: World)
    ensures Settled(w.page, r.page) && r.session.auth == w.session.auth
  {
    PatientDone(w, RunChain(UpsertSteps(first, upsert), w.session.env))
  }

  /** The end of the path of everyone else once its chain has run. */
  function OtherDone(w: World, run: Run, isWelcome: bool): (r: World)
    ensures Settled(w.page, r.page) && r.session.auth == w.session.auth
  {
    var w1 := w.(session := w.session.(env := run.env));
    if run.outcome.Fail? then w1.(page := w1.page.(error := FailureText(run.outcome)))
    else w1.(page := w1.page.(success := ProfileUpdatedText, isEditing := false,
                              navigation := Some(if isWelcome then Dashboard else Reload)))
  }

  /** The path of everyone else (lines 459-508). Reading `.id` off a null
      current user throws before any request is sent. */
  function SubmitOtherSpec(w: World, isWelcome: bool, engineText: string): (r: World)
    ensures Settled(w.page, r.page)
  {
    var cu := CurrentUser(w.session.auth.user, w.page.tempUser);
    if IsNullish(cu) then w.(page := w.page.(error := EngineError(engineText)))
    else OtherDone(w, RunChain(UserSteps(Get(cu, "id"), w.page.profileData), w.session.env), isWelcome)
  }

  predicate TempPath(w: World) {
    Truthy(w.page.tempUser) && !Truthy(w.session.auth.user)
  }

  predicate PatientPath(w: World) {
    !TempPath(w) && PrimaryRole(CurrentUser(w.session.auth.user, w.page.tempUser)) == Str("patient")
  }

  /** `handleSubmit`: every submission ends with the loading flag off and exactly
      one of the two messages shown, and schedules a navigation exactly when it
      shows the success message. */
  function SubmitSpec(w: World, isWelcome: bool, zodText: Issue -> string, engineText: string): (r: World)
    ensures !r.page.isLoading
    ensures (r.page.error == "") != (r.page.success == "")
    ensures r.page.success == "" ==> r.page.navigation == w.page.navigation
    ensures r.page.success != "" ==> r.page.navigation.Some?
  {
    var s := Start(w);
    var r := if TempPath(w) then SubmitTempSpec(s, engineText)
             else if PatientPath(w) then SubmitPatientSpec(s, zodText)
             else SubmitOtherSpec(s, isWelcome, engineText);
    r.(page := r.page.(isLoading := false))
  }

  // ---------------------------------------------------------------------------
  // Properties of the registration path

  /** Without a stored record, or when the automatic login throws, the page
      redirects to the login with the registration's email, sets no error and
      keeps the stored record, password included, untouched. */
  lemma TempLoginFailureRedirects(w: World, isWelcome: bool, zodText: Issue -> string, engineText: string)
    requires TempPath(w)
    requires RegistrationKey !in w.session.env.storage ||
             (!IsNullish(w.session.env.storage[RegistrationKey]) && OutcomeAt(w.session.env.script, 0).Fail?)
    ensures var r := SubmitSpec(w, isWelcome, zodText, engineText);
      && r.page.error == "" && r.page.success == ToLoginText
      && r.page.navigation == Some(LoginWithEmail(Get(w.page.tempUser, "email")))
      && r.page.tempUser == w.page.tempUser
      && r.session.auth == w.session.auth
      && r.session.env.storage == w.session.env.storage
      && |r.session.env.log| <= |w.session.env.log| + 1
  {
  }

  /** A null stored record fails the destructuring: the engine's error is shown and nothing is sent. */
  lemma TempNullRecord(w: World, isWelcome: bool, zodText: Issue -> string, engineText: string)
    requires TempPath(w)
    requires RegistrationKey in w.session.env.storage && IsNullish(w.session.env.storage[RegistrationKey])
    ensures var r := SubmitSpec(w, isWelcome, zodText, engineText);
      && r.page.error == EngineError(engineText) && r.page.success == ""
      && r.session == w.session
  {
  }

  /** A login that answers sends the path on to the save, with the session as the login left it. */
  lemma TempLoginReturns(w: World, engineText: string)
    requires RegistrationKey in w.session.env.storage && !IsNullish(w.session.env.storage[RegistrationKey])
    requires OutcomeAt(w.session.env.script, 0).Ok?
    ensures var reg := w.session.env.storage[RegistrationKey];
      var login := Auth.LoginSpec(w.session, Get(reg, "email"), Get(reg, "password"));
      && login.result.Returned?
      && RegistrationKey in login.state.env.storage && login.state.env.storage[RegistrationKey] == reg
      && (forall k :: k in w.session.env.storage && k != Auth.TokenKey ==>
            k in login.state.env.storage && login.state.env.storage[k] == w.session.env.storage[k])
      && SubmitTempSpec(w, engineText)
         == TempSave(w.(session := login.state), CurrentUser(w.session.auth.user, w.page.tempUser), login.result.user)
  {
  }

  /** After the automatic login the path ends either completed (the record
      removed, the temporary user forgotten, on to the dashboard) or redirected
      to the login without an error; in both cases no truthy password is left in
      storage, every other entry is kept, and so is every other field of the
      record. */
  lemma TempSaveOutcome(w: World, steps: seq<Step>, patientRole: bool)
    requires |steps| > 0
    ensures var r := TempChain(w, steps, patientRole);
      var before := w.session.env.storage;
      var after := r.session.env.storage;
      && r.session.auth == w.session.auth && r.page.error == w.page.error
      && !Truthy(Get(GetItem(after, RegistrationKey), "password"))
      && (forall k :: k in before && k != RegistrationKey ==> k in after && after[k] == before[k])
      && (RegistrationKey in after ==>
            forall k :: k != "password" ==> Get(after[RegistrationKey], k) == Get(before[RegistrationKey], k))
      && (|| (r.page.success == ToLoginText && r.page.navigation == Some(LoginWithEmail(Get(w.page.tempUser, "email")))
              && after.Keys == before.Keys)
          || (r.page.success in {PatientSavedText, ProfileCompletedText} && r.page.navigation == Some(Dashboard)
              && r.page.tempUser == Null && after.Keys == before.Keys - {RegistrationKey}))
  {
    var scrubbed := w.(session := w.session.(env := w.session.env.(storage := Scrubbed(w.session.env.storage))));
    RunChainShape(steps, scrubbed.session.env);
    TempDoneOutcome(scrubbed, RunChain(steps, scrubbed.session.env), patientRole);
  }

  /** The end of the registration path keeps what the chain found in storage, or removes the record from it. */
  lemma TempDoneOutcome(w: World, run: Run, patientRole: bool)
    requires run.env.storage == w.session.env.storage
    ensures var r := TempDone(w, run, patientRole);
      && r.page.error == w.page.error
      && (|| (r.page.success == ToLoginText && r.page.navigation == Some(LoginWithEmail(Get(w.page.tempUser, "email")))
              && r.session.env.storage == w.session.env.storage)
          || (r.page.success in {PatientSavedText, ProfileCompletedText} && r.page.navigation == Some(Dashboard)
              && r.page.tempUser == Null && r.session.env.storage == w.session.env.storage - {RegistrationKey}))
  {
  }

  /** The registration's patient record is tried in order: the creation, the
      upsert by user id only after a 404 or 409, the replacement only after any
      failure of the upsert; never more than three requests. */
  lemma TempPatientOrder(userId: Json, pd: ProfileData, e: Env)
    ensures var steps := TempPatientSteps(userId, pd);
      var r := RunChain(steps, e);
      var o0, o1 := OutcomeAt(e.script, 0), OutcomeAt(e.script, 1);
      && r.env.log == e.log + Requests(steps[..r.attempts])
      && (r.attempts >= 2 <==> o0.Fail? && o0.status in {Some(404), Some(409)})
      && (r.attempts == 3 <==> r.attempts >= 2 && o1.Fail?)
      && steps[0].req.verb == POST && steps[1].req == Request(PATCH, PatientsOfUser(userId), steps[0].req.body)
      && steps[2].req == Request(PUT, PatientById(userId), steps[0].req.body)
  {
    var steps := TempPatientSteps(userId, pd);
    ThreeStepChain(steps[0], steps[1], steps[2], e);
  }

  // ---------------------------------------------------------------------------
  // Properties of the signed-in patient path

  /** A payload the schema rejects is never sent: the error lists the field messages. */
  lemma PatientInvalidSendsNothing(w: World, isWelcome: bool, zodText: Issue -> string, engineText: string)
    requires PatientPath(w)
    requires !PatientValid(PatientPayload(w.page.patient, w.page.profileData))
    ensures var r := SubmitSpec(w, isWelcome, zodText, engineText);
      && r.session == w.session
      && r.page.error == ValidationError(PatientPayload(w.page.patient, w.page.profileData), zodText)
      && r.page.success == "" && r.page.patient == w.page.patient
  {
  }

  /** A payload the schema accepts goes on to the save, by the current user's id. */
  lemma PatientValidSaves(w: World, zodText: Issue -> string)
    requires PatientValid(PatientPayload(w.page.patient, w.page.profileData))
    ensures var payload := PatientPayload(w.page.patient, w.page.profileData);
      var id := Get(CurrentUser(w.session.auth.user, w.page.tempUser), "id");
      SubmitPatientSpec(w, zodText) == PatientSave(w, SaveRequest(w.page.patient, id, ParsedPatient(payload)), Upsert(id, payload))
  {
  }

  /** The save first, then on any failure exactly one upsert by the user's id
      with the unvalidated payload. A first-time success clears the local
      record; an upsert success keeps it; a failure shows the upsert's message.
      The registration record is removed on success only. */
  lemma PatientSaveOrder(w: World, first: Request, upsert: Request)
    ensures var r := PatientSave(w, first, upsert);
      var o0, o1 := OutcomeAt(w.session.env.script, 0), OutcomeAt(w.session.env.script, 1);
      && r.session.auth == w.session.auth
      && (o0.Ok? ==>
            && r.session.env.log == w.session.env.log + [first]
            && r.page.success == PatientSavedText && r.page.patient == Null
            && r.session.env.storage == w.session.env.storage - {RegistrationKey})
      && (o0.Fail? ==> r.session.env.log == w.session.env.log + [first, upsert])
      && (o0.Fail? && o1.Ok? ==>
            && r.page.success == UpsertSavedText && r.page.patient == w.page.patient
            && r.session.env.storage == w.session.env.storage - {RegistrationKey})
      && (o0.Fail? && o1.Fail? ==>
            && r.page.error == JsString.OrElse(o1.message, UpdateFailedText)
            && r.session.env.storage == w.session.env.storage)
  {
    var steps := UpsertSteps(first, upsert);
    TwoStepChain(steps[0], steps[1], w.session.env);
  }

  // ---------------------------------------------------------------------------
  // Properties of the path of everyone else

  /** `PATCH /users/:id` first, `PATCH /users/profile` only after a 404; a
      success leaves edit mode and goes to the dashboard on a welcome visit, to
      a reload otherwise; a failure shows the failing request's message. */
  lemma OtherUpdateOrder(w: World, isWelcome: bool, zodText: Issue -> string, engineText: string)
    requires !TempPath(w) && !PatientPath(w)
    requires !IsNullish(CurrentUser(w.session.auth.user, w.page.tempUser))
    ensures var r := SubmitSpec(w, isWelcome, zodText, engineText);
      var body := ProfileJson(w.page.profileData);
      var first := Request(PATCH, UserById(Get(CurrentUser(w.session.auth.user, w.page.tempUser), "id")), body);
      var second := Request(PATCH, UsersProfile, body);
      var o0, o1 := OutcomeAt(w.session.env.script, 0), OutcomeAt(w.session.env.script, 1);
      var last := if o0.Fail? && o0.status == Some(404) then o1 else o0;
      && r.session.auth == w.session.auth && r.session.env.storage == w.session.env.storage
      && r.session.env.log == w.session.env.log + (if o0.Fail? && o0.status == Some(404) then [first, second] else [first])
      && (last.Ok? ==>
            && r.page.success == ProfileUpdatedText && !r.page.isEditing
            && r.page.navigation == Some(if isWelcome then Dashboard else Reload))
      && (last.Fail? ==> r.page.error == FailureText(last) && r.page.isEditing == w.page.isEditing)
  {
    var steps := UserSteps(Get(CurrentUser(w.session.auth.user, w.page.tempUser), "id"), w.page.profileData);
    TwoStepChain(steps[0], steps[1], w.session.env);
  }

  // ---------------------------------------------------------------------------
  // Properties of every path

  /** The patient path leaves the session as it was, touches storage at most by
      removing the registration record and sends at most two requests. */
  lemma PatientPathShape(w: World, zodText: Issue -> string)
    ensures var r := SubmitPatientSpec(w, zodText);
      && r.session.auth == w.session.auth
      && (r.session.env.storage == w.session.env.storage ||
          r.session.env.storage == w.session.env.storage - {RegistrationKey})
      && |w.session.env.log| <= |r.session.env.log| <= |w.session.env.log| + 2
  {
    var cu := CurrentUser(w.session.auth.user, w.page.tempUser);
    var payload := PatientPayload(w.page.patient, w.page.profileData);
    if PatientIssues(payload) == [] {
      var id := Get(cu, "id");
      PatientSaveShape(w, SaveRequest(w.page.patient, id, ParsedPatient(payload)), Upsert(id, payload));
    }
  }

  lemma PatientSaveShape(w: World, first: Request, upsert: Request)
    ensures var r := PatientSave(w, first, upsert);
      && (r.session.env.storage == w.session.env.storage ||
          r.session.env.storage == w.session.env.storage - {RegistrationKey})
      && |w.session.env.log| <= |r.session.env.log| <= |w.session.env.log| + 2
  {
    RunChainShape(UpsertSteps(first, upsert), w.session.env);
  }

  /** The path of everyone else leaves the session and storage as they were and sends at most two requests. */
  lemma OtherPathShape(w: World, isWelcome: bool, engineText: string)
    ensures var r := SubmitOtherSpec(w, isWelcome, engineText);
      && r.session.auth == w.session.auth && r.session.env.storage == w.session.env.storage
      && |w.session.env.log| <= |r.session.env.log| <= |w.session.env.log| + 2
  {
    var cu := CurrentUser(w.session.auth.user, w.page.tempUser);
    if !IsNullish(cu) {
      RunChainShape(UserSteps(Get(cu, "id"), w.page.profileData), w.session.env);
    }
  }

  /** Only the registration path signs in; the others leave the session as it
      was and touch storage at most by removing the registration record. */
  lemma SubmitKeepsSession(w: World, isWelcome: bool, zodText: Issue -> string, engineText: string)
    requires !TempPath(w)
    ensures var r := SubmitSpec(w, isWelcome, zodText, engineText);
      && r.session.auth == w.session.auth
      && (r.session.env.storage == w.session.env.storage ||
          r.session.env.storage == w.session.env.storage - {RegistrationKey})
      && |w.session.env.log| <= |r.session.env.log| <= |w.session.env.log| + 2
  {
    var s := Start(w);
    if PatientPath(w) {
      PatientPathShape(s, zodText);
      assert SubmitSpec(w, isWelcome, zodText, engineText).session == SubmitPatientSpec(s, zodText).session;
    } else {
      OtherPathShape(s, isWelcome, engineText);
      assert SubmitSpec(w, isWelcome, zodText, engineText).session == SubmitOtherSpec(s, isWelcome, engineText).session;
    }
  }

  /** The token in the session and the `cf_token` entry stay in step across a submission. */
  lemma SubmitKeepsSynced(w: World, isWelcome: bool, zodText: Issue -> string, engineText: string)
    requires Auth.Synced(w.session)
    ensures Auth.Synced(SubmitSpec(w, isWelcome, zodText, engineText).session)
  {
    if TempPath(w) {
      TempPathKeepsSynced(Start(w), engineText);
    } else {
      SubmitKeepsSession(w, isWelcome, zodText, engineText);
    }
  }

  /** The registration path signs in through `login`, which keeps the token and its stored copy in step. */
  lemma TempPathKeepsSynced(s: World, engineText: string)
    requires Auth.Synced(s.session)
    ensures Auth.Synced(SubmitTempSpec(s, engineText).session)
  {
    var storage := s.session.env.storage;
    if RegistrationKey in storage && !IsNullish(storage[RegistrationKey]) {
      var reg := storage[RegistrationKey];
      var login := Auth.LoginSpec(s.session, Get(reg, "email"), Get(reg, "password"));
      Auth.SyncedPreserved(s.session, x => Null, Get(reg, "email"), Get(reg, "password"));
      if login.result.Returned? {
        var cu := CurrentUser(s.session.auth.user, s.page.tempUser);
        var w1 := s.(session := login.state);
        var patientRole := AutoLoginRole(login.result.user, w1.page.tempUser, cu) == Str("patient");
        var steps := TempSteps(patientRole, Or(Get(login.result.user, "id"), Get(cu, "id")), w1.page.profileData);
        TempSaveOutcome(w1, steps, patientRole);
        assert SubmitTempSpec(s, engineText) == TempChain(w1, steps, patientRole);
      }
    }
  }

  // ---------------------------------------------------------------------------
  // The page as an object

  /** The mounted `Profile` component: its hooks, next to the session it uses. */
  class ProfilePage {
    const session: Auth.Session
    const isWelcome: bool
    var error: string
    var success: string
    var isLoading: bool
    var isEditing: bool
    var tempUser: Json
    var patient: Json
    var profileData: ProfileData
    var patientLoading: bool
    var navigation: Option<Nav>

    function PageState(): Page
      reads this
    {
      Page(error, success, isLoading, isEditing, tempUser, patient, profileData, patientLoading, navigation)
    }

    function Snapshot(): World
      reads this, session, session.store, session.api
    {
      World(PageState(), session.Snapshot())
    }

    constructor (session: Auth.Session, isWelcome: bool)
      ensures this.session == session && this.isWelcome == isWelcome
      ensures PageState() == InitialPage(session.user, isWelcome)
    {
      this.session := session;
      this.isWelcome := isWelcome;
      error := "";
      success := "";
      isLoading := false;
      isEditing := isWelcome;
      tempUser := Null;
      patient := Null;
      profileData := ProfileDataOf(session.user);
      patientLoading := false;
      navigation := None;
    }

    method Mount(fromRegister: bool, isTemp: bool)
      modifies this
      ensures PageState() == MountSpec(old(Snapshot()), fromRegister, isTemp)
    {
      var user := session.user;
      var storage := session.store.items;
      var data: Json;
      var edit: bool;
      if fromRegister && RegistrationKey in storage && !Truthy(user) {
        data, edit := storage[RegistrationKey], true;
      } else if isTemp && !Truthy(user) && TempUserKey in storage {
        data, edit := storage[TempUserKey], false;
      } else {
        if Truthy(user) {
          profileData := ProfileDataOf(user);
        }
        return;
      }
      tempUser := data;
      if IsNullish(data) {
        return;
      }
      profileData := RegistrationForm(data);
      if edit {
        isEditing := true;
      }
    }

    method FetchPatient()
      modifies this, session.api
      ensures Snapshot() == FetchPatientSpec(old(Snapshot()))
    {
      var user := session.user;
      if !Truthy(user) || LookupRole(user) != Str("patient") {
        return;
      }
      patientLoading := true;
      var o := session.api.Send(LookupRequest(user));
      if o.Ok? {
        var payload := LookupPayload(o.data);
        if Truthy(payload) {
          patient := payload;
          profileData := Prefill(profileData, payload);
        }
      }
      patientLoading := false;
    }

    method HandleInputChange(f: ProfileField, value: string)
      modifies this
      ensures PageState() == old(PageState()).(profileData := InputChange(old(profileData), f, value))
    {
      profileData := InputChange(profileData, f, value);
    }

    method HandlePatientField(key: string, value: Json)
      modifies this
      ensures PageState() == old(PageState()).(patient := PatientField(old(patient), key, value))
    {
      patient := PatientField(patient, key, value);
    }

    method HandlePatientNested(section: string, key: string, value: Json)
      modifies this
      ensures PageState() == old(PageState()).(patient := PatientNested(old(patient), section, key, value))
    {
      patient := PatientNested(patient, section, key, value);
    }

    method HandleSubmit(zodText: Issue -> string, engineText: string)
      modifies this, session, session.store, session.api
      ensures Snapshot() == SubmitSpec(old(Snapshot()), isWelcome, zodText, engineText)
    {
      ghost var w := Snapshot();
      var user := session.user;
      error := "";
      success := "";
      isLoading := true;
      if Truthy(tempUser) && !Truthy(user) {
        SubmitTemp(engineText);
      } else if PrimaryRole(CurrentUser(user, tempUser)) == Str("patient") {
        SubmitPatient(zodText);
      } else {
        SubmitOther(engineText);
      }
      isLoading := false;
    }

    method SubmitTemp(engineText: string)
      modifies this, session, session.store, session.api
      ensures Snapshot() == SubmitTempSpec(old(Snapshot()), engineText)
    {
      ghost var w := Snapshot();
      var store, api := session.store, session.api;
      if RegistrationKey !in store.items {
        success := ToLoginText;
        navigation := Some(LoginWithEmail(Get(tempUser, "email")));
        return;
      }
      var reg := store.items[RegistrationKey];
      if IsNullish(reg) {
        error := EngineError(engineText);
        return;
      }
      var cu := CurrentUser(session.user, tempUser);
      var result := session.Login(Get(reg, "email"), Get(reg, "password"));
      if result.Threw? {
        success := ToLoginText;
        navigation := Some(LoginWithEmail(Get(tempUser, "email")));
        return;
      }
      SaveRegistration(cu, result.user);
    }

    /** The registration path once the automatic login has returned. */
    method SaveRegistration(cu: Json, loggedUser: Json)
      modifies this, session.store, session.api
      ensures Snapshot() == TempSave(old(Snapshot()), cu, loggedUser)
    {
      var patientRole := AutoLoginRole(loggedUser, tempUser, cu) == Str("patient");
      var steps := TempSteps(patientRole, Or(Get(loggedUser, "id"), Get(cu, "id")), profileData);
      RegistrationChain(steps, patientRole);
    }

    method RegistrationChain(steps: seq<Step>, patientRole: bool)
      requires |steps| == 2 || |steps| == 3
      modifies this, session.store, session.api
      ensures Snapshot() == TempChain(old(Snapshot()), steps, patientRole)
    {
      ghost var w := Snapshot();
      ghost var scrubbed := w.(session := w.session.(env := w.session.env.(storage := Scrubbed(w.session.env.storage))));
      ScrubPassword();
      assert Snapshot() == scrubbed;
      FinishRegistration(steps, patientRole);
    }

    /** The deletion of a truthy password from the stored registration record. */
    method ScrubPassword()
      modifies session.store
      ensures session.store.items == Scrubbed(old(session.store.items))
    {
      var store := session.store;
      var entry := GetItem(store.items, RegistrationKey);
      if Truthy(entry) && Truthy(Get(entry, "password")) {
        store.SetItem(RegistrationKey, Obj(entry.fields - {"password"}));
      }
    }

    /** The registration's save chain and what the page does after it. */
    method FinishRegistration(steps: seq<Step>, patientRole: bool)
      requires |steps| == 2 || |steps| == 3
      modifies this, session.store, session.api
      ensures Snapshot() == TempDone(old(Snapshot()), RunChain(steps, old(Snapshot()).session.env), patientRole)
    {
      var store, api := session.store, session.api;
      var o: Outcome;
      var attempts: nat;
      if |steps| == 3 {
        o, attempts := SendThree(api, store.items, steps[0], steps[1], steps[2]);
        assert [steps[0], steps[1], steps[2]] == steps;
      } else {
        o, attempts := SendTwo(api, store.items, steps[0], steps[1]);
        assert [steps[0], steps[1]] == steps;
      }
      if o.Fail? {
        success := ToLoginText;
        navigation := Some(LoginWithEmail(Get(tempUser, "email")));
        return;
      }
      success := if patientRole then PatientSavedText else ProfileCompletedText;
      store.RemoveItem(RegistrationKey);
      tempUser := Null;
      navigation := Some(Dashboard);
    }

    method SubmitPatient(zodText: Issue -> string)
      modifies this, session.store, session.api
      ensures Snapshot() == SubmitPatientSpec(old(Snapshot()), zodText)
    {
      var cu := CurrentUser(session.user, tempUser);
      var payload := PatientPayload(patient, profileData);
      if PatientIssues(payload) != [] {
        ShowError(ValidationError(payload, zodText));
        return;
      }
      var id := Get(cu, "id");
      SavePatient(SaveRequest(patient, id, ParsedPatient(payload)), Upsert(id, payload));
    }

    /** Puts a message in the page's error banner and changes nothing else. */
    method ShowError(text: string)
      modifies this
      ensures Snapshot() == old(Snapshot()).(page := old(Snapshot()).page.(error := text))
    {
      error := text;
    }

    method SavePatient(first: Request, upsert: Request)
      modifies this, session.store, session.api
      ensures Snapshot() == PatientSave(old(Snapshot()), first, upsert)
    {
      var store, api := session.store, session.api;
      var o, attempts := SendTwo(api, store.items, Step(first, AnyFailure), Step(upsert, Never));
      if o.Fail? {
        error := JsString.OrElse(o.message, UpdateFailedText);
        return;
      }
      success := if attempts == 1 then PatientSavedText else UpsertSavedText;
      store.RemoveItem(RegistrationKey);
      if attempts == 1 {
        patient := Null;
      }
      navigation := Some(Dashboard);
    }

    method SubmitOther(engineText: string)
      modifies this, session.api
      ensures Snapshot() == SubmitOtherSpec(old(Snapshot()), isWelcome, engineText)
    {
      var cu := CurrentUser(session.user, tempUser);
      if IsNullish(cu) {
        ShowError(EngineError(engineText));
        return;
      }
      var steps := UserSteps(Get(cu, "id"), profileData);
      var o, attempts := SendTwo(session.api, session.store.items, steps[0], steps[1]);
      assert [steps[0], steps[1]] == steps;
      if o.Fail? {
        ShowError(FailureText(o));
        return;
      }
      success := ProfileUpdatedText;
      isEditing := false;
      navigation := Some(if isWelcome then Dashboard else Reload);
    }
  }
}
