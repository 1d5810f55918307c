# CareFlow front-end: session and profile-submission model

This project models, in Dafny, the two pieces of the CareFlow patient-portal
front-end that make decisions:

- **The session layer** (`AuthProvider`, `src/hooks/useAuth.tsx`). It holds the
  bearer token, the signed-in user and a loading flag, next to the `cf_token`
  entry of `localStorage`.
  - The bootstrap effect looks the profile up at `/auth/me`, then `/users/me`.
    When both fail it recovers a user from the token's JWT claims.
  - `login` posts the credentials and stores the token found under `token` or
    `accessToken`. It then resolves the profile through the same two endpoints
    and falls back to the login response body.
  - `logout` clears the session whatever the API answers.
  - `hasRole` is a pure test of the user's roles.
- **The profile page** (`src/pages/protected/Profile.tsx`). Its submit handler
  has three paths:
  - a registration that is not yet signed in: automatic login, password scrub,
    then a patient or user save chain;
  - a signed-in patient: payload, schema check, save by id or creation, then
    one upsert fallback;
  - everyone else: user update with a `/users/profile` fallback on 404.

  Around these sit pure pieces: the primary role, the role label and icon, the
  patient payload with its `??` defaults, the `patientSchema` rules, the nested
  record updates, the prefill after the patient lookup, and the comma-separated
  list inputs.

Remote calls are modelled as a script of outcomes, `Ok(data)` or
`Fail(status, apiMessage, message)`, consumed in order. Every request issued is
appended to a log. A request made after the script runs out fails as a network
error with no response. Each fallback chain is an ordered list of steps, each
naming the failures that move on to the next step. `Net.RunChain` runs such a
list, and the source's nested `try`/`catch` blocks are proved equal to it.

Each state-changing operation appears twice. A function maps the state before
to the state after and carries the properties. A method of a class
(`Auth.Session`, `Profile.ProfilePage`, `Net.LocalStorage`, `Net.ApiClient`)
performs the same steps on objects and is proved to end in the state that
function describes.

JavaScript values are `Js.Json`. `Undefined` (a missing property or an explicit
`undefined`) and `Null` are distinct values: `||`, `&&`, `??` and `?.` treat
them alike, but a zod `.optional()` rule admits only `undefined`. The operators
are written out with JavaScript truthiness.

Files:
- `js.dfy`: the `Wrappers` and `Js` modules.
- `jsstring.dfy`: `split`, `trim` and `join`.
- `claims.dfy`: the claims→user mapping.
- `net.dfy`: storage, the scripted API and the chain interpreter.
- `auth.dfy`: the session layer.
- `profile_rules.dfy`: the pure pieces of the profile page.
- `profile.dfy`: the page's effects, handlers and `handleSubmit`.

Behaviours of the code worth knowing:
- **After a 401 from `/users/me`, claims recovery still runs.** The token and
  user are cleared, and then the claims of the token captured at the start of
  the run are decoded anyway (`src/hooks/useAuth.tsx:68-98`). The recovery is
  not in an else-branch. So a 401 on a token whose claims decode ends with no
  token but a claims-derived user. `Auth.BootstrapUnauthorizedKeepsClaimsUser`
  states this.
- **The registration password is scrubbed only after `login` returns.** If
  `login` throws, the password stays in `cf_registration_data`
  (`src/pages/protected/Profile.tsx:266-292,369`). `Profile.TempLoginFailureRedirects`
  states this.
- **A `null` inside a patient section is rejected.** The payload's `?? undefined`
  turns a top-level `null` into `undefined`, which the schema's `.optional()`
  accepts, but it does not look inside a section. A record with
  `medicalInfo: { bloodType: null }` therefore fails validation and nothing is
  saved (`src/pages/protected/Profile.tsx:47-92,390-420`).
  `ProfileRules.NestedNullRejected` states this.
- **A non-string token is stored as its text.** `login` keeps the truthy token
  as the response gave it in memory, but `localStorage.setItem` stores
  `String(t)`; a numeric token 5 is stored as "5" and reads back as a string on
  the next mount (`src/hooks/useAuth.tsx:131-135`).
  `Auth.NumericTokenStoredAsText` states this.
- **A typed comma at the end of a list input is erased.** Each keystroke
  re-parses the allergies or chronic-diseases input and redraws it as
  `list.join(", ")`. Typing "a," or "a, " gives the list `["a"]`, redrawn as "a",
  so the separator disappears before a next element can be typed after it
  (`src/pages/protected/Profile.tsx:973-983`).
  `ProfileRules.TypedSeparatorErased` states this.

## Model

| member | source | states |
|---|---|---|
| `Js.FirstTruthy` | src/hooks/useAuth.tsx:100-111 | A `||` chain yields its first truthy element, or else its last element; the result is truthy iff some element is |
| `Js.FirstTruthyStopsAtTruthy` | src/hooks/useAuth.tsx:100-108 | Elements after the first truthy one of a `||` chain never affect its value |
| `Js.With` | src/pages/protected/Profile.tsx:238 | `{...(v || {}), [k]: x}` holds `x` at `k`, every other key of `v` unchanged, and no other key |
| `JsString.Split` | src/pages/protected/Profile.tsx:981 | `split(",")` yields at least one piece; no piece contains the separator; there is one piece iff the text has no separator; joining the pieces gives the text back |
| `JsString.SplitJoin` | src/pages/protected/Profile.tsx:981 | Splitting the join of separator-free pieces gives back exactly those pieces |
| `JsString.TrimStart` | src/pages/protected/Profile.tsx:982 | What is left is a suffix of the input that does not start with white space |
| `JsString.TrimStartDropsSpace` | src/pages/protected/Profile.tsx:982 | Every character `TrimStart` removes is white space |
| `JsString.TrimEnd` | src/pages/protected/Profile.tsx:982 | What is left is a prefix of the input that does not end with white space |
| `JsString.TrimEndDropsSpace` | src/pages/protected/Profile.tsx:982 | Every character `TrimEnd` removes is white space |
| `JsString.Trim` | src/pages/protected/Profile.tsx:982 | `trim()` never lengthens the string, and what it returns neither starts nor ends with white space |
| `JsString.TrimIsInfix` | src/pages/protected/Profile.tsx:982 | `trim()` returns a contiguous part of the input outside which every character is white space |
| `JsString.TrimEmpty` | src/pages/protected/Profile.tsx:982-983 | `trim()` gives "" exactly for an all-white-space string, so exactly those pieces are filtered out |
| `JsString.TrimTrailingSpace` | src/pages/protected/Profile.tsx:982 | A space typed after a trimmed string is trimmed away |
| `JsString.TrimKeepsOut` | src/pages/protected/Profile.tsx:982 | Trimming adds no character, so a comma-free piece stays comma-free |
| `Claims.PayloadSegment` | src/hooks/useAuth.tsx:80 | `t.split(".")[1]` exists iff the token holds a dot, and it holds no dot itself |
| `Claims.JwtPayloadSegment` | src/hooks/useAuth.tsx:80 | For a `header.payload.signature` token the segment taken is the payload |
| `Claims.ParseJwt` | src/hooks/useAuth.tsx:78-97 | `parseJwt` yields null for a non-string token and for a token without a dot; otherwise it yields the decode of the payload segment |
| `Claims.JwtClaims` | src/hooks/useAuth.tsx:78-97 | The claims of a JWT-shaped token are the decode of its payload |
| `Claims.UserRoles` | src/hooks/useAuth.tsx:110-115 | roles = first truthy of roles/role/authorities, else `[]`; a string becomes a one-element list; the result is never a string and always truthy |
| `Claims.ClaimsToUser` | src/hooks/useAuth.tsx:99-116 | The recovered user has exactly id, email, name and roles: id = sub‖id‖userId‖uid, email = email‖upn‖preferred_username, name = name‖fullname‖preferred_username‖email |
| `Claims.RolesFallback` | src/hooks/useAuth.tsx:111 | Appending `[]` to the roles chain replaces only a falsy result |
| `Claims.ClaimsExample` | src/hooks/useAuth.tsx:100-115 | Claims `{sub:"u1", email:"a@b.com", roles:"Doctor"}` map to `{id:"u1", email:"a@b.com", name:"a@b.com", roles:["Doctor"]}` |
| `Net.Requests` | src/pages/protected/Profile.tsx:304-335 | The requests of a chain are its steps' requests, in order |
| `Net.RunChain` | src/pages/protected/Profile.tsx:304-335 | A chain runs strictly in order. A step runs only after the previous step failed in a way it retries on. It stops at a success, at a non-retried failure, or after the last step. It sends between 1 and the number of steps requests, logged in order |
| `Net.ChainExtends` | src/pages/protected/Profile.tsx:304-335 | A retried first step followed by a run of the remaining steps is a run of the whole chain |
| `Net.RunChainShape` | src/pages/protected/Profile.tsx:304-335 | A chain sends no more requests than it has steps, only appends to the log, and never touches storage |
| `Net.TwoStepChain` | src/pages/protected/Profile.tsx:349-357 | In a two-step chain the second request is sent exactly when the first failure is one the first step retries on |
| `Net.ThreeStepChain` | src/pages/protected/Profile.tsx:304-335 | In a three-step chain each later request is sent exactly when every earlier failure was retried |
| `Net.LocalStorage.SetItem` | src/pages/protected/Profile.tsx:287-290 | `setItem` maps the key to the value and changes no other key |
| `Net.LocalStorage.RemoveItem` | src/hooks/useAuth.tsx:72 | `removeItem` drops the key and changes no other key |
| `Net.ApiClient.Send` | src/api/client.ts:4-31 | A request returns the next scripted outcome, or a response-less failure once the script is exhausted, and is appended to the log |
| `Net.SendTwo` | src/pages/protected/Profile.tsx:349-357 | A request and its catch-block retry behave as the two-step chain |
| `Net.SendThree` | src/pages/protected/Profile.tsx:304-335 | Three requests nested through catch blocks behave as the three-step chain |
| `Auth.Initial` | src/hooks/useAuth.tsx:41-45 | On mount the token is read from `cf_token`, there is no user, and the provider is loading |
| `Auth.ProfileFetchRun` | src/hooks/useAuth.tsx:52-65 | The profile lookup stops after a successful `/auth/me`; otherwise it sends exactly one more request, `/users/me` |
| `Auth.BootstrapSpec` | src/hooks/useAuth.tsx:47-127 | The bootstrap always ends not loading. Without a token nothing is sent. A successful `/auth/me` sets the user and sends nothing more. Otherwise a successful `/users/me` sets the user. If both fail, a 401 clears the token and `cf_token` while any other status keeps both; in both cases truthy claims of the original token become the user, and falsy claims leave the user null after a 401 or unchanged otherwise |
| `Auth.BootstrapRequests` | src/hooks/useAuth.tsx:50-66 | The bootstrap sends at most two profile requests, appended to the log |
| `Auth.BootstrapUnauthorizedKeepsClaimsUser` | src/hooks/useAuth.tsx:66-117 | After any 401 failure of `/users/me` on a token whose claims are truthy, the token and `cf_token` are gone but the user is the one mapped from the original token's claims |
| `Auth.BootstrapRecovery` | src/hooks/useAuth.tsx:74-117 | Two non-401 failures keep the token and storage and set the user to the mapped claims |
| `Auth.BootstrapRecoversFromClaims` | src/hooks/useAuth.tsx:77-117 | Worked case: `/auth/me` 500, `/users/me` 404, claims `{sub, email, roles:"Doctor"}` give user `{id:"u1", email, name:email, roles:["Doctor"]}` with the token kept |
| `Auth.LoginSpec` | src/hooks/useAuth.tsx:129-168 | `login` posts once and sends at most two more requests. It throws iff the POST fails, with the API's message or "Erreur de connexion", and then changes nothing else. Without `token`/`accessToken` it returns null and stores nothing. Otherwise it keeps the token in memory, stores its text (`String(t)`) under `cf_token`, and resolves the user from `/auth/me`, then `/users/me`, then `user‖profile‖data` of the login body, else it returns null with the token kept; it sends `/auth/me` and, only when that fails, `/users/me`, consuming the script accordingly |
| `Auth.NumericTokenStoredAsText` | src/hooks/useAuth.tsx:131-135 | A numeric token 5 is held as 5 in memory but stored as "5", which is what the next mount reads back |
| `Auth.LoginReturnsUser` | src/hooks/useAuth.tsx:138-161 | The user `login` returns is the user it sets, except that a null return leaves the previous user |
| `Auth.LogoutSpec` | src/hooks/useAuth.tsx:170-175 | `logout` sends one request, ignores its outcome, and leaves user and token null with `cf_token` removed |
| `Auth.SyncedPreserved` | src/hooks/useAuth.tsx:47-175 | Bootstrap, login and logout each keep the `cf_token` entry equal to the in-memory token as storage holds it (its text, or absent when null) |
| `Auth.InitialSynced` | src/hooks/useAuth.tsx:42-44 | On mount, with storage holding a string or nothing under `cf_token`, the in-memory token agrees with the stored one |
| `Auth.BootstrapAfterLogout` | src/hooks/useAuth.tsx:124-126 | After logout the bootstrap sends nothing and ends not loading, with no user |
| `Auth.AnyIncluded` | src/hooks/useAuth.tsx:181 | `rs.some(r => roles.includes(r))` iff some requested role is among the user's roles |
| `Auth.HasRole` | src/hooks/useAuth.tsx:177-182 | `hasRole(rs)` iff there is a user whose roles are a non-empty list containing some element of `rs`; `hasRole([])` is false |
| `Auth.HasRoleMonotone` | src/hooks/useAuth.tsx:177-182 | Asking about more roles never turns `hasRole` false |
| `Auth.NoRoleAfterLogout` | src/hooks/useAuth.tsx:170-182 | After logout no role is held |
| `Auth.ClaimsRoleHeld` | src/hooks/useAuth.tsx:110-115 | A user recovered from a lone non-empty `roles` string holds that role |
| `Auth.RoleClaimsHead` | src/hooks/useAuth.tsx:111 | A truthy `roles` claim is the one the roles chain picks |
| `Auth.Session.constructor` | src/hooks/useAuth.tsx:40-45 | Mounting reads the token from storage, with no user, loading |
| `Auth.Session.Bootstrap` | src/hooks/useAuth.tsx:47-127 | The effect, run to completion, ends in the state `BootstrapSpec` describes |
| `Auth.Session.Login` | src/hooks/useAuth.tsx:129-168 | `login` ends in the state and result `LoginSpec` describes |
| `Auth.Session.Logout` | src/hooks/useAuth.tsx:170-175 | `logout` ends in the state `LogoutSpec` describes |
| `ProfileRules.InputChange` | src/pages/protected/Profile.tsx:230-234 | `handleInputChange` sets the named field to the typed text and keeps every other field |
| `ProfileRules.ProfileDataOf` | src/pages/protected/Profile.tsx:34-41 | Each form field other than the address equals the user's field of the same key when that is truthy, and is "" exactly when it is not; the address is "" |
| `ProfileRules.ProfileDataOfStable` | src/pages/protected/Profile.tsx:34-41 | Filling a form from the body of the initial form gives the initial form back |
| `ProfileRules.ProfileJson` | src/pages/protected/Profile.tsx:461-468 | The user-update body has exactly the six form fields with their values |
| `ProfileRules.PrimaryRole` | src/pages/protected/Profile.tsx:543-560 | `getPrimaryRole` gives "" without a current user, else `roles[0]` for a non-empty list, else `role` when it is a non-empty string, else "" |
| `ProfileRules.PatientRoleIsLookedUp` | src/pages/protected/Profile.tsx:150-153 | A user whose primary role is "patient" is also looked up as a patient |
| `ProfileRules.LookupRoleIsWider` | src/pages/protected/Profile.tsx:150-152 | The converse fails: roles `[""]` with role "patient" are looked up as a patient but saved as a non-patient |
| `ProfileRules.AutoLoginRole` | src/pages/protected/Profile.tsx:273-278 | The role after automatic login is the logged user's first role when truthy, else the temporary user's truthy `role`, else `getPrimaryRole()` |
| `ProfileRules.RoleDisplay` | src/pages/protected/Profile.tsx:518-540 | A role has its own label iff the table knows it, and shows the default icon iff the icon table does not; the two tables know the same roles |
| `ProfileRules.PatientPayload` | src/pages/protected/Profile.tsx:390-408 | The payload has exactly the eleven schema keys. firstName, lastName and phone come from `patient` when non-nullish, else from the form. The other optional fields are `patient`'s, with `null` turned into `undefined`. The address has four fields defaulting to "", with the street falling back to the form's address |
| `ProfileRules.PayloadAddress` | src/pages/protected/Profile.tsx:397-402 | The address literal holds exactly street, city, zipCode and country |
| `ProfileRules.PayloadRecord` | src/pages/protected/Profile.tsx:390-408 | The payload literal holds exactly the schema's keys with the given values |
| `ProfileRules.PatientPayloadFixpoint` | src/pages/protected/Profile.tsx:390-408 | Building the payload from a built payload changes nothing |
| `ProfileRules.ElementIssues` | src/pages/protected/Profile.tsx:66-67 | `z.array(z.string())` reports no issue iff every element is a string |
| `ProfileRules.KindIssues` | src/pages/protected/Profile.tsx:47-89 | An optional field reports no issue iff it is `undefined` or of its kind (a `null` is reported) |
| `ProfileRules.RulesIssues` | src/pages/protected/Profile.tsx:50-90 | An object's fields report no issue iff every known field fits its rule |
| `ProfileRules.SectionIssues` | src/pages/protected/Profile.tsx:50-91 | A section reports no issue iff it is an object whose fields fit, or is `undefined` when optional |
| `ProfileRules.NameIssues` | src/pages/protected/Profile.tsx:45-46 | A name reports no issue iff it is a non-empty string; an empty one reports its own message |
| `ProfileRules.GenderIssues` | src/pages/protected/Profile.tsx:48 | The gender reports no issue iff it is `undefined` or one of male, female, other |
| `ProfileRules.PatientIssues` | src/pages/protected/Profile.tsx:44-92 | `safeParse` reports no issue iff the payload satisfies every rule of `patientSchema` |
| `ProfileRules.FieldMessages` | src/pages/protected/Profile.tsx:413-415 | There are no field messages exactly when no issue lies under a field. When every issue does, there is one message per issue, in order: the schema's own message for a too-short name, else the library's text |
| `ProfileRules.ValidationError` | src/pages/protected/Profile.tsx:411-418 | The validation error is never empty. It is the field messages joined with " — " when that join is not empty, and "Données patient invalides" when it is (in particular with no field message, and for a payload that is not an object) |
| `ProfileRules.EmptyNamesMessage` | src/pages/protected/Profile.tsx:44-46 | Two empty names with nothing else wrong give "Prénom requis — Nom requis" |
| `ProfileRules.EmptyNamesIssues` | src/pages/protected/Profile.tsx:44-55 | Two empty names with nothing else wrong are exactly the two too-small issues, in schema order |
| `ProfileRules.OnlyNamesMissing` | src/pages/protected/Profile.tsx:44-71 | A payload whose only faults are its two empty names gets exactly the two too-small issues, first name first |
| `ProfileRules.EmptyNamesPayload` | src/pages/protected/Profile.tsx:389-406 | Without a stored patient the payload takes the form's names and phone, a valid address, and no optional part |
| `ProfileRules.TwoNameMessages` | src/pages/protected/Profile.tsx:413-416 | The two name issues join to "Prénom requis — Nom requis" |
| `ProfileRules.NestedNullRejected` | src/pages/protected/Profile.tsx:61-70 | A record whose `medicalInfo.bloodType` is `null` keeps that section as it is in the payload, gets a wrong-type issue at `medicalInfo.bloodType`, and fails the schema |
| `ProfileRules.NullGenderDropped` | src/pages/protected/Profile.tsx:395 | A `null` gender becomes `undefined` in the payload and passes the gender rule |
| `ProfileRules.FormOnlyPayloadValid` | src/pages/protected/Profile.tsx:390-411 | With no stored patient and string phone and address, the payload passes iff both form names are non-empty strings |
| `ProfileRules.RuleKeys` | src/pages/protected/Profile.tsx:50-91 | The keys a section's schema knows are exactly its rules' keys |
| `ProfileRules.Strip` | src/pages/protected/Profile.tsx:50-91 | Parsing a section keeps only the keys its schema knows, with their values |
| `ProfileRules.ParsedPatient` | src/pages/protected/Profile.tsx:411 | `parsed.data` keeps only the schema's keys, strips each section, and keeps every other value |
| `ProfileRules.StripValid` | src/pages/protected/Profile.tsx:50-91 | Stripping keeps a valid section valid |
| `ProfileRules.StripIdempotent` | src/pages/protected/Profile.tsx:50-91 | Stripping twice is stripping once |
| `ProfileRules.ParsedPatientValid` | src/pages/protected/Profile.tsx:411-426 | What a successful parse returns passes the schema again |
| `ProfileRules.ParsedPatientIdempotent` | src/pages/protected/Profile.tsx:411 | Parsing the parse result changes nothing |
| `ProfileRules.CreateBody` | src/pages/protected/Profile.tsx:429-432 | The creation body is the parsed data with `user` set to the current user's id |
| `ProfileRules.PatientField` | src/pages/protected/Profile.tsx:237-239 | `handlePatientField(k, v)` sets `k` and keeps every other key |
| `ProfileRules.PatientNested` | src/pages/protected/Profile.tsx:241-246 | `handlePatientNested(s, k, v)` sets `patient[s][k]` and keeps every other key of `s` and every other section |
| `ProfileRules.PatientNestedOverwrite` | src/pages/protected/Profile.tsx:241-246 | The last write to a nested field wins |
| `ProfileRules.PatientNestedCommute` | src/pages/protected/Profile.tsx:241-246 | Edits of two different nested fields commute |
| `ProfileRules.Prefill` | src/pages/protected/Profile.tsx:163-169 | The prefill takes firstName, lastName, phone and the address street from the record when truthy, and keeps name and specialty |
| `ProfileRules.PrefillIdempotent` | src/pages/protected/Profile.tsx:163-169 | Prefilling twice from the same record is prefilling once |
| `ProfileRules.TrimAndDrop` | src/pages/protected/Profile.tsx:982-983 | Trimming and dropping empties never lengthens the list and leaves no empty element |
| `ProfileRules.TrimAndDropMembers` | src/pages/protected/Profile.tsx:982-983 | A string is in the list iff it is non-empty and is the trim of some piece |
| `ProfileRules.TrimAndDropAppend` | src/pages/protected/Profile.tsx:982-983 | The list of concatenated pieces is the concatenation of the lists, so order is kept |
| `ProfileRules.TrimAndDropClean` | src/pages/protected/Profile.tsx:981-983 | Comma-free pieces come out non-empty, trimmed and comma-free |
| `ProfileRules.CommaList` | src/pages/protected/Profile.tsx:981-983 | Every element of a parsed list is non-empty, trimmed and comma-free, and the list is empty iff the text holds nothing but commas and white space |
| `ProfileRules.NothingButSeparators` | src/pages/protected/Profile.tsx:981-983 | Pieces joined at commas give an empty list iff the joined text is only commas and white space |
| `ProfileRules.SeparatorsJoin` | src/pages/protected/Profile.tsx:981 | A comma-joined text is only separators iff both sides are |
| `ProfileRules.SeparatorsPiece` | src/pages/protected/Profile.tsx:982-983 | A comma-free piece is dropped iff it is only white space |
| `ProfileRules.TypedSeparatorErased` | src/pages/protected/Profile.tsx:973-983 | For a clean element x, typing "x," or "x, " gives the list `[x]`, which is redrawn as "x" |
| `ProfileRules.Strings` | src/pages/protected/Profile.tsx:977-984 | The stored array holds the parsed strings, in order |
| `ProfileRules.Medications` | src/pages/protected/Profile.tsx:1022 | One `{name}` entry per name, in order |
| `ProfileRules.MedicationListNames` | src/pages/protected/Profile.tsx:1020-1023 | The medications input stores one `{name}` per element of the plain list parse of the same text, so empty names are dropped |
| `ProfileRules.MedicationsOfPieces` | src/pages/protected/Profile.tsx:1022-1023 | Mapping to `{name: trim}` and dropping empty names is the plain trim-and-drop followed by wrapping |
| `ProfileRules.Spaced` | src/pages/protected/Profile.tsx:975 | The pieces after the first in a `", "` join are the elements with a leading space |
| `ProfileRules.CommaListRoundTrip` | src/pages/protected/Profile.tsx:973-983 | A clean list shown as `list.join(", ")` is parsed back as the same list |
| `Profile.InitialPage` | src/pages/protected/Profile.tsx:26-41 | The page starts with no messages, not loading, editing iff a welcome visit, no temporary user or patient, and the form filled from the user |
| `Profile.RegistrationForm` | src/pages/protected/Profile.tsx:104-111 | A registration record fills only the name; every other field is "" |
| `Profile.MountSpec` | src/pages/protected/Profile.tsx:94-144 | The new page is stated whole in every branch. With a user, only the form changes, refilled from the user. Without one, coming from registration with `cf_registration_data` stored, that record becomes the temporary user; a non-null record also fills the form's name and turns editing on. Otherwise, on the temporary route with `temp_user_data` stored, that record becomes the temporary user and a non-null one fills the name. A null record stops the effect after the temporary user is set. Everything else on the page is kept, and with none of these the page is unchanged |
| `Profile.MountedRegistrationIsTempPath` | src/pages/protected/Profile.tsx:99-113 | A truthy registration record adopted on mount sets the temporary user, turns editing on and fills the form from the record |
| `Profile.FetchPatientSpec` | src/pages/protected/Profile.tsx:147-181 | The patient lookup changes neither the session, storage, the messages nor the navigation |
| `Profile.FetchPatientRequests` | src/pages/protected/Profile.tsx:147-181 | Only a patient is looked up, with exactly one `GET /patients/user/:id`. A truthy answer becomes the patient and prefills the form. Anything else changes only the loading flag |
| `Profile.FetchPatientTwice` | src/pages/protected/Profile.tsx:159-169 | Looking the same record up twice leaves the form as once |
| `Profile.EngineError` | src/pages/protected/Profile.tsx:511-512 | An error thrown by the engine shows its message, else the generic text; never empty |
| `Profile.FailureText` | src/pages/protected/Profile.tsx:482-492 | The user-update error is the API's message, else the client error's message, else "Erreur lors de la mise à jour"; never empty |
| `Profile.Scrubbed` | src/pages/protected/Profile.tsx:281-292 | After the scrub no truthy password is left in the registration record; every other field and every other storage entry is kept |
| `Profile.TempDone` | src/pages/protected/Profile.tsx:336-384 | The end of the registration path shows one message and leaves the session as the login left it |
| `Profile.TempSteps` | src/pages/protected/Profile.tsx:294-357 | The registration save has three steps for a patient and two for anyone else |
| `Profile.SubmitTempSpec` | src/pages/protected/Profile.tsx:256-385 | The registration path ends with a success and a navigation, or with an error and none |
| `Profile.PatientDone` | src/pages/protected/Profile.tsx:435-455 | The end of the patient path shows one message and leaves the session unchanged |
| `Profile.SubmitPatientSpec` | src/pages/protected/Profile.tsx:387-456 | The patient path ends with a success and a navigation, or with an error and none |
| `Profile.PatientSave` | src/pages/protected/Profile.tsx:422-456 | The patient save shows one message and leaves the session unchanged |
| `Profile.OtherDone` | src/pages/protected/Profile.tsx:497-512 | The end of the user-update path shows one message and leaves the session unchanged |
| `Profile.SubmitOtherSpec` | src/pages/protected/Profile.tsx:459-512 | The user-update path ends with a success and a navigation, or with an error and none |
| `Profile.SubmitSpec` | src/pages/protected/Profile.tsx:248-516 | Every submission ends not loading, with exactly one of error and success shown, and a navigation scheduled iff it succeeds |
| `Profile.TempLoginFailureRedirects` | src/pages/protected/Profile.tsx:369-384 | With no registration record, or when the automatic login throws, the page redirects to the login with the registration email and sets no error. Session and storage are untouched, so the password is not scrubbed |
| `Profile.TempNullRecord` | src/pages/protected/Profile.tsx:264 | A null registration record fails the destructuring: the engine's error is shown and nothing is sent |
| `Profile.TempLoginReturns` | src/pages/protected/Profile.tsx:266-268 | A login whose POST succeeds returns; it keeps the registration record and every entry but the token; the path goes on to the save |
| `Profile.TempSaveOutcome` | src/pages/protected/Profile.tsx:280-368 | After the automatic login no truthy password is left and every other field and entry is kept. The path then either completes (record removed, temporary user forgotten, dashboard) or redirects to the login without an error |
| `Profile.TempDoneOutcome` | src/pages/protected/Profile.tsx:336-384 | The end of the registration path keeps storage on failure and removes only the registration record on success |
| `Profile.TempPatientOrder` | src/pages/protected/Profile.tsx:304-335 | POST /patients first. PATCH /patients/user/:userId only after a 404 or 409. PUT /patients/:userId only after any failure of that. The same body is sent each time, and there are never more than three requests |
| `Profile.PatientInvalidSendsNothing` | src/pages/protected/Profile.tsx:410-420 | A payload the schema rejects sends nothing and shows the validation error, with no success |
| `Profile.PatientValidSaves` | src/pages/protected/Profile.tsx:421-433 | A payload the schema accepts goes to the save: PATCH by record id when known, else POST with the user id, followed by the upsert fallback |
| `Profile.PatientSaveOrder` | src/pages/protected/Profile.tsx:422-456 | The first save runs, and on any failure exactly one `PATCH /patients/user/:id` follows, never more. A first success clears the local record; an upsert success keeps it. A failure shows the upsert's message and keeps storage |
| `Profile.OtherUpdateOrder` | src/pages/protected/Profile.tsx:459-512 | PATCH /users/:id first, PATCH /users/profile only after a 404. A success leaves edit mode and goes to the dashboard on a welcome visit, else reloads. A failure shows the failing request's message |
| `Profile.PatientPathShape` | src/pages/protected/Profile.tsx:387-456 | The patient path leaves the session unchanged, at most removes the registration record, and sends at most two requests |
| `Profile.PatientSaveShape` | src/pages/protected/Profile.tsx:422-456 | The patient save at most removes the registration record and sends at most two requests |
| `Profile.OtherPathShape` | src/pages/protected/Profile.tsx:459-512 | The user-update path leaves session and storage unchanged and sends at most two requests |
| `Profile.SubmitKeepsSession` | src/pages/protected/Profile.tsx:387-512 | Outside the registration path a submission never changes the session, at most removes the registration record, and sends at most two requests |
| `Profile.SubmitKeepsSynced` | src/pages/protected/Profile.tsx:248-516 | A submission keeps the in-memory token equal to `cf_token` |
| `Profile.TempPathKeepsSynced` | src/pages/protected/Profile.tsx:256-385 | The registration path, which signs in through `login`, keeps the in-memory token equal to `cf_token` |
| `Profile.ProfilePage.constructor` | src/pages/protected/Profile.tsx:26-41 | The page's hooks start as `InitialPage` describes |
| `Profile.ProfilePage.Mount` | src/pages/protected/Profile.tsx:94-144 | The mount effect ends in the page `MountSpec` describes |
| `Profile.ProfilePage.FetchPatient` | src/pages/protected/Profile.tsx:147-181 | The lookup effect ends in the world `FetchPatientSpec` describes |
| `Profile.ProfilePage.HandleInputChange` | src/pages/protected/Profile.tsx:230-234 | Only the form changes, as `InputChange` describes |
| `Profile.ProfilePage.HandlePatientField` | src/pages/protected/Profile.tsx:237-239 | Only the patient record changes, as `PatientField` describes |
| `Profile.ProfilePage.HandlePatientNested` | src/pages/protected/Profile.tsx:241-246 | Only the patient record changes, as `PatientNested` describes |
| `Profile.ProfilePage.HandleSubmit` | src/pages/protected/Profile.tsx:248-516 | `handleSubmit` ends in the world `SubmitSpec` describes |
| `Profile.ProfilePage.SubmitTemp` | src/pages/protected/Profile.tsx:256-385 | The registration path ends in the world `SubmitTempSpec` describes |
| `Profile.ProfilePage.SaveRegistration` | src/pages/protected/Profile.tsx:269-368 | The part after the automatic login ends as `TempSave` describes |
| `Profile.ProfilePage.RegistrationChain` | src/pages/protected/Profile.tsx:280-368 | The scrub followed by the save chain ends as `TempChain` describes |
| `Profile.ProfilePage.ScrubPassword` | src/pages/protected/Profile.tsx:281-292 | The password deletion changes storage as `Scrubbed` describes |
| `Profile.ProfilePage.FinishRegistration` | src/pages/protected/Profile.tsx:294-384 | The save chain and its end behave as `TempDone` over `RunChain` |
| `Profile.ProfilePage.SubmitPatient` | src/pages/protected/Profile.tsx:387-456 | The patient path ends in the world `SubmitPatientSpec` describes |
| `Profile.ProfilePage.SavePatient` | src/pages/protected/Profile.tsx:422-456 | The save with its upsert fallback ends as `PatientSave` describes |
| `Profile.ProfilePage.SubmitOther` | src/pages/protected/Profile.tsx:459-512 | The user-update path ends in the world `SubmitOtherSpec` describes |

## Left out

- Rendering, styling, the loader, welcome and redirect screens, and the debug `console.log` calls: presentation only.
- `setTimeout` delays, `navigate` and `window.location.reload`: a submission records the navigation it schedules (`Profile.Nav`) instead.
- Async interleaving. Each effect and each submission runs to completion, one after another. In the source, `setToken` inside `login` re-runs the bootstrap effect, and a stale response can overwrite newer state. Neither is modelled.
- The base64url, `atob`, `decodeURIComponent` and `JSON.parse` steps of `parseJwt`: they are foreign calls. They are one parameter `decode: string -> Json`, with a failure read as null.
- The zod library: only the predicate `patientSchema` expresses is modelled, with the issues it reports and the keys its parse strips. Zod's default message texts are a parameter, `zodText`. The schema's own texts "Prénom requis" and "Nom requis" are exact. The model assumes a field's issues are reported together in schema order, so that grouping by field keeps that order.
- The text of an error thrown by the JavaScript engine, for example reading `.id` of null: a parameter, `engineText`.
- JSON numbers are integers. The registration records are written with `JSON.stringify` and read with `JSON.parse`, taken to round-trip exactly, so storage holds decoded values; the token, written as is, is stored as its text.
- The axios instance and its interceptors (`src/api/client.ts`): request headers are not modelled. The interceptor runs asynchronously and attaches the token stored when the request actually goes out. `logout` fires its POST without waiting and removes `cf_token` at once, so that request carries no token. The HTTP transport itself is the outcome script.
- `src/routes/index.tsx` is not part of this model: it is a static route table.
- `useAuth` throwing outside a provider: React context plumbing.
- Js.With: `{...v}` copies the keys of an object only; spreading a truthy array or string, which in JavaScript yields index keys, yields no keys here.
- ProfileRules.RoleLabel and ProfileRules.RoleIcon: only the tables' own keys are looked up. In the source, `roleMap[role]` on an object literal also finds inherited properties such as `constructor` or `toString`, which the model treats as unknown roles.
- `handleLogout` on the profile page: it calls `logout` (modelled as `Auth.Session.Logout`) and then navigates.
