/**
 The pure pieces of the profile page (src/pages/protected/Profile.tsx): the
 form's data, the primary role, the role label and icon, the patient payload
 built for a save, the `patientSchema` rules and what a successful parse
 returns, the functional updates of the `patient` record, the prefill after a
 patient lookup, and the comma-separated list inputs.
 */
module ProfileRules {
  import opened Js
  import JsString

  // ---------------------------------------------------------------------------
  // The form

  /** The `profileData` state. A field holds whatever was copied in from the user
      record, so it is any JSON value; the inputs themselves write strings. */
  datatype ProfileData = ProfileData(name: Json, firstName: Json, lastName: Json, phone: Json, specialty: Json, address: Json)

  /** The six inputs of the general form, named as their `name` attribute. */
  datatype ProfileField = Name | FirstName | LastName | Phone | Specialty | Address

  function FieldOf(pd: ProfileData, f: ProfileField): Json {
    match f
    case Name => pd.name
    case FirstName => pd.firstName
    case LastName => pd.lastName
    case Phone => pd.phone
    case Specialty => pd.specialty
    case Address => pd.address
  }

  /** The key a form field is read from and written under (the input's `name`). */
  function FieldKey(f: ProfileField): string {
    match f
    case Name => "name"
    case FirstName => "firstName"
    case LastName => "lastName"
    case Phone => "phone"
    case Specialty => "specialty"
    case Address => "address"
  }

  /** `handleInputChange`: `{ ...profileData, [e.target.name]: e.target.value }` (lines 230-234). */
  function InputChange(pd: ProfileData, f: ProfileField, value: string): (r: ProfileData)
    ensures FieldOf(r, f) == Str(value)
    ensures forall g :: g != f ==> FieldOf(r, g) == FieldOf(pd, g)
  {
    match f
    case Name => pd.(name := Str(value))
    case FirstName => pd.(firstName := Str(value))
    case LastName => pd.(lastName := Str(value))
    case Phone => pd.(phone := Str(value))
    case Specialty => pd.(specialty := Str(value))
    case Address => pd.(address := Str(value))
  }

  /** The form as first filled from a user (lines 34-41 and 134-143): each field
      from the user's own field when truthy, else empty; the address always empty. */
  function ProfileDataOf(user: Json): (pd: ProfileData)
    ensures forall f :: f != Address ==> Truthy(FieldOf(pd, f)) || FieldOf(pd, f) == Str("")
    ensures forall f :: f != Address && Truthy(Get(user, FieldKey(f))) ==> FieldOf(pd, f) == Get(user, FieldKey(f))
    ensures forall f :: f != Address && !Truthy(Get(user, FieldKey(f))) ==> FieldOf(pd, f) == Str("")
    ensures pd.address == Str("")
  {
    ProfileData(Or(Get(user, "name"), Str("")), Or(Get(user, "firstName"), Str("")), Or(Get(user, "lastName"), Str("")),
                Or(Get(user, "phone"), Str("")), Or(Get(user, "specialty"), Str("")), Str(""))
  }

  /** Sending the initial form as a body and filling a form from that body
      gives the same form back. */
  lemma ProfileDataOfStable(user: Json)
    ensures ProfileDataOf(ProfileJson(ProfileDataOf(user))) == ProfileDataOf(user)
  {
    var pd := ProfileDataOf(user);
    var j := ProfileJson(pd);
    forall f | f != Address ensures FieldOf(ProfileDataOf(j), f) == FieldOf(pd, f) {
      assert Get(j, FieldKey(f)) == FieldOf(pd, f);
    }
    assert FieldOf(ProfileDataOf(j), Name) == FieldOf(pd, Name);
  }

  /** The form as a request body, exactly its six keys. */
  function ProfileJson(pd: ProfileData): (j: Json)
    ensures j.Obj? && j.fields.Keys == {"name", "firstName", "lastName", "phone", "specialty", "address"}
    ensures Get(j, "name") == pd.name && Get(j, "firstName") == pd.firstName && Get(j, "lastName") == pd.lastName
    ensures Get(j, "phone") == pd.phone && Get(j, "specialty") == pd.specialty && Get(j, "address") == pd.address
  {
    var j := Obj(map["name" := pd.name, "firstName" := pd.firstName, "lastName" := pd.lastName,
                     "phone" := pd.phone, "specialty" := pd.specialty, "address" := pd.address]);
    assert j.fields.Keys == {"name", "firstName", "lastName", "phone", "specialty", "address"};
    j
  }

  // ---------------------------------------------------------------------------
  // Roles

  /** `user || tempUser` (line 184) */
  function CurrentUser(user: Json, tempUser: Json): Json {
    Or(user, tempUser)
  }

  /** `getPrimaryRole()` of a current user (lines 543-560). */
  function PrimaryRole(cu: Json): (r: Json)
    ensures !Truthy(cu) ==> r == Str("")
    ensures Truthy(cu) && Get(cu, "roles").Arr? && |Get(cu, "roles").items| > 0 ==> r == Get(cu, "roles").items[0]
    ensures Truthy(cu) && !(Get(cu, "roles").Arr? && |Get(cu, "roles").items| > 0) ==>
      r == if Get(cu, "role").Str? && Get(cu, "role").s != "" then Get(cu, "role") else Str("")
  {
    if !Truthy(cu) then Str("")
    else
      var roles := Get(cu, "roles");
      if roles.Arr? && |roles.items| > 0 then roles.items[0]
      else
        var role := Get(cu, "role");
        if Truthy(role) && role.Str? then role else Str("")
  }

  /** The role the patient lookup tests (lines 150-152):
      `(Array.isArray(user.roles) && user.roles[0]) || user.role`. */
  function LookupRole(user: Json): Json {
    var roles := Get(user, "roles");
    Or(And(Bool(roles.Arr?), First(roles)), Get(user, "role"))
  }

  /** Whoever the submit handler treats as a patient is also looked up as one. */
  lemma PatientRoleIsLookedUp(user: Json)
    requires PrimaryRole(user) == Str("patient")
    ensures LookupRole(user) == Str("patient")
  {
  }

  /** The converse fails: a user whose first role is empty but whose `role` says
      patient is looked up as a patient and saved as a non-patient. */
  lemma LookupRoleIsWider()
    ensures var u := Obj(map["roles" := Arr([Str("")]), "role" := Str("patient")]);
      LookupRole(u) == Str("patient") && PrimaryRole(u) == Str("")
  {
    var u := Obj(map["roles" := Arr([Str("")]), "role" := Str("patient")]);
    assert Get(u, "roles") == Arr([Str("")]);
  }

  /** The role chosen after the automatic login (lines 273-278):
      `(loggedUser && loggedUser.roles && loggedUser.roles[0]) || (tempUser && (tempUser.role || "")) || getPrimaryRole()`. */
  function AutoLoginRole(loggedUser: Json, tempUser: Json, cu: Json): (r: Json)
    ensures var first := And(loggedUser, And(Get(loggedUser, "roles"), First(Get(loggedUser, "roles"))));
      && (Truthy(first) ==> r == first)
      && (!Truthy(first) && Truthy(tempUser) && Truthy(Get(tempUser, "role")) ==> r == Get(tempUser, "role"))
      && (!Truthy(first) && !(Truthy(tempUser) && Truthy(Get(tempUser, "role"))) ==> r == PrimaryRole(cu))
  {
    var first := And(loggedUser, And(Get(loggedUser, "roles"), First(Get(loggedUser, "roles"))));
    var second := And(tempUser, Or(Get(tempUser, "role"), Str("")));
    var chain := [first, second, PrimaryRole(cu)];
    assert Truthy(first) ==> FirstTruthy(chain) == first by {
      if Truthy(first) { FirstTruthyStopsAtTruthy(chain, 0); }
    }
    assert !Truthy(first) && Truthy(second) ==> FirstTruthy(chain) == second by {
      if !Truthy(first) && Truthy(second) { FirstTruthyStopsAtTruthy(chain, 1); }
    }
    FirstTruthy(chain)
  }

  const RoleLabels: map<string, string> := map[
    "patient" := "Patient", "medecin" := "Médecin", "infirmier" := "Infirmier(ère)",
    "admin" := "Administrateur", "pharmacien" := "Pharmacien", "laborantin" := "Laborantin"]

  const RoleIcons: map<string, string> := map[
    "patient" := "\U{1F9D1}\U{200D}\U{1F9B1}", "medecin" := "\U{1F468}\U{200D}\U{2695}\U{FE0F}",
    "infirmier" := "\U{1F469}\U{200D}\U{2695}\U{FE0F}", "admin" := "\U{1F454}",
    "pharmacien" := "\U{1F48A}", "laborantin" := "\U{1F9EA}"]

  /** The icon shown for a role the table does not know. */
  const DefaultIcon: string := "\U{1F464}"

  /** `roleMap[role] || role` (lines 518-528) */
  function RoleLabel(role: string): string {
    if role in RoleLabels && RoleLabels[role] != "" then RoleLabels[role] else role
  }

  /** `iconMap[role] || "👤"` (lines 530-540) */
  function RoleIcon(role: string): string {
    if role in RoleIcons && RoleIcons[role] != "" then RoleIcons[role] else DefaultIcon
  }

  /** A role is shown under a label of its own exactly when the table knows it,
      and with the default icon exactly when the icon table does not. */
  lemma RoleDisplay(role: string)
    ensures RoleLabel(role) != role <==> role in RoleLabels
    ensures RoleIcon(role) == DefaultIcon <==> role !in RoleIcons
    ensures RoleLabels.Keys == RoleIcons.Keys
  {
    if role in RoleLabels {
      assert role in {"patient", "medecin", "infirmier", "admin", "pharmacien", "laborantin"};
    }
  }

  // ---------------------------------------------------------------------------
  // The patient payload (lines 390-408)

  const AddressKeys: set<string> := {"street", "city", "zipCode", "country"}

  const PayloadKeys: set<string> := {"firstName", "lastName", "dateOfBirth", "gender", "phone", "address",
                                     "emergencyContact", "medicalInfo", "insurance", "preferences", "consent"}

  /** The record validated and saved: each field of `patient` when it is not
      nullish, else the form's or `undefined` (so a top-level `null` becomes
      `undefined`, while a `null` nested inside a section is kept); the address
      always an object of four fields that default to the empty string. */
  function PatientPayload(patient: Json, pd: ProfileData): (p: Json)
    ensures p.Obj? && p.fields.Keys == PayloadKeys
    ensures Get(p, "firstName") == (if IsNullish(Get(patient, "firstName")) then pd.firstName else Get(patient, "firstName"))
    ensures Get(p, "lastName") == (if IsNullish(Get(patient, "lastName")) then pd.lastName else Get(patient, "lastName"))
    ensures Get(p, "phone") == (if IsNullish(Get(patient, "phone")) then pd.phone else Get(patient, "phone"))
    ensures forall k :: k in {"dateOfBirth", "gender", "emergencyContact", "medicalInfo", "insurance", "preferences", "consent"} ==>
      Get(p, k) == (if IsNullish(Get(patient, k)) then Undefined else Get(patient, k))
    ensures var a := Get(p, "address"); a.Obj? && a.fields.Keys == AddressKeys
    ensures var street := Get(Get(patient, "address"), "street");
      Get(Get(p, "address"), "street") == if !IsNullish(street) then street else if !IsNullish(pd.address) then pd.address else Str("")
    ensures forall k :: k in {"city", "zipCode", "country"} ==>
      Get(Get(p, "address"), k) == Coalesce(Get(Get(patient, "address"), k), Str(""))
  {
    var addr := Get(patient, "address");
    var address := PayloadAddress(Coalesce(Coalesce(Get(addr, "street"), pd.address), Str("")),
                                  Coalesce(Get(addr, "city"), Str("")), Coalesce(Get(addr, "zipCode"), Str("")),
                                  Coalesce(Get(addr, "country"), Str("")));
    // `patient?.dateOfBirth ?? patient?.dateOfBirth ?? undefined` and `patient?.gender ?? undefined`
    // are the field itself, undefined when nullish.
    var p := PayloadRecord(Coalesce(Get(patient, "firstName"), pd.firstName), Coalesce(Get(patient, "lastName"), pd.lastName),
                           Coalesce(Coalesce(Get(patient, "dateOfBirth"), Get(patient, "dateOfBirth")), Undefined),
                           Coalesce(Get(patient, "gender"), Undefined), Coalesce(Get(patient, "phone"), pd.phone), address,
                           [Coalesce(Get(patient, "emergencyContact"), Undefined), Coalesce(Get(patient, "medicalInfo"), Undefined),
                            Coalesce(Get(patient, "insurance"), Undefined), Coalesce(Get(patient, "preferences"), Undefined),
                            Coalesce(Get(patient, "consent"), Undefined)]);
    p
  }

  /** The object literal `{ street, city, zipCode, country }`. */
  function PayloadAddress(street: Json, city: Json, zipCode: Json, country: Json): (a: Json)
    ensures a.Obj? && a.fields.Keys == AddressKeys
    ensures Get(a, "street") == street && Get(a, "city") == city && Get(a, "zipCode") == zipCode && Get(a, "country") == country
  {
    var a := Obj(map["street" := street, "city" := city, "zipCode" := zipCode, "country" := country]);
    assert a.fields.Keys == AddressKeys;
    a
  }

  /** The payload's object literal; `sections` are the five optional sections in schema order. */
  function PayloadRecord(firstName: Json, lastName: Json, dateOfBirth: Json, gender: Json, phone: Json, address: Json,
                         sections: seq<Json>): (p: Json)
    requires |sections| == 5
    ensures p.Obj? && p.fields.Keys == PayloadKeys
    ensures Get(p, "firstName") == firstName && Get(p, "lastName") == lastName && Get(p, "dateOfBirth") == dateOfBirth
    ensures Get(p, "gender") == gender && Get(p, "phone") == phone && Get(p, "address") == address
    ensures Get(p, "emergencyContact") == sections[0] && Get(p, "medicalInfo") == sections[1]
    ensures Get(p, "insurance") == sections[2] && Get(p, "preferences") == sections[3] && Get(p, "consent") == sections[4]
  {
    var p := Obj(map["firstName" := firstName, "lastName" := lastName, "dateOfBirth" := dateOfBirth,
                     "gender" := gender, "phone" := phone, "address" := address,
                     "emergencyContact" := sections[0], "medicalInfo" := sections[1], "insurance" := sections[2],
                     "preferences" := sections[3], "consent" := sections[4]]);
    assert p.fields.Keys == PayloadKeys;
    p
  }

  /** The payload already has every default applied: building it again from itself changes nothing. */
  lemma PatientPayloadFixpoint(patient: Json, pd: ProfileData)
    ensures PatientPayload(PatientPayload(patient, pd), pd) == PatientPayload(patient, pd)
  {
    var p := PatientPayload(patient, pd);
    var q := PatientPayload(p, pd);
    var a, b := Get(p, "address"), Get(q, "address");
    assert a.fields.Keys == b.fields.Keys;
    forall k | k in AddressKeys ensures a.fields[k] == b.fields[k] {
      assert Get(a, k) == Get(b, k);
    }
    assert a == b;
    forall k | k in PayloadKeys ensures p.fields[k] == q.fields[k] {
      assert Get(p, k) == Get(q, k);
    }
  }

  // ---------------------------------------------------------------------------
  // The schema (lines 44-92)

  /** One step of the path of a schema issue. */
  datatype PathKey = Key(name: string) | Index(i: nat)

  datatype Expected = AString | ABoolean | AnArray | AnObject | OneOf(options: seq<string>)

  /** The issues `safeParse` reports: a value of the wrong type, a string below
      its minimum length (carrying the schema's own message) or a string
      outside an enumeration. */
  datatype Issue =
    | InvalidType(path: seq<PathKey>, expected: Expected, received: Json)
    | TooSmall(path: seq<PathKey>, message: string)
    | InvalidEnumValue(path: seq<PathKey>, received: Json)

  /** The kinds an optional field of an object section can have. */
  datatype Kind = OptString | OptBoolean | OptStringArray | OptAnyArray

  datatype FieldRule = FieldRule(key: string, kind: Kind)

  const AddressRules: seq<FieldRule> :=
    [FieldRule("street", OptString), FieldRule("city", OptString), FieldRule("zipCode", OptString), FieldRule("country", OptString)]
  const EmergencyContactRules: seq<FieldRule> :=
    [FieldRule("name", OptString), FieldRule("relationship", OptString), FieldRule("phone", OptString)]
  const MedicalInfoRules: seq<FieldRule> :=
    [FieldRule("bloodType", OptString), FieldRule("allergies", OptStringArray), FieldRule("chronicDiseases", OptStringArray),
     FieldRule("currentMedications", OptAnyArray), FieldRule("medicalHistory", OptAnyArray)]
  const InsuranceRules: seq<FieldRule> :=
    [FieldRule("provider", OptString), FieldRule("policyNumber", OptString), FieldRule("validUntil", OptString)]
  const PreferencesRules: seq<FieldRule> :=
    [FieldRule("preferredLanguage", OptString), FieldRule("emailNotifications", OptBoolean), FieldRule("smsNotifications", OptBoolean)]
  const ConsentRules: seq<FieldRule> :=
    [FieldRule("dataSharing", OptBoolean), FieldRule("treatmentConsent", OptBoolean)]

  const Genders: seq<string> := ["male", "female", "other"]
  const FirstNameMessage: string := "Prénom requis"
  const LastNameMessage: string := "Nom requis"

  // What each rule accepts, stated directly.

  predicate FitsKind(v: Json, kind: Kind) {
    match kind
    case OptString => v.Undefined? || v.Str?
    case OptBoolean => v.Undefined? || v.Bool?
    case OptStringArray => v.Undefined? || (v.Arr? && forall i :: 0 <= i < |v.items| ==> v.items[i].Str?)
    case OptAnyArray => v.Undefined? || v.Arr?
  }

  predicate FitsRules(v: Json, rules: seq<FieldRule>) {
    forall i :: 0 <= i < |rules| ==> FitsKind(Get(v, rules[i].key), rules[i].kind)
  }

  /** An object section: an object whose known fields fit, or nothing when optional. */
  predicate SectionValid(v: Json, rules: seq<FieldRule>, optional: bool) {
    (optional && v.Undefined?) || (v.Obj? && FitsRules(v, rules))
  }

  predicate NonEmptyString(v: Json) {
    v.Str? && |v.s| >= 1
  }

  /** Everything `patientSchema` accepts. */
  predicate PatientValid(p: Json) {
    && p.Obj?
    && NonEmptyString(Get(p, "firstName"))
    && NonEmptyString(Get(p, "lastName"))
    && FitsKind(Get(p, "dateOfBirth"), OptString)
    && (Get(p, "gender").Undefined? || (Get(p, "gender").Str? && Get(p, "gender").s in Genders))
    && FitsKind(Get(p, "phone"), OptString)
    && SectionValid(Get(p, "address"), AddressRules, false)
    && SectionValid(Get(p, "emergencyContact"), EmergencyContactRules, true)
    && SectionValid(Get(p, "medicalInfo"), MedicalInfoRules, true)
    && SectionValid(Get(p, "insurance"), InsuranceRules, true)
    && SectionValid(Get(p, "preferences"), PreferencesRules, true)
    && SectionValid(Get(p, "consent"), ConsentRules, true)
  }

  // The issues each rule reports, in the order the schema checks them.

  function ElementIssues(items: seq<Json>, path: seq<PathKey>, from: nat): (r: seq<Issue>)
    requires from <= |items|
    ensures r == [] <==> forall i :: from <= i < |items| ==> items[i].Str?
    decreases |items| - from
  {
    if from == |items| then []
    else (if items[from].Str? then [] else [InvalidType(path + [Index(from)], AString, items[from])])
         + ElementIssues(items, path, from + 1)
  }

  function KindIssues(v: Json, kind: Kind, path: seq<PathKey>): (r: seq<Issue>)
    ensures r == [] <==> FitsKind(v, kind)
  {
    if v.Undefined? then []
    else
      match kind
      case OptString => if v.Str? then [] else [InvalidType(path, AString, v)]
      case OptBoolean => if v.Bool? then [] else [InvalidType(path, ABoolean, v)]
      case OptStringArray => if v.Arr? then ElementIssues(v.items, path, 0) else [InvalidType(path, AnArray, v)]
      case OptAnyArray => if v.Arr? then [] else [InvalidType(path, AnArray, v)]
  }

  function RulesIssues(v: Json, rules: seq<FieldRule>, path: seq<PathKey>): (r: seq<Issue>)
    ensures r == [] <==> FitsRules(v, rules)
    decreases |rules|
  {
    if |rules| == 0 then []
    else
      var rest := RulesIssues(v, rules[1..], path);
      assert FitsRules(v, rules) <==> FitsKind(Get(v, rules[0].key), rules[0].kind) && FitsRules(v, rules[1..]) by {
        if FitsRules(v, rules[1..]) && FitsKind(Get(v, rules[0].key), rules[0].kind) {
          forall i | 0 <= i < |rules| ensures FitsKind(Get(v, rules[i].key), rules[i].kind) {
            if i > 0 { assert rules[i] == rules[1..][i - 1]; }
          }
        }
        if FitsRules(v, rules) {
          forall i | 0 <= i < |rules| - 1 ensures FitsKind(Get(v, rules[1..][i].key), rules[1..][i].kind) {
            assert rules[1..][i] == rules[i + 1];
          }
        }
      }
      KindIssues(Get(v, rules[0].key), rules[0].kind, path + [Key(rules[0].key)]) + rest
  }

  function SectionIssues(v: Json, rules: seq<FieldRule>, optional: bool, path: seq<PathKey>): (r: seq<Issue>)
    ensures r == [] <==> SectionValid(v, rules, optional)
  {
    if optional && v.Undefined? then []
    else if !v.Obj? then [InvalidType(path, AnObject, v)]
    else RulesIssues(v, rules, path)
  }

  /** `z.string().min(1, message)` */
  function NameIssues(v: Json, message: string, path: seq<PathKey>): (r: seq<Issue>)
    ensures r == [] <==> NonEmptyString(v)
    ensures v == Str("") ==> r == [TooSmall(path, message)]
  {
    if !v.Str? then [InvalidType(path, AString, v)]
    else if |v.s| < 1 then [TooSmall(path, message)]
    else []
  }

  /** `z.enum(["male", "female", "other"]).optional()` */
  function GenderIssues(v: Json, path: seq<PathKey>): (r: seq<Issue>)
    ensures r == [] <==> v.Undefined? || (v.Str? && v.s in Genders)
  {
    if v.Undefined? then []
    else if !v.Str? then [InvalidType(path, OneOf(Genders), v)]
    else if v.s in Genders then []
    else [InvalidEnumValue(path, v)]
  }

  /** The issues of `patientSchema.safeParse(p)`, field by field in schema order. */
  function PatientIssues(p: Json): (r: seq<Issue>)
    ensures r == [] <==> PatientValid(p)
  {
    if !p.Obj? then [InvalidType([], AnObject, p)]
    else
      NameIssues(Get(p, "firstName"), FirstNameMessage, [Key("firstName")])
      + NameIssues(Get(p, "lastName"), LastNameMessage, [Key("lastName")])
      + KindIssues(Get(p, "dateOfBirth"), OptString, [Key("dateOfBirth")])
      + GenderIssues(Get(p, "gender"), [Key("gender")])
      + KindIssues(Get(p, "phone"), OptString, [Key("phone")])
      + SectionIssues(Get(p, "address"), AddressRules, false, [Key("address")])
      + SectionIssues(Get(p, "emergencyContact"), EmergencyContactRules, true, [Key("emergencyContact")])
      + SectionIssues(Get(p, "medicalInfo"), MedicalInfoRules, true, [Key("medicalInfo")])
      + SectionIssues(Get(p, "insurance"), InsuranceRules, true, [Key("insurance")])
      + SectionIssues(Get(p, "preferences"), PreferencesRules, true, [Key("preferences")])
      + SectionIssues(Get(p, "consent"), ConsentRules, true, [Key("consent")])
  }

  /** The text of an issue: the schema's own message where it gives one, the
      library's default text otherwise. */
  function IssueText(issue: Issue, zodText: Issue -> string): string {
    if issue.TooSmall? then issue.message else zodText(issue)
  }

  /** `Object.values(error.flatten().fieldErrors).flat()`: the texts of the issues
      that lie under a field, in order (the schema reports a field's issues
      together, so grouping them by field keeps this order). */
  function FieldMessages(issues: seq<Issue>, zodText: Issue -> string): (r: seq<string>)
    ensures |r| <= |issues|
    ensures r == [] <==> forall i :: 0 <= i < |issues| ==> issues[i].path == []
    ensures (forall i :: 0 <= i < |issues| ==> issues[i].path != []) ==>
      |r| == |issues| && forall i :: 0 <= i < |issues| ==> r[i] == IssueText(issues[i], zodText)
    decreases |issues|
  {
    if |issues| == 0 then []
    else
      var rest := FieldMessages(issues[1..], zodText);
      assert forall i :: 0 <= i < |issues| - 1 ==> issues[1..][i] == issues[i + 1];
      assert (forall i :: 0 <= i < |issues| ==> issues[i].path == [])
         <==> issues[0].path == [] && forall i :: 0 <= i < |issues| - 1 ==> issues[1..][i].path == [] by {
        if issues[0].path == [] && forall i :: 0 <= i < |issues| - 1 ==> issues[1..][i].path == [] {
          forall i | 0 <= i < |issues| ensures issues[i].path == [] {
            if i > 0 { assert issues[i] == issues[1..][i - 1]; }
          }
        }
      }
      if issues[0].path != [] then [IssueText(issues[0], zodText)] + rest else rest
  }

  const InvalidPatientText: string := "Données patient invalides"

  /** The error shown for a rejected payload (lines 411-420): the field messages
      joined with " — ", or the generic text when no issue lies under a field
      (a payload that is not an object, or one the schema accepts). */
  function ValidationError(p: Json, zodText: Issue -> string): (e: string)
    ensures e != ""
    ensures var messages := FieldMessages(PatientIssues(p), zodText);
      && (messages == [] ==> e == InvalidPatientText)
      && (JsString.Join(messages, " — ") == "" ==> e == InvalidPatientText)
      && (JsString.Join(messages, " — ") != "" ==> e == JsString.Join(messages, " — "))
    ensures !p.Obj? ==> e == InvalidPatientText
  {
    JsString.OrElse(JsString.Join(FieldMessages(PatientIssues(p), zodText), " — "), InvalidPatientText)
  }

  /** Two empty names, nothing else wrong: both custom messages, in schema order. */
  lemma EmptyNamesMessage(pd: ProfileData, zodText: Issue -> string)
    requires pd.firstName == Str("") && pd.lastName == Str("")
    requires pd.phone.Str? && pd.address.Str?
    ensures var p := PatientPayload(Null, pd);
      ValidationError(p, zodText) == "Prénom requis — Nom requis"
  {
    EmptyNamesIssues(pd);
    TwoNameMessages(PatientIssues(PatientPayload(Null, pd)), zodText);
  }

  lemma EmptyNamesIssues(pd: ProfileData)
    requires pd.firstName == Str("") && pd.lastName == Str("")
    requires pd.phone.Str? && pd.address.Str?
    ensures PatientIssues(PatientPayload(Null, pd))
         == [TooSmall([Key("firstName")], FirstNameMessage), TooSmall([Key("lastName")], LastNameMessage)]
  {
    EmptyNamesPayload(pd);
    OnlyNamesMissing(PatientPayload(Null, pd));
  }

  /** A payload whose only faults are its two empty names reports exactly those two, in schema order. */
  lemma OnlyNamesMissing(p: Json)
    requires p.Obj? && Get(p, "firstName") == Str("") && Get(p, "lastName") == Str("") && Get(p, "phone").Str?
    requires Get(p, "dateOfBirth") == Undefined && Get(p, "gender") == Undefined
    requires Get(p, "emergencyContact") == Undefined && Get(p, "medicalInfo") == Undefined && Get(p, "insurance") == Undefined
    requires Get(p, "preferences") == Undefined && Get(p, "consent") == Undefined
    requires SectionIssues(Get(p, "address"), AddressRules, false, [Key("address")]) == []
    ensures PatientIssues(p) == [TooSmall([Key("firstName")], FirstNameMessage), TooSmall([Key("lastName")], LastNameMessage)]
  {
  }

  /** Without a stored patient the payload holds the form's fields, a valid
      address and none of the optional parts. */
  lemma EmptyNamesPayload(pd: ProfileData)
    requires pd.phone.Str? && pd.address.Str?
    ensures var p := PatientPayload(Null, pd);
      && Get(p, "firstName") == pd.firstName && Get(p, "lastName") == pd.lastName && Get(p, "phone") == pd.phone
      && Get(p, "dateOfBirth") == Undefined && Get(p, "gender") == Undefined
      && Get(p, "emergencyContact") == Undefined && Get(p, "medicalInfo") == Undefined && Get(p, "insurance") == Undefined
      && Get(p, "preferences") == Undefined && Get(p, "consent") == Undefined
      && SectionIssues(Get(p, "address"), AddressRules, false, [Key("address")]) == []
  {
    var p := PatientPayload(Null, pd);
    var a := Get(p, "address");
    assert Get(a, "street") == pd.address;
    assert FitsRules(a, AddressRules) by {
      forall i | 0 <= i < |AddressRules| ensures FitsKind(Get(a, AddressRules[i].key), AddressRules[i].kind) {
        assert AddressRules[i].key in AddressKeys;
      }
    }
    assert "dateOfBirth" in {"dateOfBirth", "gender", "emergencyContact", "medicalInfo", "insurance", "preferences", "consent"};
  }

  lemma TwoNameMessages(issues: seq<Issue>, zodText: Issue -> string)
    requires issues == [TooSmall([Key("firstName")], FirstNameMessage), TooSmall([Key("lastName")], LastNameMessage)]
    ensures JsString.Join(FieldMessages(issues, zodText), " — ") == "Prénom requis — Nom requis"
  {
    assert issues[1..] == [TooSmall([Key("lastName")], LastNameMessage)];
    assert issues[1..][1..] == [];
    assert FieldMessages(issues[1..], zodText) == [LastNameMessage];
    var texts := FieldMessages(issues, zodText);
    assert texts == [FirstNameMessage, LastNameMessage];
    assert texts[1..] == [LastNameMessage];
    assert JsString.Join(texts, " — ") == FirstNameMessage + " — " + LastNameMessage;
  }

  /** A `null` nested in a section survives the payload's `?? undefined` (which
      only looks at the section itself) and is reported by the schema, whose
      `.optional()` admits `undefined` but not `null`; a top-level `null`
      gender, by contrast, becomes `undefined` and passes. */
  lemma {:induction false} NestedNullRejected(patient: Json, pd: ProfileData)
    requires Get(Get(patient, "medicalInfo"), "bloodType") == Null
    ensures var p := PatientPayload(patient, pd);
      && Get(p, "medicalInfo") == Get(patient, "medicalInfo")
      && InvalidType([Key("medicalInfo"), Key("bloodType")], AString, Null)
         in SectionIssues(Get(p, "medicalInfo"), MedicalInfoRules, true, [Key("medicalInfo")])
      && PatientIssues(p) != [] && !PatientValid(p)
  {
    var m := Get(patient, "medicalInfo");
    assert MedicalInfoRules[0] == FieldRule("bloodType", OptString);
    assert !FitsKind(Get(m, MedicalInfoRules[0].key), MedicalInfoRules[0].kind);
    assert RulesIssues(m, MedicalInfoRules, [Key("medicalInfo")])[0]
        == InvalidType([Key("medicalInfo"), Key("bloodType")], AString, Null);
  }

  /** A top-level `null` gender is turned into `undefined` by the payload and so passes the schema's gender rule. */
  lemma NullGenderDropped(patient: Json, pd: ProfileData)
    requires Get(patient, "gender") == Null
    ensures Get(PatientPayload(patient, pd), "gender") == Undefined
    ensures GenderIssues(Get(PatientPayload(patient, pd), "gender"), [Key("gender")]) == []
  {
  }

  /** With no stored patient, the payload passes exactly when the form's names
      are non-empty strings and its phone and address are strings. */
  lemma FormOnlyPayloadValid(pd: ProfileData)
    requires pd.phone.Str? && pd.address.Str?
    ensures PatientValid(PatientPayload(Null, pd)) <==> NonEmptyString(pd.firstName) && NonEmptyString(pd.lastName)
  {
    var p := PatientPayload(Null, pd);
    var a := Get(p, "address");
    assert FitsRules(a, AddressRules) by {
      forall i | 0 <= i < |AddressRules| ensures FitsKind(Get(a, AddressRules[i].key), AddressRules[i].kind) {
        assert AddressRules[i].key in AddressKeys;
      }
    }
  }

  // ---------------------------------------------------------------------------
  // What a successful parse returns

  function RuleKeys(rules: seq<FieldRule>): (ks: set<string>)
    ensures forall i :: 0 <= i < |rules| ==> rules[i].key in ks
    ensures forall k :: k in ks ==> exists i :: 0 <= i < |rules| && rules[i].key == k
    decreases |rules|
  {
    if |rules| == 0 then {}
    else
      var rest := RuleKeys(rules[1..]);
      assert forall i :: 1 <= i < |rules| ==> rules[i] == rules[1..][i - 1];
      {rules[0].key} + rest
  }

  /** An object section with the keys the schema does not know removed. */
  function Strip(v: Json, rules: seq<FieldRule>): (r: Json)
    ensures !v.Obj? ==> r == v
    ensures v.Obj? ==> r.Obj? && r.fields.Keys == v.fields.Keys * RuleKeys(rules)
    ensures forall k :: k in RuleKeys(rules) ==> Get(r, k) == Get(v, k)
  {
    if v.Obj? then Obj(map k | k in v.fields.Keys && k in RuleKeys(rules) :: v.fields[k]) else v
  }

  function SectionRules(k: string): seq<FieldRule> {
    if k == "address" then AddressRules
    else if k == "emergencyContact" then EmergencyContactRules
    else if k == "medicalInfo" then MedicalInfoRules
    else if k == "insurance" then InsuranceRules
    else if k == "preferences" then PreferencesRules
    else if k == "consent" then ConsentRules
    else []
  }

  predicate IsSection(k: string) {
    k in {"address", "emergencyContact", "medicalInfo", "insurance", "preferences", "consent"}
  }

  /** What the parse makes of the value under a top-level key. */
  function ParsedValue(k: string, v: Json): Json {
    if IsSection(k) then Strip(v, SectionRules(k)) else v
  }

  /** `parsed.data`: the schema's keys only, each object section stripped of
      unknown keys, every other value as it was. */
  function ParsedPatient(p: Json): (d: Json)
    requires p.Obj?
    ensures d.Obj? && d.fields.Keys == p.fields.Keys * PayloadKeys
    ensures forall k :: k in PayloadKeys ==> Get(d, k) == ParsedValue(k, Get(p, k))
  {
    Obj(map k | k in p.fields.Keys && k in PayloadKeys :: ParsedValue(k, p.fields[k]))
  }

  /** Stripping keeps a section valid. */
  lemma StripValid(v: Json, rules: seq<FieldRule>, optional: bool)
    requires SectionValid(v, rules, optional)
    ensures SectionValid(Strip(v, rules), rules, optional)
  {
    if v.Obj? {
      forall i | 0 <= i < |rules| ensures FitsKind(Get(Strip(v, rules), rules[i].key), rules[i].kind) {
        assert rules[i].key in RuleKeys(rules);
      }
    }
  }

  lemma StripIdempotent(v: Json, rules: seq<FieldRule>)
    ensures Strip(Strip(v, rules), rules) == Strip(v, rules)
  {
    if v.Obj? {
      var s := Strip(v, rules);
      var ss := Strip(s, rules);
      assert ss.fields.Keys == s.fields.Keys;
      forall j | j in s.fields.Keys ensures ss.fields[j] == s.fields[j] {
        assert Get(ss, j) == Get(s, j);
      }
    }
  }

  /** What the parse returns passes the schema again. */
  lemma ParsedPatientValid(p: Json)
    requires PatientValid(p)
    ensures PatientValid(ParsedPatient(p))
  {
    var d := ParsedPatient(p);
    assert Get(d, "firstName") == Get(p, "firstName") && Get(d, "lastName") == Get(p, "lastName");
    assert Get(d, "dateOfBirth") == Get(p, "dateOfBirth") && Get(d, "gender") == Get(p, "gender");
    assert Get(d, "phone") == Get(p, "phone");
    assert Get(d, "address") == Strip(Get(p, "address"), AddressRules);
    assert Get(d, "emergencyContact") == Strip(Get(p, "emergencyContact"), EmergencyContactRules);
    assert Get(d, "medicalInfo") == Strip(Get(p, "medicalInfo"), MedicalInfoRules);
    assert Get(d, "insurance") == Strip(Get(p, "insurance"), InsuranceRules);
    assert Get(d, "preferences") == Strip(Get(p, "preferences"), PreferencesRules);
    assert Get(d, "consent") == Strip(Get(p, "consent"), ConsentRules);
    StripValid(Get(p, "address"), AddressRules, false);
    StripValid(Get(p, "emergencyContact"), EmergencyContactRules, true);
    StripValid(Get(p, "medicalInfo"), MedicalInfoRules, true);
    StripValid(Get(p, "insurance"), InsuranceRules, true);
    StripValid(Get(p, "preferences"), PreferencesRules, true);
    StripValid(Get(p, "consent"), ConsentRules, true);
  }

  /** Parsing what the parse returned changes nothing. */
  lemma ParsedPatientIdempotent(p: Json)
    requires p.Obj?
    ensures ParsedPatient(ParsedPatient(p)) == ParsedPatient(p)
  {
    var d := ParsedPatient(p);
    var dd := ParsedPatient(d);
    assert dd.fields.Keys == d.fields.Keys;
    forall k | k in d.fields.Keys ensures dd.fields[k] == d.fields[k] {
      assert Get(dd, k) == ParsedValue(k, Get(d, k));
      assert Get(d, k) == ParsedValue(k, Get(p, k));
      StripIdempotent(Get(p, k), SectionRules(k));
    }
    assert dd.fields == d.fields;
  }

  /** The body of the create request (lines 429-432): `{ user: id, ...data }`. */
  function CreateBody(id: Json, data: Json): (b: Json)
    ensures b.Obj? && b.fields.Keys == Spread(data).Keys + {"user"}
    ensures "user" !in Spread(data) ==> Get(b, "user") == id
    ensures forall k :: k in Spread(data) ==> Get(b, k) == Spread(data)[k]
  {
    Obj(map["user" := id] + Spread(data))
  }

  // ---------------------------------------------------------------------------
  // Record updates (lines 237-246)

  /** `handlePatientField(key, value)` */
  function PatientField(patient: Json, key: string, value: Json): (r: Json)
    ensures r.Obj? && Get(r, key) == value
    ensures forall k :: k != key ==> Get(r, k) == Get(patient, k)
  {
    With(patient, key, value)
  }

  /** `handlePatientNested(section, key, value)` */
  function PatientNested(patient: Json, section: string, key: string, value: Json): (r: Json)
    ensures r.Obj? && Get(r, section).Obj? && Get(Get(r, section), key) == value
    ensures forall k :: k != key ==> Get(Get(r, section), k) == Get(Get(patient, section), k)
    ensures forall s :: s != section ==> Get(r, s) == Get(patient, s)
  {
    With(patient, section, With(Get(patient, section), key, value))
  }

  /** The last write to a nested field wins. */
  lemma PatientNestedOverwrite(patient: Json, section: string, key: string, v1: Json, v2: Json)
    ensures PatientNested(PatientNested(patient, section, key, v1), section, key, v2) == PatientNested(patient, section, key, v2)
  {
    var a := PatientNested(PatientNested(patient, section, key, v1), section, key, v2);
    var b := PatientNested(patient, section, key, v2);
    var sa, sb := Get(a, section), Get(b, section);
    assert sa.fields == sb.fields by {
      assert sa.fields.Keys == sb.fields.Keys;
      forall k | k in sa.fields.Keys ensures sa.fields[k] == sb.fields[k] {
        assert Get(sa, k) == Get(sb, k);
      }
    }
    assert a.fields.Keys == b.fields.Keys;
    forall s | s in a.fields.Keys ensures a.fields[s] == b.fields[s] {
      assert Get(a, s) == Get(b, s);
    }
  }

  /** Edits of two different nested fields can be made in either order. */
  lemma PatientNestedCommute(patient: Json, s1: string, k1: string, v1: Json, s2: string, k2: string, v2: Json)
    requires s1 != s2 || k1 != k2
    ensures PatientNested(PatientNested(patient, s1, k1, v1), s2, k2, v2)
         == PatientNested(PatientNested(patient, s2, k2, v2), s1, k1, v1)
  {
    var a := PatientNested(PatientNested(patient, s1, k1, v1), s2, k2, v2);
    var b := PatientNested(PatientNested(patient, s2, k2, v2), s1, k1, v1);
    if s1 == s2 {
      SameObject(Get(a, s1), Get(b, s1));
    }
    forall s ensures Get(a, s) == Get(b, s) {
      if s == s1 || s == s2 {
        if s1 != s2 {
          assert Get(a, s) == Get(b, s);
        }
      }
    }
    SameObject(a, b);
  }

  /** Two objects with the same keys and the same value under each key are one object. */
  lemma SameObject(a: Json, b: Json)
    requires a.Obj? && b.Obj? && a.fields.Keys == b.fields.Keys
    requires forall k :: Get(a, k) == Get(b, k)
    ensures a == b
  {
    forall k | k in a.fields.Keys ensures a.fields[k] == b.fields[k] {
      assert Get(a, k) == Get(b, k);
    }
  }

  // ---------------------------------------------------------------------------
  // The patient lookup's prefill (lines 159-169)

  /** `res.data?.data ?? res.data` */
  function LookupPayload(data: Json): Json {
    Coalesce(Get(data, "data"), data)
  }

  /** `{ ...prev, firstName: payload.firstName || prev.firstName, ... }`: three
      fields and the address (from the street) are taken from the record when
      truthy; the name and the specialty are kept. */
  function Prefill(prev: ProfileData, payload: Json): (pd: ProfileData)
    ensures pd.name == prev.name && pd.specialty == prev.specialty
    ensures pd.firstName == (if Truthy(Get(payload, "firstName")) then Get(payload, "firstName") else prev.firstName)
    ensures pd.lastName == (if Truthy(Get(payload, "lastName")) then Get(payload, "lastName") else prev.lastName)
    ensures pd.phone == (if Truthy(Get(payload, "phone")) then Get(payload, "phone") else prev.phone)
    ensures var street := Get(Get(payload, "address"), "street");
      pd.address == if Truthy(street) then street else prev.address
  {
    prev.(firstName := Or(Get(payload, "firstName"), prev.firstName),
          lastName := Or(Get(payload, "lastName"), prev.lastName),
          phone := Or(Get(payload, "phone"), prev.phone),
          address := Or(Get(Get(payload, "address"), "street"), prev.address))
  }

  /** Prefilling twice from the same record is prefilling once. */
  lemma PrefillIdempotent(prev: ProfileData, payload: Json)
    ensures Prefill(Prefill(prev, payload), payload) == Prefill(prev, payload)
  {
  }

  // ---------------------------------------------------------------------------
  // Comma-separated list inputs (lines 972-1025)

  /** A list element as the inputs produce it: non-empty, trimmed, comma-free. */
  predicate Clean(x: string) {
    x != "" && !JsString.IsSpace(x[0]) && !JsString.IsSpace(x[|x| - 1]) && ',' !in x
  }

  /** `.map((s) => s.trim()).filter(Boolean)` */
  function TrimAndDrop(pieces: seq<string>): (r: seq<string>)
    ensures |r| <= |pieces|
    ensures forall i :: 0 <= i < |r| ==> r[i] != ""
    decreases |pieces|
  {
    if |pieces| == 0 then []
    else
      var t := JsString.Trim(pieces[0]);
      (if t == "" then [] else [t]) + TrimAndDrop(pieces[1..])
  }

  /** The list holds exactly the non-empty trimmed pieces. */
  lemma {:induction false} TrimAndDropMembers(pieces: seq<string>, x: string)
    ensures x in TrimAndDrop(pieces) <==> x != "" && exists i :: 0 <= i < |pieces| && JsString.Trim(pieces[i]) == x
    decreases |pieces|
  {
    if |pieces| > 0 {
      TrimAndDropMembers(pieces[1..], x);
      if exists i :: 0 <= i < |pieces| && JsString.Trim(pieces[i]) == x {
        var i :| 0 <= i < |pieces| && JsString.Trim(pieces[i]) == x;
        if i > 0 { assert pieces[1..][i - 1] == pieces[i]; }
      }
      if exists i :: 0 <= i < |pieces| - 1 && JsString.Trim(pieces[1..][i]) == x {
        var i :| 0 <= i < |pieces| - 1 && JsString.Trim(pieces[1..][i]) == x;
        assert pieces[1..][i] == pieces[i + 1];
      }
    }
  }

  /** The pieces are handled one by one: the list of a concatenation is the concatenation of the lists. */
  lemma {:induction false} TrimAndDropAppend(a: seq<string>, b: seq<string>)
    ensures TrimAndDrop(a + b) == TrimAndDrop(a) + TrimAndDrop(b)
    decreases |a|
  {
    if |a| == 0 {
      assert a + b == b;
    } else {
      var ab := a + b;
      assert ab[0] == a[0] && ab[1..] == a[1..] + b;
      TrimAndDropAppend(a[1..], b);
      var t := JsString.Trim(a[0]);
      var head := if t == "" then [] else [t];
      calc {
        TrimAndDrop(ab);
        head + TrimAndDrop(a[1..] + b);
        head + (TrimAndDrop(a[1..]) + TrimAndDrop(b));
        (head + TrimAndDrop(a[1..])) + TrimAndDrop(b);
        TrimAndDrop(a) + TrimAndDrop(b);
      }
    }
  }

  /** Pieces without a comma come out clean. */
  lemma {:induction false} TrimAndDropClean(pieces: seq<string>)
    requires forall i :: 0 <= i < |pieces| ==> ',' !in pieces[i]
    ensures forall i :: 0 <= i < |TrimAndDrop(pieces)| ==> Clean(TrimAndDrop(pieces)[i])
    decreases |pieces|
  {
    if |pieces| > 0 {
      assert forall i :: 0 <= i < |pieces| - 1 ==> pieces[1..][i] == pieces[i + 1];
      TrimAndDropClean(pieces[1..]);
      JsString.TrimKeepsOut(pieces[0], ',');
      var t := JsString.Trim(pieces[0]);
      var head := if t == "" then [] else [t];
      var rest := TrimAndDrop(pieces[1..]);
      TrimAndDropCons(pieces);
      AllCleanAppend(head, rest);
    }
  }

  /** `TrimAndDrop` handles the first piece, then the rest. */
  lemma TrimAndDropCons(pieces: seq<string>)
    requires |pieces| > 0
    ensures var t := JsString.Trim(pieces[0]);
      TrimAndDrop(pieces) == (if t == "" then [] else [t]) + TrimAndDrop(pieces[1..])
  {
  }

  lemma AllCleanAppend(head: seq<string>, rest: seq<string>)
    requires forall i :: 0 <= i < |head| ==> Clean(head[i])
    requires forall i :: 0 <= i < |rest| ==> Clean(rest[i])
    ensures forall i :: 0 <= i < |head + rest| ==> Clean((head + rest)[i])
  {
    assert forall i :: |head| <= i < |head| + |rest| ==> (head + rest)[i] == rest[i - |head|];
  }

  /** The text of an allergies or chronic-diseases input, as the list it stores:
      split at the commas, each piece trimmed, the empty ones dropped. */
  function CommaList(text: string): (r: seq<string>)
    ensures forall i :: 0 <= i < |r| ==> Clean(r[i])
    ensures r == [] <==> OnlySeparators(text)
  {
    var pieces := JsString.Split(text, ',');
    TrimAndDropClean(pieces);
    assert JsString.Join(pieces, ",") == text;
    NothingButSeparators(pieces);
    TrimAndDrop(pieces)
  }

  /** Text made of nothing but commas and white space. */
  predicate OnlySeparators(t: string) {
    forall k :: 0 <= k < |t| ==> t[k] == ',' || JsString.IsSpace(t[k])
  }

  lemma SeparatorsJoin(a: string, b: string)
    ensures OnlySeparators(a + "," + b) <==> OnlySeparators(a) && OnlySeparators(b)
  {
    var t := a + "," + b;
    assert forall k :: 0 <= k < |a| ==> t[k] == a[k];
    assert forall k :: 0 <= k < |b| ==> t[|a| + 1 + k] == b[k];
    if OnlySeparators(a) && OnlySeparators(b) {
      forall k | 0 <= k < |t| ensures t[k] == ',' || JsString.IsSpace(t[k]) {
        if k > |a| { assert t[k] == b[k - |a| - 1]; }
      }
    }
  }

  lemma SeparatorsPiece(piece: string)
    requires ',' !in piece
    ensures OnlySeparators(piece) <==> JsString.Trim(piece) == ""
  {
    JsString.TrimEmpty(piece);
    if OnlySeparators(piece) {
      forall k | 0 <= k < |piece| ensures JsString.IsSpace(piece[k]) {
        assert piece[k] in piece;
      }
    }
  }

  /** The list is empty exactly when the text joined from the pieces holds nothing but commas and white space. */
  lemma {:induction false} NothingButSeparators(pieces: seq<string>)
    requires |pieces| >= 1 && forall i :: 0 <= i < |pieces| ==> ',' !in pieces[i]
    ensures TrimAndDrop(pieces) == [] <==> OnlySeparators(JsString.Join(pieces, ","))
    decreases |pieces|
  {
    SeparatorsPiece(pieces[0]);
    var t := JsString.Trim(pieces[0]);
    var head := if t == "" then [] else [t];
    assert TrimAndDrop(pieces) == head + TrimAndDrop(pieces[1..]);
    if |pieces| == 1 {
      assert JsString.Join(pieces, ",") == pieces[0];
      assert pieces[1..] == [];
    } else {
      NothingButSeparators(pieces[1..]);
      assert JsString.Join(pieces, ",") == pieces[0] + "," + JsString.Join(pieces[1..], ",");
      SeparatorsJoin(pieces[0], JsString.Join(pieces[1..], ","));
    }
  }

  /** Typing the separator after the last element, at the end of the input,
      gives back the same list, and the input is redrawn as `list.join(", ")`:
      the comma just typed disappears before a next element can follow it. */
  lemma TypedSeparatorErased(x: string)
    requires Clean(x)
    ensures CommaList(x + ",") == [x] && CommaList(x + ", ") == [x]
    ensures JsString.Join(CommaList(x + ", "), ", ") == x
  {
    JsString.SplitJoin([x, ""], ',');
    assert JsString.Join([x, ""], ",") == x + ",";
    JsString.SplitJoin([x, " "], ',');
    assert JsString.Join([x, " "], ",") == x + ", ";
    JsString.TrimmedIsFixed(x);
    assert JsString.Trim(" ") == "" by { JsString.TrimEmpty(" "); }
    assert TrimAndDrop([x, ""]) == [x] by { JsString.TrimEmpty(""); assert [x, ""][1..] == [""]; }
    assert TrimAndDrop([x, " "]) == [x] by { assert [x, " "][1..] == [" "]; }
  }

  function Strings(xs: seq<string>): (r: seq<Json>)
    ensures |r| == |xs| && forall i :: 0 <= i < |xs| ==> r[i] == Str(xs[i])
  {
    seq(|xs|, i requires 0 <= i < |xs| => Str(xs[i]))
  }

  /** The JSON array stored for an allergies or chronic-diseases input. */
  function StringList(text: string): Json {
    Arr(Strings(CommaList(text)))
  }

  function Medication(name: string): Json {
    Obj(map["name" := Str(name)])
  }

  /** `.map((s) => ({ name: s.trim() })).filter((o) => o.name)` */
  function MedicationEntries(pieces: seq<string>): seq<Json>
    decreases |pieces|
  {
    if |pieces| == 0 then []
    else
      var o := Medication(JsString.Trim(pieces[0]));
      (if Truthy(Get(o, "name")) then [o] else []) + MedicationEntries(pieces[1..])
  }

  /** The JSON array stored for the current-medications input. */
  function MedicationList(text: string): Json {
    Arr(MedicationEntries(JsString.Split(text, ',')))
  }

  /** One `{ name }` entry per name. */
  function Medications(names: seq<string>): (r: seq<Json>)
    ensures |r| == |names| && forall i :: 0 <= i < |names| ==> r[i] == Medication(names[i])
  {
    seq(|names|, i requires 0 <= i < |names| => Medication(names[i]))
  }

  lemma MedicationsCons(name: string, names: seq<string>)
    ensures Medications([name] + names) == [Medication(name)] + Medications(names)
  {
    assert forall i :: 0 < i < |names| + 1 ==> ([name] + names)[i] == names[i - 1];
  }

  /** The medications input stores one `{ name }` entry per element of the plain
      list parse of the same text. */
  lemma MedicationListNames(text: string)
    ensures MedicationList(text) == Arr(Medications(CommaList(text)))
  {
    MedicationsOfPieces(JsString.Split(text, ','));
  }

  lemma {:induction false} MedicationsOfPieces(pieces: seq<string>)
    ensures MedicationEntries(pieces) == Medications(TrimAndDrop(pieces))
    decreases |pieces|
  {
    if |pieces| > 0 {
      MedicationsOfPieces(pieces[1..]);
      var t := JsString.Trim(pieces[0]);
      assert Truthy(Get(Medication(t), "name")) <==> t != "";
      if t != "" {
        MedicationsCons(t, TrimAndDrop(pieces[1..]));
      } else {
        assert TrimAndDrop(pieces) == TrimAndDrop(pieces[1..]);
      }
    }
  }

  /** Each element after the first, as it appears in `xs.join(", ")` cut at the commas. */
  function Spaced(xs: seq<string>): (r: seq<string>)
    ensures |r| == |xs| && forall i :: 0 <= i < |xs| ==> r[i] == " " + xs[i]
  {
    seq(|xs|, i requires 0 <= i < |xs| => " " + xs[i])
  }

  lemma {:induction false} JoinSpaced(ys: seq<string>)
    requires |ys| >= 1
    ensures JsString.Join(Spaced(ys), ",") == " " + JsString.Join(ys, ", ")
    decreases |ys|
  {
    if |ys| > 1 {
      JoinSpaced(ys[1..]);
      assert Spaced(ys)[1..] == Spaced(ys[1..]);
      CommaSpace(ys[0], JsString.Join(ys[1..], ", "));
      assert (" " + ys[0]) + "," + (" " + JsString.Join(ys[1..], ", ")) == " " + (ys[0] + "," + (" " + JsString.Join(ys[1..], ", ")));
    }
  }

  lemma {:induction false} TrimSpaced(ys: seq<string>)
    requires forall i :: 0 <= i < |ys| ==> Clean(ys[i])
    ensures TrimAndDrop(Spaced(ys)) == ys
    decreases |ys|
  {
    if |ys| > 0 {
      var sp := Spaced(ys);
      assert sp[1..] == Spaced(ys[1..]);
      TrimSpaced(ys[1..]);
      JsString.TrimLeadingSpace(ys[0]);
      calc {
        TrimAndDrop(sp);
        [ys[0]] + TrimAndDrop(sp[1..]);
        [ys[0]] + ys[1..];
        { HeadTail(ys); }
        ys;
      }
    }
  }

  lemma CommaSpace(a: string, b: string)
    ensures a + "," + (" " + b) == a + ", " + b
  {
    assert "," + " " == ", ";
    calc {
      a + "," + (" " + b);
      (a + ",") + " " + b;
      a + ("," + " ") + b;
    }
  }

  /** `xs.join(", ")` is the first element and the spaced rest joined at bare commas. */
  lemma JoinFirstSpaced(xs: seq<string>)
    requires |xs| >= 1
    ensures JsString.Join([xs[0]] + Spaced(xs[1..]), ",") == JsString.Join(xs, ", ")
  {
    var pieces := [xs[0]] + Spaced(xs[1..]);
    if |xs| > 1 {
      JoinSpaced(xs[1..]);
      assert pieces[1..] == Spaced(xs[1..]);
      CommaSpace(xs[0], JsString.Join(xs[1..], ", "));
    }
  }

  lemma HeadTail(xs: seq<string>)
    requires |xs| > 0
    ensures [xs[0]] + xs[1..] == xs
  {
  }

  lemma SpacedNoComma(xs: seq<string>)
    requires |xs| >= 1 && forall i :: 0 <= i < |xs| ==> Clean(xs[i])
    ensures var pieces := [xs[0]] + Spaced(xs[1..]);
      forall i :: 0 <= i < |pieces| ==> ',' !in pieces[i]
  {
    var pieces := [xs[0]] + Spaced(xs[1..]);
    forall i | 0 <= i < |pieces| ensures ',' !in pieces[i] {
      if i > 0 { assert pieces[i] == " " + xs[i]; }
    }
  }

  lemma TrimFirstSpaced(xs: seq<string>)
    requires |xs| >= 1 && forall i :: 0 <= i < |xs| ==> Clean(xs[i])
    ensures TrimAndDrop([xs[0]] + Spaced(xs[1..])) == xs
  {
    var pieces := [xs[0]] + Spaced(xs[1..]);
    assert pieces[0] == xs[0] && pieces[1..] == Spaced(xs[1..]);
    TrimSpaced(xs[1..]);
    JsString.TrimmedIsFixed(xs[0]);
    TrimAndDropCons(pieces);
    HeadTail(xs);
  }

  /** What the input shows, `list.join(", ")`, reads back as the same list. */
  lemma CommaListRoundTrip(xs: seq<string>)
    requires forall i :: 0 <= i < |xs| ==> Clean(xs[i])
    ensures CommaList(JsString.Join(xs, ", ")) == xs
  {
    if |xs| == 0 {
      assert JsString.Split("", ',') == [""];
    } else {
      var pieces := [xs[0]] + Spaced(xs[1..]);
      JoinFirstSpaced(xs);
      SpacedNoComma(xs);
      JsString.SplitJoin(pieces, ',');
      TrimFirstSpaced(xs);
    }
  }
}
