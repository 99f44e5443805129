/**
 The two record mappings of the synchroniser: a Keycloak user to a Postgres profile and back.

 Attribute maps are split by key: the eighteen standard keys, and all other keys by name.
 */
module SyncMapping {
  import opened Store
  import opened Decimal

  datatype Attr =
    | Department | ClearanceLevel | ContractExpiryDate | ManagerId | JobTitle | BusinessUnit
    | TerritorialJurisdiction | TechnicalExpertise | HierarchyLevel | WorkLocation | EmploymentType
    | VerificationStatus | RiskScore | Certifications | PhoneNumber | Nationality | DateOfBirth | Gender

  datatype Keyed<V> = Keyed(standard: map<Attr, V>, other: map<string, V>)

  type Attributes = Keyed<seq<string>>

  /** `Other` is any further value, null, a fraction or a nested one, by the text `String` makes of it. */
  datatype Scalar = Text(s: string) | Flag(b: bool) | Int(n: int) | Other(shown: string)

  datatype CustomValue = Many(items: seq<Scalar>) | One(item: Scalar)

  /** A floating-point number, by its code; an absent one is NaN. */
  datatype Double = Double(code: int)

  datatype KeycloakUser = KeycloakUser(
    id: string, username: string, email: Option<string>, emailVerified: Option<bool>,
    firstName: Option<string>, lastName: Option<string>, enabled: bool, attributes: Option<Attributes>)

  /** Dates are instants in milliseconds. */
  datatype Profile = Profile(
    keycloakId: string, username: string, email: string, emailVerified: bool,
    firstName: Option<string>, lastName: Option<string>, enabled: bool,
    department: Option<string>, clearanceLevel: Number, contractExpiryDate: Option<int>,
    managerId: Option<string>, jobTitle: Option<string>, businessUnit: Option<string>,
    territorialJurisdiction: Option<string>, technicalExpertise: seq<string>, hierarchyLevel: Number,
    workLocation: Option<string>, employmentType: string, verificationStatus: string,
    riskScore: Option<Double>, certifications: seq<string>, phoneNumber: Option<string>,
    nationality: Option<string>, dateOfBirth: Option<int>, gender: Option<string>,
    state: string, customAttributes: Option<Keyed<CustomValue>>)

  /** The language's conversions between text and dates or floating-point numbers. */
  datatype Codec = Codec(
    printDate: int -> string, parseDate: string -> Option<int>,
    printDouble: Double -> string, parseDouble: string -> Option<Double>, zero: Double)

  predicate DateLaw(c: Codec, d: int) {
    c.printDate(d) != "" && c.parseDate(c.printDate(d)) == Some(d)
  }

  predicate DoubleLaw(c: Codec, x: Double) {
    c.printDouble(x) != "" && c.parseDouble(c.printDouble(x)) == Some(x)
  }

  /**
   What is asked of the conversions for a profile: they print its dates and its nonzero risk score as
   texts that parse back to them.  Instants out of range do not print, and -0 prints as 0.
   */
  ghost predicate Lawful(c: Codec, u: Profile) {
    && (u.contractExpiryDate.Some? ==> DateLaw(c, u.contractExpiryDate.value))
    && (u.dateOfBirth.Some? ==> DateLaw(c, u.dateOfBirth.value))
    && (u.riskScore.Some? && u.riskScore.value != c.zero ==> DoubleLaw(c, u.riskScore.value))
    && c.parseDouble("0") == Some(c.zero)
  }

  // ---------------------------------------------------------------- helpers of the mappings

  function First(a: Attributes, key: Attr): Option<string> {
    if key in a.standard && |a.standard[key]| > 0 then Some(a.standard[key][0]) else None
  }

  function All(a: Attributes, key: Attr): seq<string> {
    if key in a.standard then a.standard[key] else []
  }

  /** JavaScript's `||` on an optional text: the empty text counts as absent. */
  function OrElse(o: Option<string>, default: string): string {
    if o.Some? && o.value != "" then o.value else default
  }

  function ParseDate(c: Codec, o: Option<string>): Option<int> {
    if o.None? || o.value == "" then None else c.parseDate(o.value)
  }

  function ListOf(o: Option<string>): seq<string> {
    if o.Some? && o.value != "" then [o.value] else []
  }

  function ListOfLevel(n: Number): seq<string> {
    if n.NaN? || n.n == 0 then [] else [Print(n.n)]
  }

  function ListOfDate(c: Codec, d: Option<int>): seq<string> {
    if d.Some? then [c.printDate(d.value)] else []
  }

  function ListOfDouble(c: Codec, x: Option<Double>): seq<string> {
    if x.None? || x.value == c.zero then [] else [c.printDouble(x.value)]
  }

  function ToText(s: Scalar): string {
    match s
    case Text(t) => t
    case Flag(b) => if b then "true" else "false"
    case Int(n) => Print(n)
    case Other(shown) => shown
  }

  function ExpandValue(v: CustomValue): seq<string> {
    match v
    case Many(items) => seq(|items|, i requires 0 <= i < |items| => ToText(items[i]))
    case One(item) => [ToText(item)]
  }

  function Expand(custom: Option<Keyed<CustomValue>>): Attributes {
    if custom.None? then Keyed(map[], map[])
    else Keyed(map k | k in custom.value.standard :: ExpandValue(custom.value.standard[k]),
               map k | k in custom.value.other :: ExpandValue(custom.value.other[k]))
  }

  function Texts(values: seq<string>): CustomValue {
    Many(seq(|values|, i requires 0 <= i < |values| => Text(values[i])))
  }

  /** Only the non-standard keys are kept, and an empty result is dropped. */
  function Extract(a: Attributes): Option<Keyed<CustomValue>> {
    if a.other == map[] then None else Some(Keyed(map[], map k | k in a.other :: Texts(a.other[k])))
  }

  // ---------------------------------------------------------------- the mappings

  function ToPostgres(c: Codec, k: KeycloakUser): Profile {
    var a := if k.attributes.Some? then k.attributes.value else Keyed(map[], map[]);
    Profile(
      k.id, k.username, OrElse(k.email, ""), k.emailVerified == Some(true),
      k.firstName, k.lastName, k.enabled,
      First(a, Department), ParseInt(OrElse(First(a, ClearanceLevel), "1")), ParseDate(c, First(a, ContractExpiryDate)),
      First(a, ManagerId), First(a, JobTitle), First(a, BusinessUnit),
      First(a, TerritorialJurisdiction), All(a, TechnicalExpertise), ParseInt(OrElse(First(a, HierarchyLevel), "1")),
      First(a, WorkLocation), OrElse(First(a, EmploymentType), "PERMANENT"), OrElse(First(a, VerificationStatus), "PENDING"),
      c.parseDouble(OrElse(First(a, RiskScore), "0")), All(a, Certifications), First(a, PhoneNumber),
      First(a, Nationality), ParseDate(c, First(a, DateOfBirth)), First(a, Gender),
      if k.enabled then "ACTIVE" else "INACTIVE",
      Extract(a))
  }

  function StandardValue(c: Codec, u: Profile, key: Attr): seq<string> {
    match key
    case Department => ListOf(u.department)
    case ClearanceLevel => ListOfLevel(u.clearanceLevel)
    case ContractExpiryDate => ListOfDate(c, u.contractExpiryDate)
    case ManagerId => ListOf(u.managerId)
    case JobTitle => ListOf(u.jobTitle)
    case BusinessUnit => ListOf(u.businessUnit)
    case TerritorialJurisdiction => ListOf(u.territorialJurisdiction)
    case TechnicalExpertise => u.technicalExpertise
    case HierarchyLevel => ListOfLevel(u.hierarchyLevel)
    case WorkLocation => ListOf(u.workLocation)
    case EmploymentType => ListOf(Some(u.employmentType))
    case VerificationStatus => ListOf(Some(u.verificationStatus))
    case RiskScore => ListOfDouble(c, u.riskScore)
    case Certifications => u.certifications
    case PhoneNumber => ListOf(u.phoneNumber)
    case Nationality => ListOf(u.nationality)
    case DateOfBirth => ListOfDate(c, u.dateOfBirth)
    case Gender => ListOf(u.gender)
  }

  /** Custom attributes are spread last, so they override standard ones of the same key. */
  function ToKeycloak(c: Codec, u: Profile): KeycloakUser {
    var custom := Expand(u.customAttributes);
    KeycloakUser(
      u.keycloakId, u.username, Some(u.email), Some(u.emailVerified), u.firstName, u.lastName, u.enabled,
      Some(Keyed((map key: Attr | true :: StandardValue(c, u, key)) + custom.standard, custom.other)))
  }

  function RoundTrip(c: Codec, u: Profile): Profile {
    ToPostgres(c, ToKeycloak(c, u))
  }

  // ---------------------------------------------------------------- when nothing is lost

  predicate NormalLevel(n: Number) { n.Num? && n.n != 0 }

  predicate NormalText(o: Option<string>) { o != Some("") }

  predicate TextsOnly(v: CustomValue) {
    v.Many? && forall i :: 0 <= i < |v.items| ==> v.items[i].Text?
  }

  predicate NormalCustom(custom: Option<Keyed<CustomValue>>) {
    custom.Some? ==>
      && custom.value.standard == map[] && custom.value.other != map[]
      && forall k :: k in custom.value.other ==> TextsOnly(custom.value.other[k])
  }

  predicate NormalTexts(u: Profile) {
    && NormalText(u.department) && NormalText(u.managerId) && NormalText(u.jobTitle)
    && NormalText(u.businessUnit) && NormalText(u.territorialJurisdiction) && NormalText(u.workLocation)
    && NormalText(u.phoneNumber) && NormalText(u.nationality) && NormalText(u.gender)
    && u.employmentType != "" && u.verificationStatus != ""
  }

  predicate Normal(u: Profile) {
    && NormalTexts(u)
    && NormalLevel(u.clearanceLevel) && NormalLevel(u.hierarchyLevel) && u.riskScore.Some?
    && u.state == (if u.enabled then "ACTIVE" else "INACTIVE")
    && NormalCustom(u.customAttributes)
  }

  lemma ExpandTexts(v: CustomValue)
    ensures Texts(ExpandValue(v)) == v <==> TextsOnly(v)
  {
    if TextsOnly(v) {
      assert Texts(ExpandValue(v)).items == v.items;
    }
  }

  lemma ExtractExpand(custom: Option<Keyed<CustomValue>>)
    ensures Extract(Expand(custom)) == custom <==> NormalCustom(custom)
  {
    if custom.Some? {
      var e := Expand(custom);
      forall k | k in custom.value.other { ExpandTexts(custom.value.other[k]); }
      assert e.other == map[] <==> custom.value.other == map[] by {
        assert e.other.Keys == custom.value.other.Keys;
      }
      if NormalCustom(custom) {
        assert Extract(e).value.other == custom.value.other;
      }
    }
  }

  lemma LevelBack(n: Number)
    ensures
      var a := ListOfLevel(n);
      ParseInt(OrElse(if |a| > 0 then Some(a[0]) else None, "1")) == (if NormalLevel(n) then n else Num(1))
  {
    if NormalLevel(n) {
      ParsePrint(n.n);
    }
    assert Print(1) == "1" && PrintNat(1) == "1";
    ParsePrint(1);
  }

  /** The custom value, if any, that overrides a standard key. */
  function Override(u: Profile, key: Attr): Option<seq<string>> {
    if u.customAttributes.Some? && key in u.customAttributes.value.standard
    then Some(ExpandValue(u.customAttributes.value.standard[key])) else None
  }

  /** What Keycloak is given for a standard key. */
  function Sent(c: Codec, u: Profile, key: Attr): seq<string> {
    if Override(u, key).Some? then Override(u, key).value else StandardValue(c, u, key)
  }

  function FirstOf(values: seq<string>): Option<string> {
    if |values| > 0 then Some(values[0]) else None
  }

  /** Attributes that hold for each standard key what is sent for it. */
  ghost predicate Carries(c: Codec, u: Profile, a: Attributes) {
    forall key :: First(a, key) == FirstOf(Sent(c, u, key)) && All(a, key) == Sent(c, u, key)
  }

  lemma SentIsCarried(c: Codec, u: Profile)
    ensures ToKeycloak(c, u).attributes.Some? && Carries(c, u, ToKeycloak(c, u).attributes.value)
  {
  }

  predicate AvoidsStandard(u: Profile) {
    u.customAttributes.Some? ==> u.customAttributes.value.standard == map[]
  }

  function Keep(o: Option<string>): Option<string> {
    if o == Some("") then None else o
  }

  predicate DefaultsBack(c: Codec, r: Profile, u: Profile) {
    && r.employmentType == (if u.employmentType == "" then "PERMANENT" else u.employmentType)
    && r.verificationStatus == (if u.verificationStatus == "" then "PENDING" else u.verificationStatus)
    && r.clearanceLevel == (if NormalLevel(u.clearanceLevel) then u.clearanceLevel else Num(1))
    && r.hierarchyLevel == (if NormalLevel(u.hierarchyLevel) then u.hierarchyLevel else Num(1))
    && r.riskScore == (if u.riskScore.Some? then u.riskScore else Some(c.zero))
  }

  predicate RestBack(r: Profile, u: Profile) {
    && r.contractExpiryDate == u.contractExpiryDate && r.dateOfBirth == u.dateOfBirth
    && r.technicalExpertise == u.technicalExpertise && r.certifications == u.certifications
    && r.keycloakId == u.keycloakId && r.username == u.username && r.email == u.email
    && r.emailVerified == u.emailVerified && r.firstName == u.firstName && r.lastName == u.lastName
    && r.enabled == u.enabled && r.state == (if u.enabled then "ACTIVE" else "INACTIVE")
  }

  predicate TextsRead(r: Profile, a: Attributes) {
    && r.department == First(a, Department) && r.managerId == First(a, ManagerId) && r.jobTitle == First(a, JobTitle)
    && r.businessUnit == First(a, BusinessUnit) && r.territorialJurisdiction == First(a, TerritorialJurisdiction)
    && r.workLocation == First(a, WorkLocation) && r.phoneNumber == First(a, PhoneNumber)
    && r.nationality == First(a, Nationality) && r.gender == First(a, Gender)
  }

  predicate DefaultsRead(c: Codec, r: Profile, a: Attributes) {
    && r.employmentType == OrElse(First(a, EmploymentType), "PERMANENT")
    && r.verificationStatus == OrElse(First(a, VerificationStatus), "PENDING")
    && r.clearanceLevel == ParseInt(OrElse(First(a, ClearanceLevel), "1"))
    && r.hierarchyLevel == ParseInt(OrElse(First(a, HierarchyLevel), "1"))
    && r.riskScore == c.parseDouble(OrElse(First(a, RiskScore), "0"))
  }

  predicate RestRead(c: Codec, r: Profile, k: KeycloakUser, a: Attributes) {
    && r.contractExpiryDate == ParseDate(c, First(a, ContractExpiryDate))
    && r.dateOfBirth == ParseDate(c, First(a, DateOfBirth))
    && r.technicalExpertise == All(a, TechnicalExpertise) && r.certifications == All(a, Certifications)
    && r.keycloakId == k.id && r.username == k.username && r.email == OrElse(k.email, "")
    && r.emailVerified == (k.emailVerified == Some(true)) && r.firstName == k.firstName && r.lastName == k.lastName
    && r.enabled == k.enabled && r.state == (if k.enabled then "ACTIVE" else "INACTIVE")
  }

  lemma FieldsRead(c: Codec, k: KeycloakUser, a: Attributes)
    requires k.attributes == Some(a)
    ensures TextsRead(ToPostgres(c, k), a)
    ensures DefaultsRead(c, ToPostgres(c, k), a)
    ensures RestRead(c, ToPostgres(c, k), k, a)
  {
  }

  lemma TextComesBack(c: Codec, u: Profile, a: Attributes, key: Attr, o: Option<string>)
    requires AvoidsStandard(u) && Carries(c, u, a) && StandardValue(c, u, key) == ListOf(o)
    ensures First(a, key) == Keep(o)
  {
  }

  predicate JobTextsBack(r: Profile, u: Profile) {
    && r.department == Keep(u.department) && r.managerId == Keep(u.managerId) && r.jobTitle == Keep(u.jobTitle)
    && r.businessUnit == Keep(u.businessUnit) && r.territorialJurisdiction == Keep(u.territorialJurisdiction)
  }

  predicate PersonTextsBack(r: Profile, u: Profile) {
    && r.workLocation == Keep(u.workLocation) && r.phoneNumber == Keep(u.phoneNumber)
    && r.nationality == Keep(u.nationality) && r.gender == Keep(u.gender)
  }

  lemma JobTextsComeBack(c: Codec, u: Profile, r: Profile, a: Attributes)
    requires AvoidsStandard(u) && Carries(c, u, a) && TextsRead(r, a)
    ensures JobTextsBack(r, u)
  {
    TextComesBack(c, u, a, Department, u.department);
    TextComesBack(c, u, a, ManagerId, u.managerId);
    TextComesBack(c, u, a, JobTitle, u.jobTitle);
    TextComesBack(c, u, a, BusinessUnit, u.businessUnit);
    TextComesBack(c, u, a, TerritorialJurisdiction, u.territorialJurisdiction);
  }

  lemma PersonTextsComeBack(c: Codec, u: Profile, r: Profile, a: Attributes)
    requires AvoidsStandard(u) && Carries(c, u, a) && TextsRead(r, a)
    ensures PersonTextsBack(r, u)
  {
    TextComesBack(c, u, a, WorkLocation, u.workLocation);
    TextComesBack(c, u, a, PhoneNumber, u.phoneNumber);
    TextComesBack(c, u, a, Nationality, u.nationality);
    TextComesBack(c, u, a, Gender, u.gender);
  }

  lemma LevelComesBack(c: Codec, u: Profile, a: Attributes, key: Attr, n: Number)
    requires AvoidsStandard(u) && Carries(c, u, a) && StandardValue(c, u, key) == ListOfLevel(n)
    ensures ParseInt(OrElse(First(a, key), "1")) == if NormalLevel(n) then n else Num(1)
  {
    LevelBack(n);
  }

  lemma RiskComesBack(c: Codec, u: Profile, a: Attributes)
    requires Lawful(c, u) && AvoidsStandard(u) && Carries(c, u, a)
    ensures c.parseDouble(OrElse(First(a, RiskScore), "0")) == if u.riskScore.Some? then u.riskScore else Some(c.zero)
  {
    if u.riskScore.Some? && u.riskScore.value != c.zero {
      assert DoubleLaw(c, u.riskScore.value);
    }
  }

  lemma OrElseComesBack(c: Codec, u: Profile, a: Attributes, key: Attr, text: string, default: string)
    requires AvoidsStandard(u) && Carries(c, u, a) && StandardValue(c, u, key) == ListOf(Some(text))
    ensures OrElse(First(a, key), default) == if text == "" then default else text
  {
    TextComesBack(c, u, a, key, Some(text));
  }

  lemma KindsComeBack(c: Codec, u: Profile, r: Profile, a: Attributes)
    requires AvoidsStandard(u) && Carries(c, u, a) && DefaultsRead(c, r, a)
    ensures r.employmentType == if u.employmentType == "" then "PERMANENT" else u.employmentType
    ensures r.verificationStatus == if u.verificationStatus == "" then "PENDING" else u.verificationStatus
  {
    OrElseComesBack(c, u, a, EmploymentType, u.employmentType, "PERMANENT");
    OrElseComesBack(c, u, a, VerificationStatus, u.verificationStatus, "PENDING");
  }

  lemma LevelsComeBack(c: Codec, u: Profile, r: Profile, a: Attributes)
    requires AvoidsStandard(u) && Carries(c, u, a) && DefaultsRead(c, r, a)
    ensures r.clearanceLevel == if NormalLevel(u.clearanceLevel) then u.clearanceLevel else Num(1)
    ensures r.hierarchyLevel == if NormalLevel(u.hierarchyLevel) then u.hierarchyLevel else Num(1)
  {
    LevelComesBack(c, u, a, ClearanceLevel, u.clearanceLevel);
    LevelComesBack(c, u, a, HierarchyLevel, u.hierarchyLevel);
  }

  lemma DefaultsComeBack(c: Codec, u: Profile, r: Profile, a: Attributes)
    requires Lawful(c, u) && AvoidsStandard(u) && Carries(c, u, a) && DefaultsRead(c, r, a)
    ensures DefaultsBack(c, r, u)
  {
    KindsComeBack(c, u, r, a);
    LevelsComeBack(c, u, r, a);
    RiskComesBack(c, u, a);
  }

  lemma DateComesBack(c: Codec, u: Profile, a: Attributes, key: Attr, d: Option<int>)
    requires AvoidsStandard(u) && Carries(c, u, a) && StandardValue(c, u, key) == ListOfDate(c, d)
    requires d.Some? ==> DateLaw(c, d.value)
    ensures ParseDate(c, First(a, key)) == d
  {
    assert Override(u, key).None?;
    assert First(a, key) == FirstOf(ListOfDate(c, d));
  }

  lemma ListsComeBack(c: Codec, u: Profile, a: Attributes)
    requires AvoidsStandard(u) && Carries(c, u, a)
    ensures All(a, TechnicalExpertise) == u.technicalExpertise && All(a, Certifications) == u.certifications
  {
  }

  lemma RestComesBack(c: Codec, u: Profile, r: Profile, k: KeycloakUser, a: Attributes)
    requires Lawful(c, u) && AvoidsStandard(u) && Carries(c, u, a) && RestRead(c, r, k, a)
    requires k == KeycloakUser(u.keycloakId, u.username, Some(u.email), Some(u.emailVerified),
                               u.firstName, u.lastName, u.enabled, Some(a))
    ensures RestBack(r, u)
  {
    DateComesBack(c, u, a, ContractExpiryDate, u.contractExpiryDate);
    DateComesBack(c, u, a, DateOfBirth, u.dateOfBirth);
    ListsComeBack(c, u, a);
  }

  lemma CustomComesBack(c: Codec, u: Profile)
    ensures RoundTrip(c, u).customAttributes == Extract(Expand(u.customAttributes))
  {
  }

  lemma NormalFromParts(c: Codec, r: Profile, u: Profile)
    requires JobTextsBack(r, u) && PersonTextsBack(r, u) && DefaultsBack(c, r, u) && RestBack(r, u)
    requires r.customAttributes == u.customAttributes <==> NormalCustom(u.customAttributes)
    ensures r == u <==> Normal(u)
  {
  }

  // ---------------------------------------------------------------- key by key, for every profile

  /** What is read from the values of a standard key. */
  datatype Reading =
    | OneText(text: Option<string>) | Texted(kind: string) | Listed(items: seq<string>)
    | Levelled(level: Number) | Dated(date: Option<int>) | Weighed(risk: Option<Double>)

  function Read(c: Codec, key: Attr, values: seq<string>): Reading {
    match key
    case TechnicalExpertise => Listed(values)
    case Certifications => Listed(values)
    case ClearanceLevel => Levelled(ParseInt(OrElse(FirstOf(values), "1")))
    case HierarchyLevel => Levelled(ParseInt(OrElse(FirstOf(values), "1")))
    case ContractExpiryDate => Dated(ParseDate(c, FirstOf(values)))
    case DateOfBirth => Dated(ParseDate(c, FirstOf(values)))
    case EmploymentType => Texted(OrElse(FirstOf(values), "PERMANENT"))
    case VerificationStatus => Texted(OrElse(FirstOf(values), "PENDING"))
    case RiskScore => Weighed(c.parseDouble(OrElse(FirstOf(values), "0")))
    case _ => OneText(FirstOf(values))
  }

  /** The field of a profile that a standard key stands for. */
  function FieldAt(u: Profile, key: Attr): Reading {
    match key
    case Department => OneText(u.department)
    case ClearanceLevel => Levelled(u.clearanceLevel)
    case ContractExpiryDate => Dated(u.contractExpiryDate)
    case ManagerId => OneText(u.managerId)
    case JobTitle => OneText(u.jobTitle)
    case BusinessUnit => OneText(u.businessUnit)
    case TerritorialJurisdiction => OneText(u.territorialJurisdiction)
    case TechnicalExpertise => Listed(u.technicalExpertise)
    case HierarchyLevel => Levelled(u.hierarchyLevel)
    case WorkLocation => OneText(u.workLocation)
    case EmploymentType => Texted(u.employmentType)
    case VerificationStatus => Texted(u.verificationStatus)
    case RiskScore => Weighed(u.riskScore)
    case Certifications => Listed(u.certifications)
    case PhoneNumber => OneText(u.phoneNumber)
    case Nationality => OneText(u.nationality)
    case DateOfBirth => Dated(u.dateOfBirth)
    case Gender => OneText(u.gender)
  }

  /** The fields that do not travel as attributes. */
  predicate SameAccount(a: Profile, b: Profile) {
    && a.keycloakId == b.keycloakId && a.username == b.username && a.email == b.email
    && a.emailVerified == b.emailVerified && a.firstName == b.firstName && a.lastName == b.lastName
    && a.enabled == b.enabled && a.state == b.state
  }

  lemma FieldsTell(a: Profile, b: Profile)
    ensures a == b <==>
      SameAccount(a, b) && a.customAttributes == b.customAttributes && forall key :: FieldAt(a, key) == FieldAt(b, key)
  {
    if SameAccount(a, b) && a.customAttributes == b.customAttributes && forall key :: FieldAt(a, key) == FieldAt(b, key) {
      JobFieldsTell(a, b);
      PersonFieldsTell(a, b);
      NumberFieldsTell(a, b);
    }
  }

  lemma JobFieldsTell(a: Profile, b: Profile)
    requires forall key :: FieldAt(a, key) == FieldAt(b, key)
    ensures a.department == b.department && a.managerId == b.managerId && a.jobTitle == b.jobTitle
    ensures a.businessUnit == b.businessUnit && a.territorialJurisdiction == b.territorialJurisdiction
    ensures a.workLocation == b.workLocation
  {
    assert FieldAt(a, Department) == FieldAt(b, Department) && FieldAt(a, ManagerId) == FieldAt(b, ManagerId);
    assert FieldAt(a, JobTitle) == FieldAt(b, JobTitle) && FieldAt(a, BusinessUnit) == FieldAt(b, BusinessUnit);
    assert FieldAt(a, TerritorialJurisdiction) == FieldAt(b, TerritorialJurisdiction);
    assert FieldAt(a, WorkLocation) == FieldAt(b, WorkLocation);
  }

  lemma PersonFieldsTell(a: Profile, b: Profile)
    requires forall key :: FieldAt(a, key) == FieldAt(b, key)
    ensures a.phoneNumber == b.phoneNumber && a.nationality == b.nationality && a.gender == b.gender
    ensures a.employmentType == b.employmentType && a.verificationStatus == b.verificationStatus
    ensures a.dateOfBirth == b.dateOfBirth
  {
    assert FieldAt(a, PhoneNumber) == FieldAt(b, PhoneNumber) && FieldAt(a, Nationality) == FieldAt(b, Nationality);
    assert FieldAt(a, Gender) == FieldAt(b, Gender) && FieldAt(a, DateOfBirth) == FieldAt(b, DateOfBirth);
    assert FieldAt(a, EmploymentType) == FieldAt(b, EmploymentType);
    assert FieldAt(a, VerificationStatus) == FieldAt(b, VerificationStatus);
  }

  lemma NumberFieldsTell(a: Profile, b: Profile)
    requires forall key :: FieldAt(a, key) == FieldAt(b, key)
    ensures a.clearanceLevel == b.clearanceLevel && a.hierarchyLevel == b.hierarchyLevel
    ensures a.contractExpiryDate == b.contractExpiryDate && a.riskScore == b.riskScore
    ensures a.technicalExpertise == b.technicalExpertise && a.certifications == b.certifications
  {
    assert FieldAt(a, ClearanceLevel) == FieldAt(b, ClearanceLevel);
    assert FieldAt(a, HierarchyLevel) == FieldAt(b, HierarchyLevel);
    assert FieldAt(a, ContractExpiryDate) == FieldAt(b, ContractExpiryDate) && FieldAt(a, RiskScore) == FieldAt(b, RiskScore);
    assert FieldAt(a, TechnicalExpertise) == FieldAt(b, TechnicalExpertise);
    assert FieldAt(a, Certifications) == FieldAt(b, Certifications);
  }

  lemma SentIsFound(c: Codec, u: Profile, key: Attr)
    ensures
      var a := ToKeycloak(c, u).attributes;
      a.Some? && First(a.value, key) == FirstOf(Sent(c, u, key)) && All(a.value, key) == Sent(c, u, key)
  {
    SentIsCarried(c, u);
  }

  lemma FieldOfAttributes(c: Codec, k: KeycloakUser, key: Attr, values: seq<string>)
    requires k.attributes.Some?
    requires First(k.attributes.value, key) == FirstOf(values) && All(k.attributes.value, key) == values
    ensures FieldAt(ToPostgres(c, k), key) == Read(c, key, values)
  {
  }

  /** A round trip reads, for every standard key, what was sent for it. */
  lemma FieldIsRead(c: Codec, u: Profile, key: Attr)
    ensures FieldAt(RoundTrip(c, u), key) == Read(c, key, Sent(c, u, key))
  {
    SentIsFound(c, u, key);
    FieldOfAttributes(c, ToKeycloak(c, u), key, Sent(c, u, key));
  }

  lemma AccountIsKept(c: Codec, u: Profile)
    ensures SameAccount(RoundTrip(c, u), u.(state := if u.enabled then "ACTIVE" else "INACTIVE"))
  {
  }

  /** Two profiles of one account look alike to Keycloak exactly if they read alike key by key. */
  lemma LookAlike(c: Codec, u: Profile, v: Profile)
    requires SameAccount(u.(firstName := v.firstName, lastName := v.lastName, state := v.state), v)
    ensures RoundTrip(c, u) == RoundTrip(c, v) <==>
      && u.firstName == v.firstName && u.lastName == v.lastName
      && Extract(Expand(u.customAttributes)) == Extract(Expand(v.customAttributes))
      && forall key :: Read(c, key, Sent(c, u, key)) == Read(c, key, Sent(c, v, key))
  {
    var r, e := RoundTrip(c, u), RoundTrip(c, v);
    FieldsTell(r, e);
    AccountIsKept(c, u);
    AccountIsKept(c, v);
    CustomComesBack(c, u);
    CustomComesBack(c, v);
    forall key
      ensures FieldAt(r, key) == Read(c, key, Sent(c, u, key)) && FieldAt(e, key) == Read(c, key, Sent(c, v, key))
    {
      FieldIsRead(c, u, key);
      FieldIsRead(c, v, key);
    }
  }

  /** Field by field, what a round trip makes of a profile whose custom keys avoid the standard ones. */
  lemma RoundTripParts(c: Codec, u: Profile)
    requires Lawful(c, u) && AvoidsStandard(u)
    ensures
      var r := RoundTrip(c, u);
      && JobTextsBack(r, u) && PersonTextsBack(r, u) && DefaultsBack(c, r, u) && RestBack(r, u)
      && r.customAttributes == Extract(Expand(u.customAttributes))
  {
    var k := ToKeycloak(c, u);
    SentIsCarried(c, u);
    CustomComesBack(c, u);
    var a, r := k.attributes.value, RoundTrip(c, u);
    FieldsRead(c, k, a);
    JobTextsComeBack(c, u, r, a);
    PersonTextsComeBack(c, u, r, a);
    DefaultsComeBack(c, u, r, a);
    RestComesBack(c, u, r, k, a);
  }

  /** A round trip gives a profile back unchanged exactly when the profile is in normal form. */
  lemma RoundTripIffNormal(c: Codec, u: Profile)
    requires Lawful(c, u)
    ensures RoundTrip(c, u) == u <==> Normal(u)
  {
    CustomComesBack(c, u);
    ExtractExpand(u.customAttributes);
    if AvoidsStandard(u) {
      RoundTripParts(c, u);
      NormalFromParts(c, RoundTrip(c, u), u);
    }
  }

  // ---------------------------------------------------------------- idempotence

  predicate CleanText(o: Option<seq<string>>) {
    o.Some? && |o.value| > 0 ==> o.value[0] != ""
  }

  predicate CleanLevel(o: Option<seq<string>>) {
    o.Some? ==> NormalLevel(ParseInt(OrElse(FirstOf(o.value), "1")))
  }

  predicate CleanDouble(c: Codec, o: Option<seq<string>>) {
    o.Some? ==> c.parseDouble(OrElse(FirstOf(o.value), "0")).Some?
  }

  /** Whatever custom attributes override a standard key, they put a usable value there. */
  predicate CleanOverrides(c: Codec, u: Profile) {
    && CleanTexts(u)
    && CleanLevel(Override(u, ClearanceLevel)) && CleanLevel(Override(u, HierarchyLevel))
    && CleanDouble(c, Override(u, RiskScore))
  }

  lemma CustomComesBackNormal(c: Codec, u: Profile)
    ensures NormalCustom(RoundTrip(c, u).customAttributes)
  {
    var custom := RoundTrip(c, u).customAttributes;
    if custom.Some? {
      var a := ToKeycloak(c, u).attributes.value;
      assert custom.value.other.Keys == a.other.Keys;
      assert custom.value.other != map[];
    }
  }

  predicate CleanTexts(u: Profile) {
    && CleanText(Override(u, Department)) && CleanText(Override(u, ManagerId)) && CleanText(Override(u, JobTitle))
    && CleanText(Override(u, BusinessUnit)) && CleanText(Override(u, TerritorialJurisdiction))
    && CleanText(Override(u, WorkLocation)) && CleanText(Override(u, PhoneNumber))
    && CleanText(Override(u, Nationality)) && CleanText(Override(u, Gender))
  }

  lemma TextComesBackNormal(c: Codec, u: Profile, a: Attributes, key: Attr, o: Option<string>)
    requires Carries(c, u, a) && StandardValue(c, u, key) == ListOf(o)
    ensures NormalText(First(a, key)) <==> CleanText(Override(u, key))
  {
  }

  lemma JobTextsComeBackNormal(c: Codec, u: Profile, r: Profile, a: Attributes)
    requires Carries(c, u, a) && TextsRead(r, a)
    ensures NormalText(r.department) <==> CleanText(Override(u, Department))
    ensures NormalText(r.managerId) <==> CleanText(Override(u, ManagerId))
    ensures NormalText(r.jobTitle) <==> CleanText(Override(u, JobTitle))
    ensures NormalText(r.businessUnit) <==> CleanText(Override(u, BusinessUnit))
    ensures NormalText(r.territorialJurisdiction) <==> CleanText(Override(u, TerritorialJurisdiction))
  {
    TextComesBackNormal(c, u, a, Department, u.department);
    TextComesBackNormal(c, u, a, ManagerId, u.managerId);
    TextComesBackNormal(c, u, a, JobTitle, u.jobTitle);
    TextComesBackNormal(c, u, a, BusinessUnit, u.businessUnit);
    TextComesBackNormal(c, u, a, TerritorialJurisdiction, u.territorialJurisdiction);
  }

  lemma PersonTextsComeBackNormal(c: Codec, u: Profile, r: Profile, a: Attributes)
    requires Carries(c, u, a) && TextsRead(r, a)
    ensures NormalText(r.workLocation) <==> CleanText(Override(u, WorkLocation))
    ensures NormalText(r.phoneNumber) <==> CleanText(Override(u, PhoneNumber))
  {
    TextComesBackNormal(c, u, a, WorkLocation, u.workLocation);
    TextComesBackNormal(c, u, a, PhoneNumber, u.phoneNumber);
  }

  lemma OriginTextsComeBackNormal(c: Codec, u: Profile, r: Profile, a: Attributes)
    requires Carries(c, u, a) && TextsRead(r, a)
    ensures NormalText(r.nationality) <==> CleanText(Override(u, Nationality))
    ensures NormalText(r.gender) <==> CleanText(Override(u, Gender))
  {
    TextComesBackNormal(c, u, a, Nationality, u.nationality);
    TextComesBackNormal(c, u, a, Gender, u.gender);
  }

  lemma NumbersComeBackNormal(c: Codec, u: Profile, r: Profile, a: Attributes)
    requires Lawful(c, u) && Carries(c, u, a) && DefaultsRead(c, r, a)
    ensures NormalLevel(r.clearanceLevel) <==> CleanLevel(Override(u, ClearanceLevel))
    ensures NormalLevel(r.hierarchyLevel) <==> CleanLevel(Override(u, HierarchyLevel))
    ensures r.riskScore.Some? <==> CleanDouble(c, Override(u, RiskScore))
    ensures r.employmentType != "" && r.verificationStatus != ""
  {
    LevelComesBackNormal(c, u, a, ClearanceLevel, u.clearanceLevel);
    LevelComesBackNormal(c, u, a, HierarchyLevel, u.hierarchyLevel);
    RiskComesBackNormal(c, u, a);
  }

  lemma LevelComesBackNormal(c: Codec, u: Profile, a: Attributes, key: Attr, n: Number)
    requires Carries(c, u, a) && StandardValue(c, u, key) == ListOfLevel(n)
    ensures NormalLevel(ParseInt(OrElse(First(a, key), "1"))) <==> CleanLevel(Override(u, key))
  {
    LevelBack(n);
  }

  lemma RiskComesBackNormal(c: Codec, u: Profile, a: Attributes)
    requires Lawful(c, u) && Carries(c, u, a)
    ensures c.parseDouble(OrElse(First(a, RiskScore), "0")).Some? <==> CleanDouble(c, Override(u, RiskScore))
  {
    if u.riskScore.Some? && u.riskScore.value != c.zero {
      assert DoubleLaw(c, u.riskScore.value);
    }
  }

  lemma NormalIffClean(c: Codec, u: Profile, r: Profile, k: KeycloakUser, a: Attributes)
    requires Lawful(c, u) && Carries(c, u, a)
    requires TextsRead(r, a) && DefaultsRead(c, r, a) && NormalCustom(r.customAttributes)
    requires r.state == if r.enabled then "ACTIVE" else "INACTIVE"
    ensures Normal(r) <==> CleanOverrides(c, u)
  {
    JobTextsComeBackNormal(c, u, r, a);
    PersonTextsComeBackNormal(c, u, r, a);
    OriginTextsComeBackNormal(c, u, r, a);
    NumbersComeBackNormal(c, u, r, a);
  }

  lemma NormalAfterRoundTrip(c: Codec, u: Profile)
    requires Lawful(c, u)
    ensures Normal(RoundTrip(c, u)) <==> CleanOverrides(c, u)
  {
    var k := ToKeycloak(c, u);
    SentIsCarried(c, u);
    FieldsRead(c, k, k.attributes.value);
    CustomComesBackNormal(c, u);
    NormalIffClean(c, u, RoundTrip(c, u), k, k.attributes.value);
  }

  lemma DateIsRead(c: Codec, key: Attr, d: Option<int>)
    requires (key.ContractExpiryDate? || key.DateOfBirth?) && (d.Some? ==> DateLaw(c, d.value))
    ensures Read(c, key, ListOfDate(c, d)) == Dated(d)
  {
  }

  lemma RiskIsRead(c: Codec, x: Option<Double>)
    requires c.parseDouble("0") == Some(c.zero) && (x.Some? && x.value != c.zero ==> DoubleLaw(c, x.value))
    ensures Read(c, RiskScore, ListOfDouble(c, x)) == Weighed(if x.Some? then x else Some(c.zero))
  {
  }

  /** A profile that has the dates and the risk of a lawful one is lawful. */
  lemma LawfulAlike(c: Codec, u: Profile, r: Profile)
    requires Lawful(c, u)
    requires FieldAt(r, ContractExpiryDate) == Dated(u.contractExpiryDate) && FieldAt(r, DateOfBirth) == Dated(u.dateOfBirth)
    requires FieldAt(r, RiskScore) == Weighed(if u.riskScore.Some? then u.riskScore else Some(c.zero))
    ensures Lawful(c, r)
  {
  }

  /** A profile reads, for each standard key, what was sent for another one. */
  ghost predicate ReadsFrom(c: Codec, u: Profile, r: Profile) {
    forall key :: FieldAt(r, key) == Read(c, key, Sent(c, u, key))
  }

  lemma RoundTripReads(c: Codec, u: Profile)
    ensures ReadsFrom(c, u, RoundTrip(c, u))
  {
    forall key
      ensures FieldAt(RoundTrip(c, u), key) == Read(c, key, Sent(c, u, key))
    {
      FieldIsRead(c, u, key);
    }
  }

  lemma PlainDateStays(c: Codec, u: Profile, r: Profile, key: Attr, d: Option<int>)
    requires ReadsFrom(c, u, r) && Override(u, key).None? && (key.ContractExpiryDate? || key.DateOfBirth?)
    requires StandardValue(c, u, key) == ListOfDate(c, d) && (d.Some? ==> DateLaw(c, d.value))
    ensures FieldAt(r, key) == Dated(d)
  {
    DateIsRead(c, key, d);
  }

  lemma PlainRiskStays(c: Codec, u: Profile, r: Profile)
    requires ReadsFrom(c, u, r) && Override(u, RiskScore).None? && Lawful(c, u)
    ensures FieldAt(r, RiskScore) == Weighed(if u.riskScore.Some? then u.riskScore else Some(c.zero))
  {
    RiskIsRead(c, u.riskScore);
    assert Sent(c, u, RiskScore) == ListOfDouble(c, u.riskScore);
  }

  lemma LawfulRead(c: Codec, u: Profile, r: Profile)
    requires Lawful(c, u) && ReadsFrom(c, u, r)
    requires Override(u, ContractExpiryDate).None? && Override(u, DateOfBirth).None? && Override(u, RiskScore).None?
    ensures Lawful(c, r)
  {
    PlainDateStays(c, u, r, ContractExpiryDate, u.contractExpiryDate);
    PlainDateStays(c, u, r, DateOfBirth, u.dateOfBirth);
    PlainRiskStays(c, u, r);
    LawfulAlike(c, u, r);
  }

  /** The conversions are as good for what comes back, where no custom value overrides a date or the risk. */
  lemma LawfulStays(c: Codec, u: Profile)
    requires Lawful(c, u)
    requires Override(u, ContractExpiryDate).None? && Override(u, DateOfBirth).None? && Override(u, RiskScore).None?
    ensures Lawful(c, RoundTrip(c, u))
  {
    RoundTripReads(c, u);
    LawfulRead(c, u, RoundTrip(c, u));
  }

  /**
   A second round trip changes nothing exactly when the custom attributes put no unusable value on
   a standard key; in particular whenever the custom keys avoid the standard ones.
   */
  lemma IdempotentIffClean(c: Codec, u: Profile)
    requires Lawful(c, u) && Lawful(c, RoundTrip(c, u))
    ensures RoundTrip(c, RoundTrip(c, u)) == RoundTrip(c, u) <==> CleanOverrides(c, u)
  {
    var r := RoundTrip(c, u);
    assert RoundTrip(c, r) == r <==> Normal(r) by { RoundTripIffNormal(c, r); }
    assert Normal(r) <==> CleanOverrides(c, u) by { NormalAfterRoundTrip(c, u); }
  }

  lemma AvoidingIsClean(c: Codec, u: Profile)
    requires AvoidsStandard(u)
    ensures CleanOverrides(c, u)
  {
  }

  lemma ZeroIsUnclean(o: Option<seq<string>>)
    requires o == Some(["0"])
    ensures !CleanLevel(o)
  {
    assert Print(0) == "0" && PrintNat(0) == "0";
    ParsePrint(0);
  }

  /** An overriding "0" for a level is read as zero, then written as nothing and read as one. */
  lemma OverrideBreaksIdempotence(c: Codec, u: Profile)
    requires Lawful(c, u)
    requires u.customAttributes == Some(Keyed(map[ClearanceLevel := One(Text("0"))], map[]))
    ensures RoundTrip(c, RoundTrip(c, u)) != RoundTrip(c, u)
  {
    assert Override(u, ClearanceLevel) == Some(["0"]);
    ZeroIsUnclean(Override(u, ClearanceLevel));
    LawfulStays(c, u);
    IdempotentIffClean(c, u);
  }

  function ReadDate(s: string): Option<int> {
    match ParseInt(s) case NaN => None case Num(n) => Some(n)
  }

  function ReadDouble(s: string): Option<Double> {
    match ParseInt(s) case NaN => None case Num(n) => Some(Double(n))
  }

  function PrintDouble(x: Double): string { Print(x.code) }

  function DecimalCodec(): Codec {
    Codec(d => Print(d), s => ReadDate(s), (x: Double) => PrintDouble(x), s => ReadDouble(s), Double(0))
  }

  lemma PrintIsNotEmpty(n: int)
    ensures Print(n) != "" && ReadDate(Print(n)) == Some(n)
  {
    ParsePrint(n);
  }

  lemma ZeroIsRead()
    ensures ReadDouble("0") == Some(Double(0))
  {
    assert Print(0) == "0" && PrintNat(0) == "0";
    ParsePrint(0);
  }

  /** The laws can be met, even for all profiles at once. */
  lemma SomeCodecIsLawful(u: Profile)
    ensures Lawful(DecimalCodec(), u)
  {
    if u.contractExpiryDate.Some? { PrintIsNotEmpty(u.contractExpiryDate.value); }
    if u.dateOfBirth.Some? { PrintIsNotEmpty(u.dateOfBirth.value); }
    if u.riskScore.Some? { PrintIsNotEmpty(u.riskScore.value.code); }
    ZeroIsRead();
  }
}
