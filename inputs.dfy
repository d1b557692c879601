/** The applicant record that one profile's form edits, its defaults, and the
    single-field update the form performs on it. */
module Inputs {

  datatype Option<T> = None | Some(value: T)

  /** Education levels offered by the form. Any other key reaches the tables as
      `UnlistedEducation`; every table scores it like a missing entry. */
  datatype Education =
    | NoEducation | Secondary | OneYear | TwoYear | Bachelors | TwoOrMore | Masters | Phd
    | UnlistedEducation(key: EducationKey)

  /** The eight education keys of the tables. */
  predicate ListedEducationKey(k: string) {
    k in {"none", "secondary", "oneyear", "twoyear", "bachelors", "twoormore", "masters", "phd"}
  }

  /** A key that is none of the eight education keys. */
  type EducationKey = k: string | !ListedEducationKey(k)

  /** The French-language bonus tier ('none', 'high-french-low-english',
      'high-french-high-english'); any other key matches neither comparison. */
  datatype FrenchTier =
    | NoFrench | HighFrenchLowEnglish | HighFrenchHighEnglish
    | UnlistedFrench(key: FrenchKey)

  /** The three French-tier keys. */
  predicate ListedFrenchKey(k: string) {
    k in {"none", "high-french-low-english", "high-french-high-english"}
  }

  /** A key other than the three French-tier keys. */
  type FrenchKey = k: string | !ListedFrenchKey(k)

  /** The Canadian post-secondary credential tier ('none', 'one-or-two-years',
      'three-years-or-more'). */
  datatype CanadianCredential =
    | NoCredential | OneOrTwoYears | ThreeYearsOrMore
    | UnlistedCredential(key: CredentialKey)

  /** The three credential keys. */
  predicate ListedCredentialKey(k: string) {
    k in {"none", "one-or-two-years", "three-years-or-more"}
  }

  /** A key other than the three credential keys. */
  type CredentialKey = k: string | !ListedCredentialKey(k)

  /** CLB levels of the four abilities of one language. */
  datatype Language = Language(speaking: int, listening: int, reading: int, writing: int)

  datatype ApplicantInputs = ApplicantInputs(
    hasSpouse: bool,
    age: int,
    educationLevel: Education,
    firstLanguage: Language,
    secondLanguage: Language,
    canadianWorkExperience: int,
    foreignWorkExperience: int,
    certificateOfQualification: bool,
    spouseEducationLevel: Education,
    spouseLanguage: Language,
    spouseCanadianWorkExperience: int,
    hasSiblingInCanada: bool,
    frenchLanguage: FrenchTier,
    canadianEducation: CanadianCredential,
    provincialNomination: bool)

  /** Every ability has an entry (0..10) in the per-ability language tables. */
  predicate InTable(l: Language) {
    0 <= l.speaking <= 10 && 0 <= l.listening <= 10 &&
    0 <= l.reading <= 10 && 0 <= l.writing <= 10
  }

  /** The first and second language lookups have no fallback for a missing level,
      so a record can be scored only when both languages are in the table. */
  predicate WellFormed(inputs: ApplicantInputs) {
    InTable(inputs.firstLanguage) && InTable(inputs.secondLanguage)
  }

  /** The lowest of the four ability levels (`Math.min` of the four). */
  function MinLevel(l: Language): (m: int)
    ensures m <= l.speaking && m <= l.listening && m <= l.reading && m <= l.writing
    ensures m == l.speaking || m == l.listening || m == l.reading || m == l.writing
  {
    var a := if l.speaking <= l.listening then l.speaking else l.listening;
    var b := if l.reading <= l.writing then l.reading else l.writing;
    if a <= b then a else b
  }

  /** The record a new profile starts with. */
  function DefaultInputs(): (inputs: ApplicantInputs)
    ensures WellFormed(inputs)
    ensures MinLevel(inputs.firstLanguage) == 10
  {
    ApplicantInputs(
      hasSpouse := false,
      age := 30,
      educationLevel := Bachelors,
      firstLanguage := Language(10, 10, 10, 10),
      secondLanguage := Language(0, 0, 0, 0),
      canadianWorkExperience := 0,
      foreignWorkExperience := 0,
      certificateOfQualification := false,
      spouseEducationLevel := NoEducation,
      spouseLanguage := Language(0, 0, 0, 0),
      spouseCanadianWorkExperience := 0,
      hasSiblingInCanada := false,
      frenchLanguage := NoFrench,
      canadianEducation := NoCredential,
      provincialNomination := false)
  }

  // ---------------------------------------------------------------------------
  // Field update: a category name and a value. A plain value replaces the field;
  // an object value is spread over the language record it names.

  datatype Field =
    | HasSpouse | Age | EducationLevel | FirstLanguage | SecondLanguage
    | CanadianWorkExperience | ForeignWorkExperience | CertificateOfQualification
    | SpouseEducationLevel | SpouseLanguage | SpouseCanadianWorkExperience
    | HasSiblingInCanada | FrenchLanguage | CanadianEducation | ProvincialNomination

  datatype FieldValue =
    | BoolValue(b: bool)
    | IntValue(n: int)
    | EducationValue(e: Education)
    | LanguageValue(l: Language)
    | FrenchValue(f: FrenchTier)
    | CredentialValue(c: CanadianCredential)

  datatype Kind = BoolKind | IntKind | EducationKind | LanguageKind | FrenchKind | CredentialKind

  /** An object value: only the abilities it carries are overwritten. */
  datatype LanguagePatch = LanguagePatch(
    speaking: Option<int>, listening: Option<int>, reading: Option<int>, writing: Option<int>)

  datatype FieldUpdate =
    | Assign(field: Field, value: FieldValue)
    | MergeLanguage(field: Field, patch: LanguagePatch)

  function FieldKind(f: Field): Kind {
    match f
    case HasSpouse | CertificateOfQualification | HasSiblingInCanada | ProvincialNomination => BoolKind
    case Age | CanadianWorkExperience | ForeignWorkExperience | SpouseCanadianWorkExperience => IntKind
    case EducationLevel | SpouseEducationLevel => EducationKind
    case FirstLanguage | SecondLanguage | SpouseLanguage => LanguageKind
    case FrenchLanguage => FrenchKind
    case CanadianEducation => CredentialKind
  }

  function ValueKind(v: FieldValue): Kind {
    match v
    case BoolValue(_) => BoolKind
    case IntValue(_) => IntKind
    case EducationValue(_) => EducationKind
    case LanguageValue(_) => LanguageKind
    case FrenchValue(_) => FrenchKind
    case CredentialValue(_) => CredentialKind
  }

  /** The updates the form sends: a plain value of the field's own kind, or an
      object value for one of the three language records. */
  predicate WellTyped(u: FieldUpdate) {
    match u
    case Assign(f, v) => FieldKind(f) != LanguageKind && ValueKind(v) == FieldKind(f)
    case MergeLanguage(f, _) => FieldKind(f) == LanguageKind
  }

  /** The value a record holds in one field. */
  function Get(inputs: ApplicantInputs, f: Field): (v: FieldValue)
    ensures ValueKind(v) == FieldKind(f)
  {
    match f
    case HasSpouse => BoolValue(inputs.hasSpouse)
    case Age => IntValue(inputs.age)
    case EducationLevel => EducationValue(inputs.educationLevel)
    case FirstLanguage => LanguageValue(inputs.firstLanguage)
    case SecondLanguage => LanguageValue(inputs.secondLanguage)
    case CanadianWorkExperience => IntValue(inputs.canadianWorkExperience)
    case ForeignWorkExperience => IntValue(inputs.foreignWorkExperience)
    case CertificateOfQualification => BoolValue(inputs.certificateOfQualification)
    case SpouseEducationLevel => EducationValue(inputs.spouseEducationLevel)
    case SpouseLanguage => LanguageValue(inputs.spouseLanguage)
    case SpouseCanadianWorkExperience => IntValue(inputs.spouseCanadianWorkExperience)
    case HasSiblingInCanada => BoolValue(inputs.hasSiblingInCanada)
    case FrenchLanguage => FrenchValue(inputs.frenchLanguage)
    case CanadianEducation => CredentialValue(inputs.canadianEducation)
    case ProvincialNomination => BoolValue(inputs.provincialNomination)
  }

  function Pick(o: Option<int>, current: int): int {
    match o
    case Some(x) => x
    case None => current
  }

  /** `{ ...l, ...patch }`: the abilities the patch carries win. */
  function Merge(l: Language, p: LanguagePatch): (r: Language)
    ensures p.speaking.None? ==> r.speaking == l.speaking
    ensures p.listening.None? ==> r.listening == l.listening
    ensures p.reading.None? ==> r.reading == l.reading
    ensures p.writing.None? ==> r.writing == l.writing
    ensures p.speaking.Some? ==> r.speaking == p.speaking.value
    ensures p.listening.Some? ==> r.listening == p.listening.value
    ensures p.reading.Some? ==> r.reading == p.reading.value
    ensures p.writing.Some? ==> r.writing == p.writing.value
  {
    Language(Pick(p.speaking, l.speaking), Pick(p.listening, l.listening),
             Pick(p.reading, l.reading), Pick(p.writing, l.writing))
  }

  /** `{ ...inputs, [f]: v }` for a value of the field's kind. */
  function Set(inputs: ApplicantInputs, f: Field, v: FieldValue): (r: ApplicantInputs)
    requires ValueKind(v) == FieldKind(f)
    ensures Get(r, f) == v
    ensures forall g :: g != f ==> Get(r, g) == Get(inputs, g)
  {
    match f
    case HasSpouse => inputs.(hasSpouse := v.b)
    case Age => inputs.(age := v.n)
    case EducationLevel => inputs.(educationLevel := v.e)
    case FirstLanguage => inputs.(firstLanguage := v.l)
    case SecondLanguage => inputs.(secondLanguage := v.l)
    case CanadianWorkExperience => inputs.(canadianWorkExperience := v.n)
    case ForeignWorkExperience => inputs.(foreignWorkExperience := v.n)
    case CertificateOfQualification => inputs.(certificateOfQualification := v.b)
    case SpouseEducationLevel => inputs.(spouseEducationLevel := v.e)
    case SpouseLanguage => inputs.(spouseLanguage := v.l)
    case SpouseCanadianWorkExperience => inputs.(spouseCanadianWorkExperience := v.n)
    case HasSiblingInCanada => inputs.(hasSiblingInCanada := v.b)
    case FrenchLanguage => inputs.(frenchLanguage := v.f)
    case CanadianEducation => inputs.(canadianEducation := v.c)
    case ProvincialNomination => inputs.(provincialNomination := v.b)
  }

  /** The new record after one form edit: the named field is replaced, or, for an
      object value, merged; every other field keeps its value. */
  function Apply(inputs: ApplicantInputs, u: FieldUpdate): (r: ApplicantInputs)
    requires WellTyped(u)
    ensures forall f :: f != u.field ==> Get(r, f) == Get(inputs, f)
    ensures u.Assign? ==> Get(r, u.field) == u.value
    ensures u.MergeLanguage? ==>
      Get(r, u.field) == LanguageValue(Merge(Get(inputs, u.field).l, u.patch))
  {
    match u
    case Assign(f, v) => Set(inputs, f, v)
    case MergeLanguage(f, p) => Set(inputs, f, LanguageValue(Merge(Get(inputs, f).l, p)))
  }

  /** Two records that agree on every field are the same record. */
  lemma FieldsDetermineInputs(a: ApplicantInputs, b: ApplicantInputs)
    requires forall f :: Get(a, f) == Get(b, f)
    ensures a == b
  {
    assert Get(a, HasSpouse) == Get(b, HasSpouse);
    assert Get(a, Age) == Get(b, Age);
    assert Get(a, EducationLevel) == Get(b, EducationLevel);
    assert Get(a, FirstLanguage) == Get(b, FirstLanguage);
    assert Get(a, SecondLanguage) == Get(b, SecondLanguage);
    assert Get(a, CanadianWorkExperience) == Get(b, CanadianWorkExperience);
    assert Get(a, ForeignWorkExperience) == Get(b, ForeignWorkExperience);
    assert Get(a, CertificateOfQualification) == Get(b, CertificateOfQualification);
    assert Get(a, SpouseEducationLevel) == Get(b, SpouseEducationLevel);
    assert Get(a, SpouseLanguage) == Get(b, SpouseLanguage);
    assert Get(a, SpouseCanadianWorkExperience) == Get(b, SpouseCanadianWorkExperience);
    assert Get(a, HasSiblingInCanada) == Get(b, HasSiblingInCanada);
    assert Get(a, FrenchLanguage) == Get(b, FrenchLanguage);
    assert Get(a, CanadianEducation) == Get(b, CanadianEducation);
    assert Get(a, ProvincialNomination) == Get(b, ProvincialNomination);
  }

  /** Repeating an edit changes nothing more. */
  lemma ApplyIdempotent(inputs: ApplicantInputs, u: FieldUpdate)
    requires WellTyped(u)
    ensures Apply(Apply(inputs, u), u) == Apply(inputs, u)
  {
    var once := Apply(inputs, u);
    var twice := Apply(once, u);
    forall f ensures Get(twice, f) == Get(once, f) {
      if f == u.field && u.MergeLanguage? {
        var l := Get(inputs, f).l;
        assert Merge(Merge(l, u.patch), u.patch) == Merge(l, u.patch);
      }
    }
    FieldsDetermineInputs(twice, once);
  }

  /** Edits of two different fields commute. */
  lemma ApplyCommutes(inputs: ApplicantInputs, u: FieldUpdate, w: FieldUpdate)
    requires WellTyped(u) && WellTyped(w) && u.field != w.field
    ensures Apply(Apply(inputs, u), w) == Apply(Apply(inputs, w), u)
  {
    var iu, iw := Apply(inputs, u), Apply(inputs, w);
    var uw, wu := Apply(iu, w), Apply(iw, u);
    forall f ensures Get(uw, f) == Get(wu, f) {
      if f == u.field {
        assert Get(uw, f) == Get(iu, f);
        assert Get(iw, f) == Get(inputs, f);
      } else if f == w.field {
        assert Get(wu, f) == Get(iw, f);
        assert Get(iu, f) == Get(inputs, f);
      } else {
        assert Get(uw, f) == Get(iu, f) == Get(inputs, f);
        assert Get(wu, f) == Get(iw, f) == Get(inputs, f);
      }
    }
    FieldsDetermineInputs(uw, wu);
  }
}
