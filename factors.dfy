/** The three composite components: spouse factors, skill transferability and
    additional points. Each is specified by a function built from its sub-rules
    and computed by a method that accumulates into locals, as the calculator does. */
module Factors {
  import opened Inputs

  // ---------------------------------------------------------------------------
  // Spouse or common-law partner factors

  /** Points for the spouse's level of education. */
  function SpouseEducationPoints(level: Education): (r: nat)
    ensures r <= 10
    ensures level == NoEducation || level.UnlistedEducation? ==> r == 0
  {
    match level
    case NoEducation => 0
    case Secondary => 2
    case OneYear => 6
    case TwoYear => 7
    case Bachelors => 8
    case TwoOrMore => 9
    case Masters => 10
    case Phd => 10
    case UnlistedEducation(_) => 0
  }

  /** Points for one spouse language ability, by threshold on any integer level. */
  function SpouseLanguageLevelPoints(level: int): (r: nat)
    ensures level <= 4 ==> r == 0
    ensures 5 <= level <= 6 ==> r == 1
    ensures 7 <= level <= 8 ==> r == 3
    ensures level >= 9 ==> r == 5
  {
    if level <= 4 then 0
    else if level <= 6 then 1
    else if level <= 8 then 3
    else 5
  }

  function SpouseLanguagePoints(l: Language): (r: nat)
    ensures r <= 20
  {
    SpouseLanguageLevelPoints(l.speaking) + SpouseLanguageLevelPoints(l.listening) +
    SpouseLanguageLevelPoints(l.reading) + SpouseLanguageLevelPoints(l.writing)
  }

  /** Points for the spouse's Canadian work experience; more than five years scores as five. */
  function SpouseWorkExperiencePoints(years: int): (r: nat)
    ensures years <= 0 ==> r == 0
    ensures years >= 5 ==> r == 10
    ensures r <= 10
  {
    if years > 5 then SpouseWorkTier(5) else SpouseWorkTier(years)
  }

  function SpouseWorkTier(years: int): (r: nat)
    ensures r == 0 <==> years <= 0 || years > 5
    ensures years == 5 ==> r == 10
    ensures r <= 10
  {
    match years
    case 0 => 0
    case 1 => 5
    case 2 => 7
    case 3 => 8
    case 4 => 9
    case 5 => 10
    case _ => 0
  }

  /** The spouse component: nothing without a spouse, otherwise education,
      language and Canadian work experience of the spouse. */
  function SpouseFactors(inputs: ApplicantInputs): (r: nat)
    ensures !inputs.hasSpouse ==> r == 0
    ensures r <= 40
  {
    if !inputs.hasSpouse then 0
    else
      SpouseEducationPoints(inputs.spouseEducationLevel) +
      SpouseLanguagePoints(inputs.spouseLanguage) +
      SpouseWorkExperiencePoints(inputs.spouseCanadianWorkExperience)
  }

  method CalculateSpouseFactors(inputs: ApplicantInputs) returns (points: int)
    ensures points == SpouseFactors(inputs)
  {
    if !inputs.hasSpouse {
      return 0;
    }
    var educationPoints := SpouseEducationPoints(inputs.spouseEducationLevel);
    var languagePoints := 0;
    languagePoints := languagePoints + SpouseLanguageLevelPoints(inputs.spouseLanguage.speaking);
    languagePoints := languagePoints + SpouseLanguageLevelPoints(inputs.spouseLanguage.listening);
    languagePoints := languagePoints + SpouseLanguageLevelPoints(inputs.spouseLanguage.reading);
    languagePoints := languagePoints + SpouseLanguageLevelPoints(inputs.spouseLanguage.writing);
    var workExperiencePoints := if inputs.spouseCanadianWorkExperience > 5
      then SpouseWorkTier(5) else SpouseWorkTier(inputs.spouseCanadianWorkExperience);
    points := educationPoints + languagePoints + workExperiencePoints;
  }

  /** A spouse's language level never lowers the points as it rises. */
  lemma SpouseLanguageLevelMonotone(a: int, b: int)
    requires a <= b
    ensures SpouseLanguageLevelPoints(a) <= SpouseLanguageLevelPoints(b)
  {
  }

  lemma SpouseWorkExperienceClamp(years: int)
    requires years > 5
    ensures SpouseWorkExperiencePoints(years) == SpouseWorkExperiencePoints(5)
  {
  }

  /** The spouse component reaches its maximum of 40 exactly with a PhD or
      master's, every ability at CLB 9 or more and five or more Canadian years. */
  lemma SpouseFactorsMaximum(inputs: ApplicantInputs)
    ensures SpouseFactors(inputs) == 40 <==>
      inputs.hasSpouse &&
      (inputs.spouseEducationLevel == Masters || inputs.spouseEducationLevel == Phd) &&
      MinLevel(inputs.spouseLanguage) >= 9 &&
      inputs.spouseCanadianWorkExperience >= 5
  {
  }

  // ---------------------------------------------------------------------------
  // Skill transferability

  /** Levels above a two-year credential count as higher education. */
  predicate HasHigherEducation(level: Education) {
    level == Bachelors || level == TwoOrMore || level == Masters || level == Phd
  }

  /** The calculator's own 0/1 table of higher-education levels; a missing key is
      `undefined`, which is not greater than 0. */
  function HigherEducationFlag(level: Education): (r: int)
    ensures r == 0 || r == 1
  {
    match level
    case NoEducation => 0
    case Secondary => 0
    case OneYear => 0
    case TwoYear => 0
    case Bachelors => 1
    case TwoOrMore => 1
    case Masters => 1
    case Phd => 1
    case UnlistedEducation(_) => 0
  }

  /** Points for a minimum CLB level: 9 or more gives `high`, 7 or 8 gives `low`. */
  function ByLanguage(minClb: int, high: nat, low: nat): nat {
    if minClb >= 9 then high else if minClb >= 7 then low else 0
  }

  /** A. Education with strong first-language proficiency. */
  function EducationLanguagePoints(level: Education, minClb: int): (r: nat)
    ensures r == 0 || r == 25 || r == 50
    ensures r == 50 <==> HasHigherEducation(level) && minClb >= 9
    ensures r == 25 <==> HasHigherEducation(level) && 7 <= minClb < 9
  {
    if HasHigherEducation(level) then ByLanguage(minClb, 50, 25) else 0
  }

  /** B. Education with Canadian work experience. */
  function EducationCanadianPoints(level: Education, canadianYears: int): (r: nat)
    ensures r == 0 || r == 25 || r == 50
    ensures r == 50 <==> HasHigherEducation(level) && canadianYears >= 2
    ensures r == 25 <==> HasHigherEducation(level) && canadianYears == 1
  {
    if !HasHigherEducation(level) then 0
    else if canadianYears >= 2 then 50
    else if canadianYears >= 1 then 25
    else 0
  }

  /** C. Foreign work experience with strong first-language proficiency. */
  function ForeignLanguagePoints(foreignYears: int, minClb: int): (r: nat)
    ensures r == 0 || r == 12 || r == 25 || r == 50
    ensures r == 50 <==> foreignYears >= 3 && minClb >= 9
    ensures r == 25 <==> (foreignYears >= 3 && 7 <= minClb < 9) || (1 <= foreignYears < 3 && minClb >= 9)
    ensures r == 12 <==> 1 <= foreignYears < 3 && 7 <= minClb < 9
  {
    if foreignYears >= 3 then ByLanguage(minClb, 50, 25)
    else if foreignYears >= 1 then ByLanguage(minClb, 25, 12)
    else 0
  }

  /** D. Foreign work experience with Canadian work experience. */
  function ForeignCanadianPoints(foreignYears: int, canadianYears: int): (r: nat)
    ensures r == 0 || r == 12 || r == 25 || r == 50
    ensures r == 50 <==> foreignYears >= 3 && canadianYears >= 2
    ensures r == 25 <==> (foreignYears >= 3 && canadianYears == 1) || (1 <= foreignYears < 3 && canadianYears >= 2)
    ensures r == 12 <==> 1 <= foreignYears < 3 && canadianYears == 1
  {
    if foreignYears >= 3 && canadianYears >= 2 then 50
    else if foreignYears >= 3 && canadianYears >= 1 then 25
    else if foreignYears >= 1 && canadianYears >= 2 then 25
    else if foreignYears >= 1 && canadianYears >= 1 then 12
    else 0
  }

  /** E. Certificate of qualification with strong first-language proficiency. */
  function CertificatePoints(hasCertificate: bool, minClb: int): (r: nat)
    ensures r == 0 || r == 25 || r == 50
    ensures r == 50 <==> hasCertificate && minClb >= 9
    ensures r == 25 <==> hasCertificate && 7 <= minClb < 9
  {
    if hasCertificate then ByLanguage(minClb, 50, 25) else 0
  }

  function Min(a: int, b: int): int {
    if a <= b then a else b
  }

  /** The education pair A + B, capped at 50. */
  function EducationPair(inputs: ApplicantInputs): (r: nat)
    ensures var sum := EducationLanguagePoints(inputs.educationLevel, MinLevel(inputs.firstLanguage)) +
                       EducationCanadianPoints(inputs.educationLevel, inputs.canadianWorkExperience);
            r <= 50 && r <= sum && (r == sum || r == 50)
  {
    var minClb := MinLevel(inputs.firstLanguage);
    Min(EducationLanguagePoints(inputs.educationLevel, minClb) +
        EducationCanadianPoints(inputs.educationLevel, inputs.canadianWorkExperience), 50)
  }

  /** The foreign-experience pair C + D, capped at 50. */
  function ForeignPair(inputs: ApplicantInputs): (r: nat)
    ensures var sum := ForeignLanguagePoints(inputs.foreignWorkExperience, MinLevel(inputs.firstLanguage)) +
                       ForeignCanadianPoints(inputs.foreignWorkExperience, inputs.canadianWorkExperience);
            r <= 50 && r <= sum && (r == sum || r == 50)
  {
    var minClb := MinLevel(inputs.firstLanguage);
    Min(ForeignLanguagePoints(inputs.foreignWorkExperience, minClb) +
        ForeignCanadianPoints(inputs.foreignWorkExperience, inputs.canadianWorkExperience), 50)
  }

  /** The skill-transferability component: both capped pairs and the certificate
      points, capped at 100 overall. */
  function SkillTransferability(inputs: ApplicantInputs): (r: nat)
    ensures r <= 100
    ensures var sum := EducationPair(inputs) + ForeignPair(inputs) +
                       CertificatePoints(inputs.certificateOfQualification, MinLevel(inputs.firstLanguage));
            r <= sum && (r == sum || r == 100)
  {
    Min(EducationPair(inputs) + ForeignPair(inputs) +
        CertificatePoints(inputs.certificateOfQualification, MinLevel(inputs.firstLanguage)), 100)
  }

  method CalculateSkillTransferability(inputs: ApplicantInputs) returns (points: int)
    ensures points == SkillTransferability(inputs)
  {
    points := 0;

    // A. Education with good official language proficiency
    var educationLanguagePoints := 0;
    var hasHigherEducation := HigherEducationFlag(inputs.educationLevel) > 0;
    var minClb := MinLevel(inputs.firstLanguage);
    if hasHigherEducation {
      if minClb >= 9 {
        educationLanguagePoints := 50;
      } else if minClb >= 7 {
        educationLanguagePoints := 25;
      }
    }

    // B. Education with Canadian work experience
    var educationWorkExpPoints := 0;
    if hasHigherEducation {
      if inputs.canadianWorkExperience >= 2 {
        educationWorkExpPoints := 50;
      } else if inputs.canadianWorkExperience >= 1 {
        educationWorkExpPoints := 25;
      }
    }

    // C. Foreign work experience with good official language proficiency
    var foreignExpLanguagePoints := 0;
    if inputs.foreignWorkExperience >= 3 {
      if minClb >= 9 {
        foreignExpLanguagePoints := 50;
      } else if minClb >= 7 {
        foreignExpLanguagePoints := 25;
      }
    } else if inputs.foreignWorkExperience >= 1 {
      if minClb >= 9 {
        foreignExpLanguagePoints := 25;
      } else if minClb >= 7 {
        foreignExpLanguagePoints := 12;
      }
    }

    // D. Foreign work experience with Canadian work experience
    var foreignCanadianExpPoints := 0;
    var foreign, canadian := inputs.foreignWorkExperience, inputs.canadianWorkExperience;
    if foreign >= 3 && canadian >= 2 {
      foreignCanadianExpPoints := 50;
    } else if foreign >= 3 && canadian >= 1 {
      foreignCanadianExpPoints := 25;
    } else if foreign >= 1 && canadian >= 2 {
      foreignCanadianExpPoints := 25;
    } else if foreign >= 1 && canadian >= 1 {
      foreignCanadianExpPoints := 12;
    }

    // E. Certificate of qualification with good official language proficiency
    var certLanguagePoints := 0;
    if inputs.certificateOfQualification {
      if minClb >= 9 {
        certLanguagePoints := 50;
      } else if minClb >= 7 {
        certLanguagePoints := 25;
      }
    }

    var educationPoints := Min(educationLanguagePoints + educationWorkExpPoints, 50);
    var foreignExpPoints := Min(foreignExpLanguagePoints + foreignCanadianExpPoints, 50);
    points := educationPoints + foreignExpPoints + certLanguagePoints;
    points := Min(points, 100);
  }

  /** The calculator's 0/1 table picks out exactly the higher-education levels. */
  lemma HigherEducationFlagAgrees(level: Education)
    ensures HigherEducationFlag(level) > 0 <==> HasHigherEducation(level)
  {
  }

  /** Higher education, every first-language ability at CLB 9 or more, two or more
      Canadian years and three or more foreign years reach the overall cap. */
  lemma SkillTransferabilityMaximum(inputs: ApplicantInputs)
    requires HasHigherEducation(inputs.educationLevel)
    requires MinLevel(inputs.firstLanguage) >= 9
    requires inputs.canadianWorkExperience >= 2 && inputs.foreignWorkExperience >= 3
    ensures EducationLanguagePoints(inputs.educationLevel, MinLevel(inputs.firstLanguage)) +
            EducationCanadianPoints(inputs.educationLevel, inputs.canadianWorkExperience) == 100
    ensures EducationPair(inputs) == 50 && ForeignPair(inputs) == 50
    ensures SkillTransferability(inputs) == 100
  {
  }

  /** Without a certificate the overall cap never binds: the two capped pairs
      already sum to at most 100. */
  lemma SkillTransferabilityWithoutCertificate(inputs: ApplicantInputs)
    requires !inputs.certificateOfQualification
    ensures SkillTransferability(inputs) == EducationPair(inputs) + ForeignPair(inputs)
  {
  }

  /** More Canadian or foreign experience, or a higher minimum first-language level,
      never lowers the skill-transferability points. */
  lemma SkillTransferabilityMonotone(a: ApplicantInputs, b: ApplicantInputs)
    requires a.educationLevel == b.educationLevel
    requires a.certificateOfQualification == b.certificateOfQualification
    requires MinLevel(a.firstLanguage) <= MinLevel(b.firstLanguage)
    requires a.canadianWorkExperience <= b.canadianWorkExperience
    requires a.foreignWorkExperience <= b.foreignWorkExperience
    ensures SkillTransferability(a) <= SkillTransferability(b)
  {
    // Each of the five rules is monotone on its own; the two capped pairs follow.
    var minA, minB := MinLevel(a.firstLanguage), MinLevel(b.firstLanguage);
    assert EducationLanguagePoints(a.educationLevel, minA) <= EducationLanguagePoints(b.educationLevel, minB);
    assert EducationCanadianPoints(a.educationLevel, a.canadianWorkExperience) <=
           EducationCanadianPoints(b.educationLevel, b.canadianWorkExperience);
    assert ForeignLanguagePoints(a.foreignWorkExperience, minA) <= ForeignLanguagePoints(b.foreignWorkExperience, minB);
    assert ForeignCanadianPoints(a.foreignWorkExperience, a.canadianWorkExperience) <=
           ForeignCanadianPoints(b.foreignWorkExperience, b.canadianWorkExperience);
    assert CertificatePoints(a.certificateOfQualification, minA) <= CertificatePoints(b.certificateOfQualification, minB);
    assert EducationPair(a) <= EducationPair(b);
    assert ForeignPair(a) <= ForeignPair(b);
  }

  /** Without higher education the education pair is 0, whatever the language
      levels and Canadian experience. */
  lemma NoHigherEducationNoEducationPair(inputs: ApplicantInputs)
    requires !HasHigherEducation(inputs.educationLevel)
    ensures EducationPair(inputs) == 0
  {
  }

  // ---------------------------------------------------------------------------
  // Additional points

  /** A brother or sister in Canada is worth 15 points. */
  function SiblingPoints(hasSibling: bool): (r: nat)
    ensures r == 15 <==> hasSibling
    ensures r == 0 <==> !hasSibling
  {
    if hasSibling then 15 else 0
  }

  function FrenchPoints(tier: FrenchTier): (r: nat)
    ensures r == 0 || r == 25 || r == 50
    ensures r == 25 <==> tier == HighFrenchLowEnglish
    ensures r == 50 <==> tier == HighFrenchHighEnglish
  {
    match tier
    case HighFrenchLowEnglish => 25
    case HighFrenchHighEnglish => 50
    case _ => 0
  }

  function CanadianEducationPoints(credential: CanadianCredential): (r: nat)
    ensures r == 0 || r == 15 || r == 30
    ensures r == 15 <==> credential == OneOrTwoYears
    ensures r == 30 <==> credential == ThreeYearsOrMore
  {
    match credential
    case OneOrTwoYears => 15
    case ThreeYearsOrMore => 30
    case _ => 0
  }

  /** A provincial nomination is worth 600 points. */
  function NominationPoints(nominated: bool): (r: nat)
    ensures r == 600 <==> nominated
    ensures r == 0 <==> !nominated
  {
    if nominated then 600 else 0
  }

  /** Additional points: sibling, French tier, Canadian credential and provincial
      nomination, summed with no overall cap. */
  function AdditionalPoints(inputs: ApplicantInputs): (r: nat)
    ensures r <= 15 + 50 + 30 + 600
    ensures inputs.provincialNomination <==> r >= 600
  {
    SiblingPoints(inputs.hasSiblingInCanada) + FrenchPoints(inputs.frenchLanguage) +
    CanadianEducationPoints(inputs.canadianEducation) + NominationPoints(inputs.provincialNomination)
  }

  method CalculateAdditionalPoints(inputs: ApplicantInputs) returns (points: int)
    ensures points == AdditionalPoints(inputs)
  {
    points := 0;
    if inputs.hasSiblingInCanada {
      points := points + 15;
    }
    if inputs.frenchLanguage == HighFrenchLowEnglish {
      points := points + 25;
    } else if inputs.frenchLanguage == HighFrenchHighEnglish {
      points := points + 50;
    }
    if inputs.canadianEducation == OneOrTwoYears {
      points := points + 15;
    } else if inputs.canadianEducation == ThreeYearsOrMore {
      points := points + 30;
    }
    if inputs.provincialNomination {
      points := points + 600;
    }
  }

  /** A provincial nomination adds exactly 600, whatever else is set. */
  lemma NominationAddsSixHundred(inputs: ApplicantInputs)
    ensures AdditionalPoints(inputs.(provincialNomination := true)) ==
            AdditionalPoints(inputs.(provincialNomination := false)) + 600
  {
  }

  /** A brother or sister in Canada adds exactly 15, whatever else is set. */
  lemma SiblingAddsFifteen(inputs: ApplicantInputs)
    ensures AdditionalPoints(inputs.(hasSiblingInCanada := true)) ==
            AdditionalPoints(inputs.(hasSiblingInCanada := false)) + 15
  {
  }

  /** The maximum of 695 is reached by exactly one combination. */
  lemma AdditionalPointsMaximum(inputs: ApplicantInputs)
    ensures AdditionalPoints(inputs) == 695 <==>
      inputs.hasSiblingInCanada && inputs.frenchLanguage == HighFrenchHighEnglish &&
      inputs.canadianEducation == ThreeYearsOrMore && inputs.provincialNomination
  {
  }
}
