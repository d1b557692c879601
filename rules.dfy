/** The core human-capital tables of the Comprehensive Ranking System: age,
    education, per-ability language levels and Canadian work experience, each a
    lookup keyed by the value and by whether the applicant has a spouse. */
module Rules {
  import opened Inputs

  // ---------------------------------------------------------------------------
  // Age

  /** Points for the applicant's age: nothing outside 18..44, a peak at 20..29. */
  function AgePoints(age: int, hasSpouse: bool): (r: nat)
    ensures age < 18 || age > 44 ==> r == 0
    ensures 18 <= age <= 44 ==> r >= (if hasSpouse then 5 else 6)
    ensures 20 <= age <= 29 ==> r == (if hasSpouse then 100 else 110)
    ensures age == 44 ==> r == (if hasSpouse then 5 else 6)
    ensures r <= (if hasSpouse then 100 else 110)
  {
    if age < 18 || age > 44 then 0
    else
      match age
      case 18 => if hasSpouse then 90 else 99
      case 19 => if hasSpouse then 95 else 105
      case 20 => if hasSpouse then 100 else 110
      case 21 => if hasSpouse then 100 else 110
      case 22 => if hasSpouse then 100 else 110
      case 23 => if hasSpouse then 100 else 110
      case 24 => if hasSpouse then 100 else 110
      case 25 => if hasSpouse then 100 else 110
      case 26 => if hasSpouse then 100 else 110
      case 27 => if hasSpouse then 100 else 110
      case 28 => if hasSpouse then 100 else 110
      case 29 => if hasSpouse then 100 else 110
      case 30 => if hasSpouse then 95 else 105
      case 31 => if hasSpouse then 90 else 99
      case 32 => if hasSpouse then 85 else 94
      case 33 => if hasSpouse then 80 else 88
      case 34 => if hasSpouse then 75 else 83
      case 35 => if hasSpouse then 70 else 77
      case 36 => if hasSpouse then 65 else 72
      case 37 => if hasSpouse then 60 else 66
      case 38 => if hasSpouse then 55 else 61
      case 39 => if hasSpouse then 50 else 55
      case 40 => if hasSpouse then 45 else 50
      case 41 => if hasSpouse then 35 else 39
      case 42 => if hasSpouse then 25 else 28
      case 43 => if hasSpouse then 15 else 17
      case 44 => if hasSpouse then 5 else 6
      case _ => 0
  }

  /** An applicant with a spouse never earns more age points. */
  lemma AgeSpouseNeverHigher(age: int)
    ensures AgePoints(age, true) <= AgePoints(age, false)
  {
  }

  /** Age points rise up to 20 ... */
  lemma AgeRisesToTwenty(a: int, b: int, hasSpouse: bool)
    requires a <= b <= 20
    ensures AgePoints(a, hasSpouse) <= AgePoints(b, hasSpouse)
  {
  }

  /** ... and fall from 29 on. */
  lemma AgeFallsFromTwentyNine(a: int, b: int, hasSpouse: bool)
    requires 29 <= a <= b
    ensures AgePoints(b, hasSpouse) <= AgePoints(a, hasSpouse)
  {
  }

  // ---------------------------------------------------------------------------
  // Education

  /** Position of an education level in the form's ascending list; an unlisted
      key ranks with 'none'. */
  function EducationRank(e: Education): (k: nat)
    ensures k <= 7
  {
    match e
    case NoEducation => 0
    case Secondary => 1
    case OneYear => 2
    case TwoYear => 3
    case Bachelors => 4
    case TwoOrMore => 5
    case Masters => 6
    case Phd => 7
    case UnlistedEducation(_) => 0
  }

  /** Points for the applicant's level of education. */
  function EducationPoints(level: Education, hasSpouse: bool): (r: nat)
    ensures EducationRank(level) == 0 ==> r == 0
    ensures EducationRank(level) > 0 ==> r > 0
    ensures level == Phd ==> r == (if hasSpouse then 140 else 150)
    ensures level == Bachelors ==> r == (if hasSpouse then 112 else 120)
    ensures r <= (if hasSpouse then 140 else 150)
  {
    match level
    case NoEducation => 0
    case Secondary => if hasSpouse then 28 else 30
    case OneYear => if hasSpouse then 84 else 90
    case TwoYear => if hasSpouse then 91 else 98
    case Bachelors => if hasSpouse then 112 else 120
    case TwoOrMore => if hasSpouse then 119 else 128
    case Masters => if hasSpouse then 126 else 135
    case Phd => if hasSpouse then 140 else 150
    case UnlistedEducation(_) => 0
  }

  /** A higher level of education never earns fewer points. */
  lemma EducationMonotone(a: Education, b: Education, hasSpouse: bool)
    requires EducationRank(a) <= EducationRank(b)
    ensures EducationPoints(a, hasSpouse) <= EducationPoints(b, hasSpouse)
  {
  }

  lemma EducationSpouseNeverHigher(level: Education)
    ensures EducationPoints(level, true) <= EducationPoints(level, false)
  {
  }

  // ---------------------------------------------------------------------------
  // Official languages

  /** Points for one ability at CLB level `ability`, from the first- or the
      second-language table. Both tables have exactly the keys 0..10. */
  function LanguageScore(ability: int, hasSpouse: bool, isFirstLanguage: bool): (r: nat)
    requires 0 <= ability <= 10
    ensures isFirstLanguage && ability <= 3 ==> r == 0
    ensures isFirstLanguage && ability >= 4 ==> r >= 6
    ensures isFirstLanguage ==> r <= (if hasSpouse then 32 else 34)
    ensures !isFirstLanguage && ability <= 4 ==> r == 0
    ensures !isFirstLanguage ==> r <= 6
  {
    if isFirstLanguage then
      match ability
      case 0 => 0
      case 1 => 0
      case 2 => 0
      case 3 => 0
      case 4 => if hasSpouse then 6 else 6
      case 5 => if hasSpouse then 6 else 6
      case 6 => if hasSpouse then 8 else 9
      case 7 => if hasSpouse then 16 else 17
      case 8 => if hasSpouse then 22 else 23
      case 9 => if hasSpouse then 29 else 31
      case 10 => if hasSpouse then 32 else 34
    else
      match ability
      case 0 => 0
      case 1 => 0
      case 2 => 0
      case 3 => 0
      case 4 => 0
      case 5 => if hasSpouse then 1 else 1
      case 6 => if hasSpouse then 1 else 1
      case 7 => if hasSpouse then 3 else 3
      case 8 => if hasSpouse then 3 else 3
      case 9 => if hasSpouse then 6 else 6
      case 10 => if hasSpouse then 6 else 6
  }

  /** A higher CLB level never earns fewer points, in either table. */
  lemma LanguageScoreMonotone(a: int, b: int, hasSpouse: bool, isFirstLanguage: bool)
    requires 0 <= a <= b <= 10
    ensures LanguageScore(a, hasSpouse, isFirstLanguage) <= LanguageScore(b, hasSpouse, isFirstLanguage)
  {
  }

  /** The second-language table never gives more than the first, and a spouse
      never raises an ability's points. */
  lemma LanguageScoreOrdering(ability: int, hasSpouse: bool)
    requires 0 <= ability <= 10
    ensures LanguageScore(ability, hasSpouse, false) <= LanguageScore(ability, hasSpouse, true)
    ensures LanguageScore(ability, true, true) <= LanguageScore(ability, false, true)
    ensures LanguageScore(ability, true, false) == LanguageScore(ability, false, false)
  {
  }

  /** Sum of the four abilities' points in the first official language. */
  function FirstLanguagePoints(language: Language, hasSpouse: bool): (r: nat)
    requires InTable(language)
    ensures r <= 4 * (if hasSpouse then 32 else 34)
    ensures language == Language(10, 10, 10, 10) ==> r == 4 * (if hasSpouse then 32 else 34)
  {
    var speakingPoints := LanguageScore(language.speaking, hasSpouse, true);
    var listeningPoints := LanguageScore(language.listening, hasSpouse, true);
    var readingPoints := LanguageScore(language.reading, hasSpouse, true);
    var writingPoints := LanguageScore(language.writing, hasSpouse, true);
    speakingPoints + listeningPoints + readingPoints + writingPoints
  }

  /** Uncapped sum of the four abilities' points in the second official language. */
  function SecondLanguageSum(language: Language, hasSpouse: bool): (r: nat)
    requires InTable(language)
    ensures r <= 24
    ensures r == 24 <==> MinLevel(language) >= 9
  {
    LanguageScore(language.speaking, hasSpouse, false) +
    LanguageScore(language.listening, hasSpouse, false) +
    LanguageScore(language.reading, hasSpouse, false) +
    LanguageScore(language.writing, hasSpouse, false)
  }

  /** The second-language sum, capped at 22 with a spouse and 24 without. */
  function SecondLanguagePoints(language: Language, hasSpouse: bool): (r: nat)
    requires InTable(language)
    ensures r <= (if hasSpouse then 22 else 24)
    ensures r <= SecondLanguageSum(language, hasSpouse)
    ensures r == SecondLanguageSum(language, hasSpouse) || r == (if hasSpouse then 22 else 24)
  {
    var maxPoints := if hasSpouse then 22 else 24;
    var sum := SecondLanguageSum(language, hasSpouse);
    if sum <= maxPoints then sum else maxPoints
  }

  /** Without a spouse the cap never binds: four abilities give at most 24. */
  lemma SecondLanguageCapOnlyWithSpouse(language: Language)
    requires InTable(language)
    ensures SecondLanguagePoints(language, false) == SecondLanguageSum(language, false)
  {
  }

  /** With a spouse the cap binds exactly when every ability is at CLB 9 or more. */
  lemma SecondLanguageCapWithSpouse(language: Language)
    requires InTable(language)
    ensures SecondLanguagePoints(language, true) < SecondLanguageSum(language, true)
        <==> MinLevel(language) >= 9
  {
  }

  /** Raising any ability never lowers either language component. */
  lemma LanguagePointsMonotone(a: Language, b: Language, hasSpouse: bool)
    requires InTable(a) && InTable(b)
    requires a.speaking <= b.speaking && a.listening <= b.listening
    requires a.reading <= b.reading && a.writing <= b.writing
    ensures FirstLanguagePoints(a, hasSpouse) <= FirstLanguagePoints(b, hasSpouse)
    ensures SecondLanguagePoints(a, hasSpouse) <= SecondLanguagePoints(b, hasSpouse)
  {
    LanguageScoreMonotone(a.speaking, b.speaking, hasSpouse, true);
    LanguageScoreMonotone(a.listening, b.listening, hasSpouse, true);
    LanguageScoreMonotone(a.reading, b.reading, hasSpouse, true);
    LanguageScoreMonotone(a.writing, b.writing, hasSpouse, true);
    LanguageScoreMonotone(a.speaking, b.speaking, hasSpouse, false);
    LanguageScoreMonotone(a.listening, b.listening, hasSpouse, false);
    LanguageScoreMonotone(a.reading, b.reading, hasSpouse, false);
    LanguageScoreMonotone(a.writing, b.writing, hasSpouse, false);
  }

  // ---------------------------------------------------------------------------
  // Canadian work experience

  /** Points for years of Canadian work experience; more than five years scores as five. */
  function CanadianWorkExperiencePoints(years: int, hasSpouse: bool): (r: nat)
    ensures years <= 0 ==> r == 0
    ensures years >= 1 ==> r >= (if hasSpouse then 35 else 40)
    ensures years >= 5 ==> r == (if hasSpouse then 70 else 80)
    ensures r <= (if hasSpouse then 70 else 80)
  {
    if years > 5 then WorkExperienceTier(5, hasSpouse) else WorkExperienceTier(years, hasSpouse)
  }

  /** The table itself, keyed 0..5; a missing key scores 0. */
  function WorkExperienceTier(years: int, hasSpouse: bool): (r: nat)
    ensures r == 0 <==> years <= 0 || years > 5
    ensures years == 5 ==> r == (if hasSpouse then 70 else 80)
    ensures r <= (if hasSpouse then 70 else 80)
  {
    match years
    case 0 => 0
    case 1 => if hasSpouse then 35 else 40
    case 2 => if hasSpouse then 46 else 53
    case 3 => if hasSpouse then 56 else 64
    case 4 => if hasSpouse then 63 else 72
    case 5 => if hasSpouse then 70 else 80
    case _ => 0
  }

  /** Beyond five years, further experience changes nothing. */
  lemma CanadianWorkExperienceClamp(years: int, hasSpouse: bool)
    requires years > 5
    ensures CanadianWorkExperiencePoints(years, hasSpouse) == CanadianWorkExperiencePoints(5, hasSpouse)
  {
  }

  lemma CanadianWorkExperienceMonotone(a: int, b: int, hasSpouse: bool)
    requires a <= b
    ensures CanadianWorkExperiencePoints(a, hasSpouse) <= CanadianWorkExperiencePoints(b, hasSpouse)
  {
  }
}
