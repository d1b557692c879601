/** The score breakdown of one applicant record and its total. */
module Scoring {
  import opened Inputs
  import opened Rules
  import opened Factors

  /** The eight components, in the order the calculator builds them. */
  datatype Scores = Scores(
    age: int,
    education: int,
    firstLanguage: int,
    secondLanguage: int,
    canadianWorkExperience: int,
    spouseFactors: int,
    skillTransferability: int,
    additionalPoints: int)

  /** The component values in insertion order (`Object.values`). */
  function Values(s: Scores): (vs: seq<int>)
    ensures |vs| == 8
  {
    [s.age, s.education, s.firstLanguage, s.secondLanguage,
     s.canadianWorkExperience, s.spouseFactors, s.skillTransferability, s.additionalPoints]
  }

  /** Left-to-right sum of a sequence, as `reduce((sum, value) => sum + value, 0)`. */
  function Sum(xs: seq<int>): int {
    if xs == [] then 0 else Sum(xs[..|xs| - 1]) + xs[|xs| - 1]
  }

  /** The total: the sum of the eight components. */
  function ComponentTotal(s: Scores): int {
    s.age + s.education + s.firstLanguage + s.secondLanguage +
    s.canadianWorkExperience + s.spouseFactors + s.skillTransferability + s.additionalPoints
  }

  /** Every component is non-negative and within its published maximum. */
  predicate WithinCaps(s: Scores, hasSpouse: bool) {
    0 <= s.age <= (if hasSpouse then 100 else 110) &&
    0 <= s.education <= (if hasSpouse then 140 else 150) &&
    0 <= s.firstLanguage <= (if hasSpouse then 128 else 136) &&
    0 <= s.secondLanguage <= (if hasSpouse then 22 else 24) &&
    0 <= s.canadianWorkExperience <= (if hasSpouse then 70 else 80) &&
    0 <= s.spouseFactors <= (if hasSpouse then 40 else 0) &&
    0 <= s.skillTransferability <= 100 &&
    0 <= s.additionalPoints <= 695
  }

  /** The breakdown of one applicant record. */
  function Score(inputs: ApplicantInputs): (s: Scores)
    requires WellFormed(inputs)
    ensures WithinCaps(s, inputs.hasSpouse)
  {
    Scores(
      age := AgePoints(inputs.age, inputs.hasSpouse),
      education := EducationPoints(inputs.educationLevel, inputs.hasSpouse),
      firstLanguage := FirstLanguagePoints(inputs.firstLanguage, inputs.hasSpouse),
      secondLanguage := SecondLanguagePoints(inputs.secondLanguage, inputs.hasSpouse),
      canadianWorkExperience := CanadianWorkExperiencePoints(inputs.canadianWorkExperience, inputs.hasSpouse),
      spouseFactors := SpouseFactors(inputs),
      skillTransferability := SkillTransferability(inputs),
      additionalPoints := AdditionalPoints(inputs))
  }

  /** The total of a record's breakdown. */
  function Total(inputs: ApplicantInputs): (t: int)
    requires WellFormed(inputs)
    ensures 0 <= t <= 110 + 150 + 136 + 24 + 80 + 0 + 100 + 695
  {
    ComponentTotal(Score(inputs))
  }

  method CalculateScores(inputs: ApplicantInputs) returns (s: Scores)
    requires WellFormed(inputs)
    ensures s == Score(inputs)
    ensures WithinCaps(s, inputs.hasSpouse)
  {
    var spouseFactors := CalculateSpouseFactors(inputs);
    var skillTransferability := CalculateSkillTransferability(inputs);
    var additionalPoints := CalculateAdditionalPoints(inputs);
    s := Scores(
      age := AgePoints(inputs.age, inputs.hasSpouse),
      education := EducationPoints(inputs.educationLevel, inputs.hasSpouse),
      firstLanguage := FirstLanguagePoints(inputs.firstLanguage, inputs.hasSpouse),
      secondLanguage := SecondLanguagePoints(inputs.secondLanguage, inputs.hasSpouse),
      canadianWorkExperience := CanadianWorkExperiencePoints(inputs.canadianWorkExperience, inputs.hasSpouse),
      spouseFactors := spouseFactors,
      skillTransferability := skillTransferability,
      additionalPoints := additionalPoints);
  }

  /** Summing the component values one by one gives the sum of the eight components. */
  method TotalScore(scores: Scores) returns (total: int)
    ensures total == ComponentTotal(scores)
  {
    var values := Values(scores);
    total := 0;
    var k := 0;
    while k < |values|
      invariant 0 <= k <= |values|
      invariant total == Sum(values[..k])
    {
      SumStep(values, k + 1);
      total := total + values[k];
      k := k + 1;
    }
    assert values[..k] == values;
    SumOfValues(scores);
  }

  /** One more element adds its value to the running sum. */
  lemma SumStep(xs: seq<int>, k: int)
    requires 1 <= k <= |xs|
    ensures Sum(xs[..k]) == Sum(xs[..k - 1]) + xs[k - 1]
  {
    assert xs[..k][..k - 1] == xs[..k - 1];
  }

  lemma SumOfValues(s: Scores)
    ensures Sum(Values(s)) == ComponentTotal(s)
  {
    var vs := Values(s);
    SumStep(vs, 8); SumStep(vs, 7); SumStep(vs, 6); SumStep(vs, 5);
    SumStep(vs, 4); SumStep(vs, 3); SumStep(vs, 2); SumStep(vs, 1);
    assert vs[..8] == vs;
    assert vs[..0] == [];
  }

  // ---------------------------------------------------------------------------
  // Properties of the breakdown

  /** A record with the default values at any age: a bachelor's degree (120), CLB 10
      in every first-language ability (4 x 34 = 136) and the 50 skill-transferability
      points that a bachelor's degree earns with CLB 9 or more, plus the age points;
      every other component is 0. */
  lemma DefaultsAtAnyAge(inputs: ApplicantInputs)
    requires inputs == DefaultInputs().(age := inputs.age)
    ensures WellFormed(inputs)
    ensures Score(inputs) == Scores(AgePoints(inputs.age, false), 120, 136, 0, 0, 0, 50, 0)
    ensures Total(inputs) == AgePoints(inputs.age, false) + 120 + 136 + 50
  {
    DefaultHumanCapital(inputs);
    DefaultCompositeFactors(inputs);
  }

  /** A new profile (age 30, 105 age points) scores 411. */
  lemma NewProfileScore(inputs: ApplicantInputs)
    requires inputs == DefaultInputs()
    ensures WellFormed(inputs)
    ensures Total(inputs) == 411
  {
    assert AgePoints(inputs.age, false) == 105;
    DefaultsAtAnyAge(inputs);
  }

  lemma DefaultHumanCapital(inputs: ApplicantInputs)
    requires inputs == DefaultInputs().(age := inputs.age)
    ensures EducationPoints(inputs.educationLevel, inputs.hasSpouse) == 120
    ensures FirstLanguagePoints(inputs.firstLanguage, inputs.hasSpouse) == 136
    ensures SecondLanguagePoints(inputs.secondLanguage, inputs.hasSpouse) == 0
    ensures CanadianWorkExperiencePoints(inputs.canadianWorkExperience, inputs.hasSpouse) == 0
  {
  }

  lemma DefaultCompositeFactors(inputs: ApplicantInputs)
    requires inputs == DefaultInputs().(age := inputs.age)
    ensures SpouseFactors(inputs) == 0
    ensures SkillTransferability(inputs) == 50
    ensures AdditionalPoints(inputs) == 0
  {
    assert EducationPair(inputs) == 50;
  }

  /** Toggling the provincial nomination changes the additional points and the
      total by exactly 600 and no other component. */
  lemma NominationTogglesSixHundred(inputs: ApplicantInputs)
    requires WellFormed(inputs)
    ensures var on, off := Score(inputs.(provincialNomination := true)), Score(inputs.(provincialNomination := false));
      on == off.(additionalPoints := off.additionalPoints + 600) &&
      ComponentTotal(on) == ComponentTotal(off) + 600
  {
    NominationAddsSixHundred(inputs);
  }

  /** Changing only the spouse's own fields leaves every component but the spouse
      factors unchanged. */
  lemma SpouseFieldsOnlyAffectSpouseFactors(a: ApplicantInputs, b: ApplicantInputs)
    requires WellFormed(a)
    requires b == a.(spouseEducationLevel := b.spouseEducationLevel,
                     spouseLanguage := b.spouseLanguage,
                     spouseCanadianWorkExperience := b.spouseCanadianWorkExperience)
    ensures WellFormed(b)
    ensures Score(b) == Score(a).(spouseFactors := SpouseFactors(b))
    ensures !a.hasSpouse ==> Score(b) == Score(a)
  {
  }
}
