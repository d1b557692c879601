# CRS calculator scoring engine in Dafny

This project models the scoring engine of a Comprehensive Ranking System (CRS)
calculator. CRS is the point system used to rank Canadian Express Entry
applicants. The engine works like this:
- An applicant record holds these fields: spouse flag, age, education level,
  first and second official language, Canadian and foreign work experience,
  certificate of qualification, the spouse's education, language and Canadian
  experience, sibling in Canada, French tier, Canadian credential, and
  provincial nomination.
- Eight rule functions score the record. Their results form a breakdown of
  eight components (age, education, first language, second language, Canadian
  work experience, spouse factors, skill transferability, additional points).
- The profile's total is the sum of those eight components.
- Up to three named profiles are kept side by side. After every edit of one
  field, every profile's breakdown and total are recomputed in place.

Modules, one concept each:

- `Inputs` (`inputs.dfy`): the applicant record and its enumerations. It also
  holds the default record and the single-field edit (`Apply`). An edit either
  replaces a field or spreads a partial language object over a language record.
- `Rules` (`rules.dfy`): the pure table lookups. These cover age, education,
  per-ability language scores, the first- and second-language sums, and
  Canadian work experience.
- `Factors` (`factors.dfy`): the three composite components. Each one has a
  specification function built from its sub-rules. Each one also has a method
  that accumulates into local variables, as the calculator does, and is proved
  equal to that function.
- `Scoring` (`scoring.dfy`): the breakdown `Score`, the method that computes it,
  and the `reduce`-style total as a loop over the component values.
- `Profiles` (`profiles.dfy`): profiles held in an `array<Profile>`. This module
  has the in-place recomputation, the in-place edit, their composition, and the
  three default profiles.

Decisions:

- Unknown keys. An education level, French tier or Canadian credential that is
  not in a table is modelled by an `Unlisted…(key)` constructor. Its key has a
  subset type that excludes the table's own keys, so an `Unlisted…` value never
  stands for a listed level or tier. It scores 0 in every table. That matches
  the calculator's `|| 0` fallbacks and its failed `===` comparisons.
- CLB levels out of range. The first- and second-language tables have no
  fallback, so a level outside 0..10 gives `undefined` and then a `NaN` total.
  The model therefore requires those two languages to be in the table
  (`WellFormed`). The spouse language uses thresholds, which work for any
  integer, so it has no such requirement.
- A default-like applicant (bachelor's degree, CLB 10 in every first-language
  ability, no experience, no bonuses) also earns 50 skill-transferability
  points, because a bachelor's degree with minimum CLB 9 or more meets rule A.
  So a new profile totals 105 + 120 + 136 + 50 = 411 (`Scoring.NewProfileScore`).

## Model

| member | source | states |
|---|---|---|
| Inputs.MinLevel | src/components/CRSCalculator.jsx:294-295 | the minimum CLB is at most each of the four abilities and equals one of them |
| Inputs.DefaultInputs | src/components/CRSCalculator.jsx:23-56 | the default record can be scored, with CLB 10 as its lowest first-language ability |
| Inputs.Merge | src/components/CRSCalculator.jsx:74-81 | spreading a partial language object keeps the abilities it omits and takes the ones it carries |
| Inputs.Set | src/components/CRSCalculator.jsx:82-87 | replacing one field gives that field the new value and leaves every other field as it was |
| Inputs.Get | src/components/CRSCalculator.jsx:23-56 | reading a field yields a value of that field's kind |
| Inputs.Apply | src/components/CRSCalculator.jsx:71-90 | an edit changes only the named field: a plain value replaces it, and an object value is merged into the named language record |
| Inputs.FieldsDetermineInputs | src/components/CRSCalculator.jsx:23-56 | two records that agree on every field are equal |
| Inputs.ApplyIdempotent | src/components/CRSCalculator.jsx:71-90 | repeating the same edit changes nothing further |
| Inputs.ApplyCommutes | src/components/CRSCalculator.jsx:71-90 | edits of two different fields give the same record in either order |
| Rules.AgePoints | src/components/CRSCalculator.jsx:107-141 | 0 outside 18..44; at least 6 (5 with spouse) inside; 110/100 for 20..29; 6/5 at 44; never above the 20..29 peak |
| Rules.AgeSpouseNeverHigher | src/components/CRSCalculator.jsx:110-138 | the with-spouse column never exceeds the single column |
| Rules.AgeRisesToTwenty | src/components/CRSCalculator.jsx:110-138 | age points never fall as age rises up to 20 |
| Rules.AgeFallsFromTwentyNine | src/components/CRSCalculator.jsx:110-138 | age points never rise as age rises from 29 on |
| Rules.EducationRank | src/components/CRSCalculator.jsx:144-153 | levels rank 0..7 in the table's order, with unlisted keys ranked like 'none' |
| Rules.EducationPoints | src/components/CRSCalculator.jsx:143-156 | 0 exactly for 'none' and unlisted keys; PhD 150/140; bachelor's 120/112; never above the PhD value |
| Rules.EducationMonotone | src/components/CRSCalculator.jsx:144-153 | a higher-ranked level never earns fewer points |
| Rules.EducationSpouseNeverHigher | src/components/CRSCalculator.jsx:144-153 | the with-spouse column never exceeds the single column |
| Rules.LanguageScore | src/components/CRSCalculator.jsx:158-187 | first table: 0 up to CLB 3, at least 6 from CLB 4, at most 34/32; second table: 0 up to CLB 4, at most 6 |
| Rules.LanguageScoreMonotone | src/components/CRSCalculator.jsx:162-183 | in both tables a higher CLB level never earns fewer points |
| Rules.LanguageScoreOrdering | src/components/CRSCalculator.jsx:162-183 | the second table never exceeds the first; a spouse never raises first-language points; the second table has identical columns |
| Rules.FirstLanguagePoints | src/components/CRSCalculator.jsx:189-198 | the four-ability sum is at most 4 x 34 (4 x 32 with spouse) and is exactly that at CLB 10 everywhere |
| Rules.SecondLanguageSum | src/components/CRSCalculator.jsx:203-207 | the uncapped second-language sum is at most 24, and exactly 24 when every ability is at CLB 9 or more |
| Rules.SecondLanguagePoints | src/components/CRSCalculator.jsx:200-211 | the result is the minimum of the uncapped four-ability sum and 24 (22 with spouse): at most both, and equal to one of them |
| Rules.SecondLanguageCapOnlyWithSpouse | src/components/CRSCalculator.jsx:208-210 | without a spouse the cap of 24 never binds |
| Rules.SecondLanguageCapWithSpouse | src/components/CRSCalculator.jsx:208-210 | with a spouse the cap of 22 binds exactly when every ability is at CLB 9 or more |
| Rules.LanguagePointsMonotone | src/components/CRSCalculator.jsx:189-211 | raising abilities never lowers either language component |
| Rules.CanadianWorkExperiencePoints | src/components/CRSCalculator.jsx:213-224 | 0 for 0 or fewer years; at least 40/35 from one year; five or more years give exactly 80/70, the maximum |
| Rules.WorkExperienceTier | src/components/CRSCalculator.jsx:214-221 | the table scores 0 exactly outside 1..5 years, and 80/70, its maximum, at five years |
| Rules.CanadianWorkExperienceClamp | src/components/CRSCalculator.jsx:223 | more than five years scores exactly the five-year value |
| Rules.CanadianWorkExperienceMonotone | src/components/CRSCalculator.jsx:213-224 | more years never earn fewer points |
| Factors.SpouseEducationPoints | src/components/CRSCalculator.jsx:229-240 | at most 10, and 0 for 'none' and unlisted keys |
| Factors.SpouseLanguageLevelPoints | src/components/CRSCalculator.jsx:246-251 | 0 up to level 4, 1 for 5..6, 3 for 7..8, 5 from 9 |
| Factors.SpouseLanguagePoints | src/components/CRSCalculator.jsx:243-256 | the four spouse abilities give at most 20 |
| Factors.SpouseWorkExperiencePoints | src/components/CRSCalculator.jsx:259-269 | 0 for 0 or fewer years; 10, the maximum, from five years on |
| Factors.SpouseWorkTier | src/components/CRSCalculator.jsx:259-266 | the spouse table scores 0 exactly outside 1..5 years, and 10, its maximum, at five years |
| Factors.SpouseFactors | src/components/CRSCalculator.jsx:226-272 | exactly 0 without a spouse, and never above 40 |
| Factors.CalculateSpouseFactors | src/components/CRSCalculator.jsx:226-272 | the step-by-step accumulation equals the spouse-factors specification |
| Factors.SpouseLanguageLevelMonotone | src/components/CRSCalculator.jsx:246-251 | a higher spouse level never earns fewer points |
| Factors.SpouseWorkExperienceClamp | src/components/CRSCalculator.jsx:268-269 | more than five spouse years scores exactly the five-year value |
| Factors.SpouseFactorsMaximum | src/components/CRSCalculator.jsx:226-272 | the component is 40 exactly with a spouse, a master's or PhD, every spouse ability at 9 or more and five or more years |
| Factors.EducationLanguagePoints | src/components/CRSCalculator.jsx:297-303 | rule A gives 0, 25 or 50: 50 exactly with higher education and minimum CLB 9 or more, 25 exactly with higher education and minimum CLB 7 or 8 |
| Factors.EducationCanadianPoints | src/components/CRSCalculator.jsx:306-314 | rule B gives 0, 25 or 50: 50 exactly with higher education and 2 or more Canadian years, 25 exactly with higher education and one year |
| Factors.ForeignLanguagePoints | src/components/CRSCalculator.jsx:317-331 | rule C gives 0, 12, 25 or 50: 50 exactly for 3+ foreign years with minimum CLB 9+; 25 exactly for 3+ years with CLB 7..8 or 1..2 years with CLB 9+; 12 exactly for 1..2 years with CLB 7..8 |
| Factors.ForeignCanadianPoints | src/components/CRSCalculator.jsx:334-344 | rule D gives 0, 12, 25 or 50: 50 exactly for 3+ foreign and 2+ Canadian years; 25 exactly for 3+ foreign with one Canadian year or 1..2 foreign with 2+ Canadian; 12 exactly for 1..2 foreign with one Canadian year |
| Factors.CertificatePoints | src/components/CRSCalculator.jsx:347-355 | rule E gives 0, 25 or 50: 50 exactly with a certificate and minimum CLB 9+, 25 exactly with a certificate and CLB 7..8 |
| Factors.EducationPair | src/components/CRSCalculator.jsx:358 | the pair is min(A + B, 50): at most both, and equal to one of them |
| Factors.ForeignPair | src/components/CRSCalculator.jsx:359 | the pair is min(C + D, 50): at most both, and equal to one of them |
| Factors.SkillTransferability | src/components/CRSCalculator.jsx:357-362 | the component is min(both pairs + certificate points, 100): at most both, and equal to one of them |
| Factors.CalculateSkillTransferability | src/components/CRSCalculator.jsx:274-363 | the chain of reassigned locals computes exactly the skill-transferability specification |
| Factors.HigherEducationFlag | src/components/CRSCalculator.jsx:280-289 | the calculator's higher-education table holds only 0 and 1 |
| Factors.HigherEducationFlagAgrees | src/components/CRSCalculator.jsx:280-291 | the 0/1 table is positive exactly for bachelor's, two-or-more, master's and PhD |
| Factors.SkillTransferabilityMaximum | src/components/CRSCalculator.jsx:297-362 | higher education, minimum CLB 9 or more, 2+ Canadian years and 3+ foreign years: A + B is 100 and is capped to 50, both pairs are 50, and the component is exactly 100 |
| Factors.SkillTransferabilityWithoutCertificate | src/components/CRSCalculator.jsx:357-362 | without a certificate the overall cap never binds |
| Factors.NoHigherEducationNoEducationPair | src/components/CRSCalculator.jsx:297-314 | without higher education the education pair is 0 |
| Factors.SkillTransferabilityMonotone | src/components/CRSCalculator.jsx:274-363 | more Canadian or foreign years, or a higher minimum first-language CLB, never lower the component |
| Factors.FrenchPoints | src/components/CRSCalculator.jsx:374-378 | the French tier gives 0, 25 or 50, with 25 and 50 each for exactly one tier |
| Factors.CanadianEducationPoints | src/components/CRSCalculator.jsx:381-385 | the Canadian credential gives 0, 15 or 30, with 15 and 30 each for exactly one tier |
| Factors.SiblingPoints | src/components/CRSCalculator.jsx:369-371 | a sibling in Canada gives 15, otherwise 0 |
| Factors.AdditionalPoints | src/components/CRSCalculator.jsx:365-393 | the sum is at most 695, and at least 600 exactly when there is a provincial nomination |
| Factors.NominationPoints | src/components/CRSCalculator.jsx:388-390 | a provincial nomination gives 600, otherwise 0 |
| Factors.CalculateAdditionalPoints | src/components/CRSCalculator.jsx:365-393 | the `points +=` accumulation equals the additional-points specification |
| Factors.NominationAddsSixHundred | src/components/CRSCalculator.jsx:387-390 | a nomination adds exactly 600 whatever the other fields are |
| Factors.SiblingAddsFifteen | src/components/CRSCalculator.jsx:369-371 | a sibling in Canada adds exactly 15 whatever the other fields are |
| Factors.AdditionalPointsMaximum | src/components/CRSCalculator.jsx:365-393 | 695 is reached exactly with a sibling, the high-French-high-English tier, a 3+ year credential and a nomination |
| Scoring.Values | src/components/CRSCalculator.jsx:62 | the component values form a list of eight |
| Scoring.Score | src/components/CRSCalculator.jsx:92-105 | every component is non-negative and within its maximum, with the spouse-dependent maxima (second language 24/22, spouse factors 0 without a spouse, skill transferability 100) |
| Scoring.Total | src/components/CRSCalculator.jsx:62 | the total is non-negative and bounded by the sum of the component maxima |
| Scoring.CalculateScores | src/components/CRSCalculator.jsx:92-105 | the breakdown computed through the accumulating methods equals the specification and stays within the caps |
| Scoring.TotalScore | src/components/CRSCalculator.jsx:62 | reducing the component values from 0 gives exactly the sum of the eight components |
| Scoring.SumStep | src/components/CRSCalculator.jsx:62 | each further element adds its value to the running sum |
| Scoring.SumOfValues | src/components/CRSCalculator.jsx:62 | the sum of the value list is the sum of the eight components |
| Scoring.DefaultsAtAnyAge | src/components/CRSCalculator.jsx:23-56 | the default record at any age scores its age points + 120 + 136 + 50, and 0 in every other component |
| Scoring.DefaultHumanCapital | src/components/CRSCalculator.jsx:23-56 | the default record scores 120 for education, 136 for first language and 0 for second language and Canadian experience |
| Scoring.DefaultCompositeFactors | src/components/CRSCalculator.jsx:23-56 | the default record scores 0 spouse, 50 skill-transferability and 0 additional points |
| Scoring.NewProfileScore | src/components/CRSCalculator.jsx:23-56 | a new profile's record totals 411 |
| Scoring.NominationTogglesSixHundred | src/components/CRSCalculator.jsx:388-390 | toggling the nomination changes only the additional points, by exactly 600, and moves the total by exactly 600 |
| Scoring.SpouseFieldsOnlyAffectSpouseFactors | src/components/CRSCalculator.jsx:226-272 | editing only the spouse's fields changes no component except spouse factors, and changes nothing without a spouse |
| Profiles.Recomputed | src/components/CRSCalculator.jsx:58-64 | a recomputed profile keeps its name and record, is current, and its total is the sum of its eight components |
| Profiles.RecomputedFixesCurrent | src/components/CRSCalculator.jsx:58-64 | recomputation leaves a profile unchanged exactly when it is already current, so it is idempotent |
| Profiles.RecomputedForgetsStaleScores | src/components/CRSCalculator.jsx:58-64 | the old breakdown and total have no influence on the recomputed profile |
| Profiles.DefaultProfiles | src/components/CRSCalculator.jsx:16-20 | three profiles, each with the default record and no breakdown yet |
| Profiles.DefaultProfilesTotal | src/components/CRSCalculator.jsx:16-20 | each default profile totals 411 once recomputed |
| Profiles.Recompute | src/components/CRSCalculator.jsx:58-64 | in place, each profile is replaced by its recomputed self, and the number of profiles is unchanged |
| Profiles.RecomputeProfile | src/components/CRSCalculator.jsx:61-63 | computing the breakdown with the calculator's methods and summing it gives exactly the recomputed profile |
| Profiles.RecomputedAllAt | src/components/CRSCalculator.jsx:60-64 | the k-th element of the recomputed sequence is the k-th profile recomputed |
| Profiles.RecomputedAllSnoc | src/components/CRSCalculator.jsx:60-64 | after one more iteration, the recomputed prefix is the old prefix followed by the next profile recomputed |
| Profiles.HandleInputChange | src/components/CRSCalculator.jsx:71-90 | only the indexed profile's record changes, by the edit; all other profiles and the breakdowns stay as they were |
| Profiles.OneRecordChangedKeepsWellFormed | src/components/CRSCalculator.jsx:71-90 | replacing one profile by one with a scorable record keeps every record scorable |
| Profiles.Edit | src/components/CRSCalculator.jsx:58-90 | after an edit and its recomputation every profile is current with its name kept, the edited record is the edit applied, and other records are unchanged |
| Profiles.NominationToggleMovesTotal | src/components/CRSCalculator.jsx:71-90 | setting versus clearing a profile's nomination through the edit, then recomputing, differs in total by exactly 600 |

## Left out

- Rendering (the forms, the breakdown view and the comparison table) is left out. It is presentation only.
- `localStorage` load, save and reset are left out. They are browser storage. The three starting profiles are modelled (`DefaultProfiles`).
- PDF export is left out. It calls an external library and writes a file, and its interpretation guide is fixed text.
- `parseInt` of form strings is left out, along with the `NaN` it yields for an empty field. Inputs arrive as integers.
- The `useEffect` trigger and `setProfiles` are left out. They are React state mechanics. `Profiles.Edit` models the edit followed by the recomputation that it triggers.
- Profiles.HandleInputChange: the calculator copies the array shallowly, so it also mutates the profile object shared with the previous state. The model replaces the array element and does not capture that sharing.
- Inputs.Apply: only edits of the field's own kind are modelled: a plain value for a scalar field, an object for a language field. The calculator would store a value of any type under any category name.
- Lookups by a key that the JavaScript object inherits from its prototype (such as `'constructor'`) return a function, not a number. The model scores every unlisted key as 0.
- A first- or second-language level outside 0..10 gives `undefined` (a `NaN` total) in the calculator. Such records are excluded by `WellFormed`, not modelled.
- Determinism of scoring (same record, same breakdown) has no lemma. Dafny functions are deterministic by construction.
