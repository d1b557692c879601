/** The comparison set: named profiles, each an applicant record with its score
    breakdown and total, recomputed in place after every edit. */
module Profiles {
  import opened Inputs
  import opened Scoring

  /** A profile: its name, its last computed total and breakdown (`None` before the
      first computation, the empty `scores` object), and its applicant record. */
  datatype Profile = Profile(name: string, totalScore: int, scores: Option<Scores>, inputs: ApplicantInputs)

  /** A profile whose breakdown and total are those of its current record. */
  predicate Current(p: Profile)
    requires WellFormed(p.inputs)
  {
    p.scores == Some(Score(p.inputs)) && p.totalScore == Total(p.inputs)
  }

  /** The profile with its breakdown and total recomputed from its record. */
  function Recomputed(p: Profile): (q: Profile)
    requires WellFormed(p.inputs)
    ensures q.name == p.name && q.inputs == p.inputs
    ensures Current(q)
    ensures q.totalScore == ComponentTotal(q.scores.value)
  {
    var scores := Score(p.inputs);
    p.(scores := Some(scores), totalScore := ComponentTotal(scores))
  }

  /** Recomputing a current profile changes nothing, so recomputing twice is
      recomputing once. */
  lemma RecomputedFixesCurrent(p: Profile)
    requires WellFormed(p.inputs)
    ensures Current(p) <==> Recomputed(p) == p
    ensures Recomputed(Recomputed(p)) == Recomputed(p)
  {
  }

  /** Profiles that differ only in their stale breakdowns recompute to the same profile. */
  lemma RecomputedForgetsStaleScores(p: Profile, q: Profile)
    requires WellFormed(p.inputs)
    requires p.name == q.name && p.inputs == q.inputs
    ensures Recomputed(p) == Recomputed(q)
  {
  }

  /** The three profiles a first visit starts with, and the reset restores. */
  function DefaultProfiles(): (ps: seq<Profile>)
    ensures |ps| == 3
    ensures forall k :: 0 <= k < |ps| ==> ps[k].inputs == DefaultInputs() && ps[k].scores == None
  {
    [Profile("Profile 1", 0, None, DefaultInputs()),
     Profile("Profile 2", 0, None, DefaultInputs()),
     Profile("Profile 3", 0, None, DefaultInputs())]
  }

  /** After the first recomputation every default profile totals 411. */
  lemma DefaultProfilesTotal(k: int)
    requires 0 <= k < 3
    ensures WellFormed(DefaultProfiles()[k].inputs)
    ensures Recomputed(DefaultProfiles()[k]).totalScore == 411
  {
    var p := DefaultProfiles()[k];
    NewProfileScore(p.inputs);
  }

  predicate AllWellFormed(profiles: seq<Profile>) {
    forall k :: 0 <= k < |profiles| ==> WellFormed(profiles[k].inputs)
  }

  /** One profile's breakdown and total, computed by the calculator's methods. */
  method RecomputeProfile(profile: Profile) returns (q: Profile)
    requires WellFormed(profile.inputs)
    ensures q == Recomputed(profile)
  {
    var scores := CalculateScores(profile.inputs);
    var totalScore := TotalScore(scores);
    q := profile.(scores := Some(scores), totalScore := totalScore);
  }

  /** Every profile of `ps`, recomputed. */
  function RecomputedAll(ps: seq<Profile>): (qs: seq<Profile>)
    requires AllWellFormed(ps)
    ensures |qs| == |ps|
  {
    if ps == [] then [] else RecomputedAll(ps[..|ps| - 1]) + [Recomputed(ps[|ps| - 1])]
  }

  /** The `k`-th recomputed profile is the `k`-th profile recomputed. */
  lemma {:induction false} RecomputedAllAt(ps: seq<Profile>, k: int)
    requires AllWellFormed(ps)
    requires 0 <= k < |ps|
    ensures RecomputedAll(ps)[k] == Recomputed(ps[k])
    decreases |ps|
  {
    var init := ps[..|ps| - 1];
    assert AllWellFormed(init);
    if k < |ps| - 1 {
      assert init[k] == ps[k];
      RecomputedAllAt(init, k);
    }
  }

  /** Recomputing one more profile extends the recomputed prefix by one. */
  lemma RecomputedAllSnoc(ps: seq<Profile>, index: int)
    requires AllWellFormed(ps)
    requires 0 <= index < |ps|
    ensures AllWellFormed(ps[..index]) && AllWellFormed(ps[..index + 1])
    ensures RecomputedAll(ps[..index + 1]) == RecomputedAll(ps[..index]) + [Recomputed(ps[index])]
  {
    var prefix := ps[..index + 1];
    assert AllWellFormed(prefix);
    assert prefix[..index] == ps[..index];
    assert AllWellFormed(ps[..index]);
  }

  /** Overwriting the first element after a prefix of length `i`. */
  lemma UpdateAfterPrefix(a: seq<Profile>, s: seq<Profile>, i: int, x: Profile)
    requires |a| == i < |s|
    ensures (a + s[i..])[i := x] == a + [x] + s[i + 1..]
  {
  }

  /** Recomputes every profile's breakdown and total from its record. */
  method Recompute(profiles: array<Profile>)
    requires AllWellFormed(profiles[..])
    modifies profiles
    ensures forall k :: 0 <= k < profiles.Length ==> profiles[k] == Recomputed(old(profiles[k]))
  {
    ghost var initial := profiles[..];
    var index := 0;
    assert initial[..0] == [] && initial[0..] == initial;
    while index < profiles.Length
      invariant 0 <= index <= profiles.Length
      invariant AllWellFormed(initial[..index])
      invariant profiles[..] == RecomputedAll(initial[..index]) + initial[index..]
    {
      assert profiles[index] == initial[index];
      var q := RecomputeProfile(profiles[index]);
      RecomputedAllSnoc(initial, index);
      UpdateAfterPrefix(RecomputedAll(initial[..index]), initial, index, q);
      profiles[index] := q;
      index := index + 1;
    }
    assert initial[..index] == initial;
    forall k | 0 <= k < profiles.Length
      ensures profiles[k] == Recomputed(old(profiles[k]))
    {
      RecomputedAllAt(initial, k);
    }
  }

  /** Applies one form edit to the record of the profile at `profileIndex`; the
      breakdowns are left as they were until the next recomputation. */
  method HandleInputChange(profiles: array<Profile>, profileIndex: int, u: FieldUpdate)
    requires 0 <= profileIndex < profiles.Length
    requires WellTyped(u)
    modifies profiles
    ensures profiles[profileIndex] ==
      old(profiles[profileIndex]).(inputs := Apply(old(profiles[profileIndex].inputs), u))
    ensures forall k :: 0 <= k < profiles.Length && k != profileIndex ==> profiles[k] == old(profiles[k])
  {
    var profile := profiles[profileIndex];
    profiles[profileIndex] := profile.(inputs := Apply(profile.inputs, u));
  }

  /** Replacing one record by a well-formed one keeps every record well-formed. */
  lemma OneRecordChangedKeepsWellFormed(before: seq<Profile>, after: seq<Profile>, index: int)
    requires AllWellFormed(before)
    requires |after| == |before| && 0 <= index < |after|
    requires WellFormed(after[index].inputs)
    requires forall k :: 0 <= k < |after| && k != index ==> after[k] == before[k]
    ensures AllWellFormed(after)
  {
  }

  /** One edit followed by the recomputation it triggers: afterwards every profile
      is current, the edited record differs from before only in the edited field,
      and names and the other records are unchanged. */
  method Edit(profiles: array<Profile>, profileIndex: int, u: FieldUpdate)
    requires 0 <= profileIndex < profiles.Length
    requires WellTyped(u)
    requires AllWellFormed(profiles[..])
    requires WellFormed(Apply(profiles[profileIndex].inputs, u))
    modifies profiles
    ensures AllWellFormed(profiles[..])
    ensures forall k :: 0 <= k < profiles.Length ==> Current(profiles[k]) && profiles[k].name == old(profiles[k].name)
    ensures profiles[profileIndex].inputs == Apply(old(profiles[profileIndex].inputs), u)
    ensures forall k :: 0 <= k < profiles.Length && k != profileIndex ==> profiles[k].inputs == old(profiles[k].inputs)
  {
    ghost var before := profiles[..];
    HandleInputChange(profiles, profileIndex, u);
    OneRecordChangedKeepsWellFormed(before, profiles[..], profileIndex);
    Recompute(profiles);
  }

  /** Setting or clearing the provincial nomination of a profile and recomputing
      moves that profile's total by exactly 600. */
  lemma NominationToggleMovesTotal(p: Profile)
    requires WellFormed(p.inputs)
    ensures var on := Apply(p.inputs, Assign(ProvincialNomination, BoolValue(true)));
            var off := Apply(p.inputs, Assign(ProvincialNomination, BoolValue(false)));
            WellFormed(on) && WellFormed(off) &&
            Recomputed(p.(inputs := on)).totalScore == Recomputed(p.(inputs := off)).totalScore + 600
  {
    var on := Apply(p.inputs, Assign(ProvincialNomination, BoolValue(true)));
    var off := Apply(p.inputs, Assign(ProvincialNomination, BoolValue(false)));
    assert on == p.inputs.(provincialNomination := true);
    assert off == p.inputs.(provincialNomination := false);
    NominationTogglesSixHundred(p.inputs);
  }
}
