/** The pairwise scorer of the matching engine: a same-gender gate, two
    deliberately different sets of factor formulas (one for a male subject,
    one for a female subject), their weighted sums, recommendation tiers and
    the two rule-based explanation builders. */
module Matching {
  import opened Types
  import opened Text
  import opened JsMath

  const SameGenderExplanation := "Same gender - not compatible"
  const ZeroFactors := Factors(0.0, 0.0, 0.0, 0.0, 0.0, 0.0, 0.0)

  /** The income ratio divides by the subject's income (and, in the other
      direction, by the candidate's): a scored pairing of opposite genders
      needs both incomes positive. A same-gender pairing never divides. */
  predicate Scorable(customer: Customer, potentialMatch: Customer)
  {
    customer.gender != potentialMatch.gender ==> customer.income > 0 && potentialMatch.income > 0
  }

  // ---------------------------------------------------------------------
  // Entry point

  /** Scores `potentialMatch` for `customer`. Same gender is a hard gate,
      checked before anything else and before any division. */
  function CalculateMatch(customer: Customer, potentialMatch: Customer): (r: MatchScore)
    requires Scorable(customer, potentialMatch)
    ensures r.customerId == customer.id && r.matchId == potentialMatch.id
    ensures customer.gender == potentialMatch.gender ==>
      r == MatchScore(customer.id, potentialMatch.id, 0, SameGenderExplanation, ZeroFactors, Low)
    ensures customer.gender != potentialMatch.gender ==>
      WellFormedScore(customer.gender, r) && 29 <= r.score <= 99
    ensures customer.gender != potentialMatch.gender ==>
      r.factors == if customer.gender == Male then MaleFactors(customer, potentialMatch)
                   else FemaleFactors(customer, potentialMatch)
  {
    if customer.gender == potentialMatch.gender then
      MatchScore(customer.id, potentialMatch.id, 0, SameGenderExplanation, ZeroFactors, Low)
    else if customer.gender == Male then
      CalculateMaleMatch(customer, potentialMatch)
    else
      CalculateFemaleMatch(customer, potentialMatch)
  }

  /** The score reads the pair: for an opposite-gender pairing the age and
      values factors of the result follow the two profiles, from the
      subject's side. */
  lemma CalculateMatchReadsThePair(customer: Customer, potentialMatch: Customer)
    requires customer.gender != potentialMatch.gender
    requires customer.income > 0 && potentialMatch.income > 0
    ensures var r := CalculateMatch(customer, potentialMatch);
      && (r.factors.values == 90.0 <==> customer.religion == potentialMatch.religion)
      && (customer.gender == Male ==>
            (r.factors.age > 100.0 <==> 6 <= customer.age - potentialMatch.age <= 8))
      && (customer.gender == Female ==>
            (r.factors.age >= 85.0 <==> -1 <= potentialMatch.age - customer.age <= 7))
  {
  }

  /** What holds of every opposite-gender score: the score is the rounded
      weighted sum of its factors under the subject's weights, the tier comes
      from the same (unrounded) sum, the explanation from the factors, and
      every factor lies in the range its formulas allow. */
  predicate WellFormedScore(subjectGender: Gender, r: MatchScore)
  {
    match subjectGender
    case Male =>
      MaleFactorsInRange(r.factors)
      && r.score == Round(MaleTotal(r.factors))
      && r.recommendation == MaleTier(MaleTotal(r.factors))
      && r.explanation == GenerateMaleMatchExplanation(r.factors)
    case Female =>
      FemaleFactorsInRange(r.factors)
      && r.score == Round(FemaleTotal(r.factors))
      && r.recommendation == FemaleTier(FemaleTotal(r.factors))
      && r.explanation == GenerateFemaleMatchExplanation(r.factors)
  }

  // ---------------------------------------------------------------------
  // Male subject

  predicate MaleFactorsInRange(f: Factors)
  {
    30.0 <= f.age <= 106.0
    && 30.0 <= f.income < 95.0
    && 20.0 <= f.height <= 95.0
    && (f.children == 100.0 || f.children == 75.0 || f.children == 20.0)
    && (f.relocation == 100.0 || f.relocation == 85.0 || f.relocation == 60.0 || f.relocation == 25.0)
    && (f.profession == 50.0 || f.profession == 55.0 || f.profession == 70.0
        || f.profession == 85.0 || f.profession == 100.0)
    && (f.values == 90.0 || f.values == 50.0)
  }

  /** Age factor for a male subject, `ageDiff` = his age minus hers. It is
      not capped at 100: an age gap of 6 to 8 years scores above it. */
  function MaleAgeFactor(ageDiff: int): (r: real)
    ensures 30.0 <= r <= 106.0
    ensures r > 100.0 <==> 6 <= ageDiff <= 8
    ensures r >= 80.0 <==> -2 <= ageDiff <= 9
  {
    if -2 <= ageDiff <= 8 then
      (if ageDiff >= 0 then 90.0 + ageDiff as real * 2.0 else 80.0)
    else if ageDiff < -2 then
      MaxReal(40.0, 80.0 + ageDiff as real * 5.0)
    else
      MaxReal(30.0, 90.0 - (ageDiff - 8) as real * 8.0)
  }

  /** Income factor for a male subject; `ratio` is her income over his. */
  function MaleIncomeFactor(ratio: real): (r: real)
    ensures 30.0 <= r
    ensures ratio > 0.0 ==> r < 95.0
    ensures r >= 80.0 <==> ratio <= 0.75
  {
    if ratio <= 0.8 then 95.0 - ratio * 20.0
    else if ratio <= 1.0 then 75.0
    else MaxReal(30.0, 75.0 - (ratio - 1.0) * 100.0)
  }

  /** A male subject's income factor never rises as her share of income rises. */
  lemma MaleIncomeFactorNonIncreasing(ratio1: real, ratio2: real)
    requires ratio1 <= ratio2
    ensures MaleIncomeFactor(ratio1) >= MaleIncomeFactor(ratio2)
  {
  }

  /** Height factor; `heightDiff` is the man's height minus the woman's. */
  function MaleHeightFactor(heightDiff: int): (r: real)
    ensures 20.0 <= r <= 95.0
    ensures r == 95.0 <==> 5 <= heightDiff <= 20
  {
    if 5 <= heightDiff <= 20 then 95.0
    else if heightDiff >= 0 then 80.0
    else MaxReal(20.0, 70.0 + heightDiff as real * 2.0)
  }

  function MaleChildrenFactor(male: Preference, female: Preference): (r: real)
    ensures r == 100.0 || r == 75.0 || r == 20.0
    ensures r == 100.0 <==> male == female
    ensures r == 20.0 <==> (male == Yes && female == No) || (male == No && female == Yes)
  {
    if male == female then 100.0
    else if male == Maybe || female == Maybe then 75.0
    else assert male.Yes? || male.No?; 20.0
  }

  function MaleRelocationFactor(male: Customer, female: Customer): (r: real)
    ensures r == 100.0 || r == 85.0 || r == 60.0 || r == 25.0
    ensures r == 100.0 <==> male.city == female.city
    ensures r == 85.0 <==> male.city != female.city && (male.openToRelocate == Yes || female.openToRelocate == Yes)
    ensures r == 25.0 <==> male.city != female.city && male.openToRelocate == No && female.openToRelocate == No
  {
    if male.city == female.city then 100.0
    else if male.openToRelocate == Yes || female.openToRelocate == Yes then 85.0
    else if male.openToRelocate == Maybe || female.openToRelocate == Maybe then 60.0
    else assert male.openToRelocate.No? && female.openToRelocate.No?; 25.0
  }

  /** The lower edges of income bands 2 to 5. */
  const IncomeBandBoundaries: seq<int> := [500000, 1000000, 1500000, 2000000]

  /** A five-tier bucket of annual income: the band is one more than the
      number of boundaries the income has reached. */
  function GetIncomeBand(income: int): (band: int)
    ensures 1 <= band <= 5
    ensures forall k :: 0 <= k < |IncomeBandBoundaries| ==>
      (band > k + 1 <==> income >= IncomeBandBoundaries[k])
  {
    if income < 500000 then 1
    else if income < 1000000 then 2
    else if income < 1500000 then 3
    else if income < 2000000 then 4
    else 5
  }

  /** A higher income never falls into a lower band. */
  lemma IncomeBandMonotone(lower: int, higher: int)
    requires lower <= higher
    ensures GetIncomeBand(lower) <= GetIncomeBand(higher)
  {
  }

  function MaleProfessionFactor(maleIncome: int, femaleIncome: int): (r: real)
    ensures r == 50.0 || r == 55.0 || r == 70.0 || r == 85.0 || r == 100.0
    ensures r == 100.0 <==> GetIncomeBand(maleIncome) == GetIncomeBand(femaleIncome)
  {
    MaxReal(50.0, 100.0 - Abs(GetIncomeBand(maleIncome) - GetIncomeBand(femaleIncome)) as real * 15.0)
  }

  /** Values factor. The source's "both Hindu" branch follows the equality
      test and can never be taken, so 80 is never produced. */
  function MaleValuesFactor(maleReligion: string, femaleReligion: string): (r: real)
    ensures r == 90.0 || r == 50.0
    ensures r == 90.0 <==> maleReligion == femaleReligion
  {
    if maleReligion == femaleReligion then 90.0
    else if maleReligion == "Hindu" && femaleReligion == "Hindu" then 80.0
    else 50.0
  }

  function MaleFactors(male: Customer, female: Customer): (f: Factors)
    requires male.income > 0 && female.income > 0
    ensures MaleFactorsInRange(f)
  {
    var ratio := female.income as real / male.income as real;
    assert ratio > 0.0;
    Factors(
      MaleAgeFactor(male.age - female.age),
      MaleIncomeFactor(ratio),
      MaleHeightFactor(male.height - female.height),
      MaleChildrenFactor(male.wantKids, female.wantKids),
      MaleRelocationFactor(male, female),
      MaleProfessionFactor(male.income, female.income),
      MaleValuesFactor(male.religion, female.religion))
  }

  /** The weighted sum for a male subject: weights .20 .15 .15 .20 .15 .10 .05. */
  function MaleTotal(f: Factors): (total: real)
    ensures MaleFactorsInRange(f) ==> 28.75 <= total < 99.2
  {
    f.age * 0.20 + f.income * 0.15 + f.height * 0.15 + f.children * 0.20
    + f.relocation * 0.15 + f.profession * 0.10 + f.values * 0.05
  }

  /** The male-subject tier: high from 80, medium from 60. */
  function MaleTier(total: real): (r: Recommendation)
    ensures r == High <==> total >= 80.0
    ensures r == Low <==> total < 60.0
  {
    if total >= 80.0 then High else if total >= 60.0 then Medium else Low
  }

  function CalculateMaleMatch(male: Customer, female: Customer): (r: MatchScore)
    requires male.income > 0 && female.income > 0
    ensures r.customerId == male.id && r.matchId == female.id
    ensures r.factors == MaleFactors(male, female)
    ensures WellFormedScore(Male, r)
    ensures 29 <= r.score <= 99
    ensures r.recommendation == High ==> r.score >= 80
    ensures r.recommendation == Medium ==> 60 <= r.score <= 80
    ensures r.recommendation == Low ==> r.score <= 60
    ensures r.score >= 81 ==> r.recommendation == High
    ensures 61 <= r.score <= 79 ==> r.recommendation == Medium
    ensures r.score <= 59 ==> r.recommendation == Low
  {
    var factors := MaleFactors(male, female);
    var totalScore := MaleTotal(factors);
    MatchScore(male.id, female.id, Round(totalScore), GenerateMaleMatchExplanation(factors),
               factors, MaleTier(totalScore))
  }

  // ---------------------------------------------------------------------
  // Female subject

  predicate FemaleFactorsInRange(f: Factors)
  {
    30.0 <= f.age <= 100.0
    && 40.0 <= f.income <= 100.0
    && 30.0 <= f.height <= 95.0
    && (f.children == 100.0 || f.children == 75.0 || f.children == 25.0)
    && (f.relocation == 100.0 || f.relocation == 85.0 || f.relocation == 80.0
        || f.relocation == 60.0 || f.relocation == 30.0)
    && (f.profession == 76.0 || f.profession == 88.0 || f.profession == 100.0)
    && (f.values == 90.0 || f.values == 55.0)
  }

  /** Age factor for a female subject, `ageDiff` = his age minus hers. */
  function FemaleAgeFactor(ageDiff: int): (r: real)
    ensures 30.0 <= r <= 100.0
    ensures r >= 85.0 <==> -1 <= ageDiff <= 7
  {
    if -1 <= ageDiff <= 7 then
      (if ageDiff >= 0 then 90.0 + MinReal(ageDiff as real * 2.0, 10.0) else 85.0)
    else
      MaxReal(30.0, 85.0 - Abs(ageDiff - 3) as real * 8.0)
  }

  /** Income factor for a female subject; `ratio` is his income over hers. */
  function FemaleIncomeFactor(ratio: real): (r: real)
    ensures 40.0 <= r <= 100.0
  {
    if ratio >= 1.2 then MinReal(100.0, 70.0 + (ratio - 1.0) * 30.0)
    else if ratio >= 1.0 then 85.0
    else MaxReal(40.0, 85.0 - (1.0 - ratio) * 80.0)
  }

  /** The female-subject income factor is not monotone: a man earning 1.0 to
      1.2 times her income scores strictly more than one earning 1.2 to 1.5
      times it. */
  lemma FemaleIncomeFactorDropsAtOnePointTwo(lower: real, higher: real)
    requires 1.0 <= lower < 1.2 <= higher < 1.5
    ensures FemaleIncomeFactor(lower) > FemaleIncomeFactor(higher)
  {
  }

  function FemaleHeightFactor(heightDiff: int): (r: real)
    ensures 30.0 <= r <= 95.0
    ensures r == 95.0 <==> 5 <= heightDiff <= 20
  {
    if 5 <= heightDiff <= 20 then 95.0
    else if heightDiff >= 0 then 80.0
    else MaxReal(30.0, 70.0 + heightDiff as real * 3.0)
  }

  function FemaleChildrenFactor(female: Preference, male: Preference): (r: real)
    ensures r == 100.0 || r == 75.0 || r == 25.0
    ensures r == 100.0 <==> female == male
    ensures r == 25.0 <==> (female == Yes && male == No) || (female == No && male == Yes)
  {
    if female == male then 100.0
    else if female == Maybe || male == Maybe then 75.0
    else assert female.Yes? || female.No?; 25.0
  }

  /** Relocation for a female subject: her own "yes" is checked before his,
      and scores higher. */
  function FemaleRelocationFactor(female: Customer, male: Customer): (r: real)
    ensures r == 100.0 || r == 85.0 || r == 80.0 || r == 60.0 || r == 30.0
    ensures r == 100.0 <==> female.city == male.city
    ensures r == 85.0 <==> female.city != male.city && female.openToRelocate == Yes
    ensures r == 80.0 <==> female.city != male.city && female.openToRelocate != Yes && male.openToRelocate == Yes
    ensures r == 30.0 <==> female.city != male.city && female.openToRelocate == No && male.openToRelocate == No
  {
    if female.city == male.city then 100.0
    else if female.openToRelocate == Yes then 85.0
    else if male.openToRelocate == Yes then 80.0
    else if female.openToRelocate == Maybe || male.openToRelocate == Maybe then 60.0
    else assert female.openToRelocate.No? && male.openToRelocate.No?; 30.0
  }

  predicate SeniorTitle(lowered: string)
  {
    Contains(lowered, "lead") || Contains(lowered, "manager") || Contains(lowered, "senior")
  }

  predicate MidTitle(lowered: string)
  {
    Contains(lowered, "developer") || Contains(lowered, "analyst")
  }

  /** Career level from the job title, case-insensitively: 3 for a lead,
      manager or senior title, 2 for a developer or analyst, 1 otherwise. */
  function GetCareerLevel(designation: string): (level: int)
    ensures 1 <= level <= 3
    ensures level == 3 <==> SeniorTitle(ToLower(designation))
    ensures level == 1 <==> !SeniorTitle(ToLower(designation)) && !MidTitle(ToLower(designation))
  {
    var designationLower := ToLower(designation);
    if SeniorTitle(designationLower) then 3
    else if MidTitle(designationLower) then 2
    else 1
  }

  /** A senior word wins over a developer or analyst word in the same title. */
  lemma SeniorWinsOverDeveloper(designation: string)
    requires Contains(ToLower(designation), "senior")
    requires Contains(ToLower(designation), "developer")
    ensures GetCareerLevel(designation) == 3
  {
  }

  /** The seniority test ignores case: "Senior" written with any mix of
      capitals, anywhere in a title, makes the title level 3. */
  lemma CapitalisedSeniorIsLevelThree(front: string, word: string, back: string)
    requires ToLower(word) == "senior"
    ensures GetCareerLevel(front + word + back) == 3
  {
    var designation := front + word + back;
    var lower := ToLower(designation);
    assert lower[|front|..|front| + 6] == "senior" by {
      forall k | 0 <= k < 6
        ensures lower[|front| + k] == ToLower(word)[k]
      {
        assert designation[|front| + k] == word[k];
      }
    }
    assert OccursAt(lower, "senior", |front|);
  }

  /** Lower-casing a title first does not change its level. */
  lemma CareerLevelIgnoresCase(designation: string)
    ensures GetCareerLevel(ToLower(designation)) == GetCareerLevel(designation)
  {
    assert ToLower(ToLower(designation)) == ToLower(designation);
  }

  function FemaleProfessionFactor(female: Customer, male: Customer): (r: real)
    ensures r == 76.0 || r == 88.0 || r == 100.0
    ensures r == 100.0 <==> GetCareerLevel(female.designation) == GetCareerLevel(male.designation)
  {
    var careerBalance := Abs(GetCareerLevel(female.designation) - GetCareerLevel(male.designation));
    MaxReal(60.0, 100.0 - careerBalance as real * 12.0)
  }

  function FemaleValuesFactor(femaleReligion: string, maleReligion: string): (r: real)
    ensures r == 90.0 || r == 55.0
    ensures r == 90.0 <==> femaleReligion == maleReligion
  {
    if femaleReligion == maleReligion then 90.0 else 55.0
  }

  function FemaleFactors(female: Customer, male: Customer): (f: Factors)
    requires female.income > 0 && male.income > 0
    ensures FemaleFactorsInRange(f)
  {
    Factors(
      FemaleAgeFactor(male.age - female.age),
      FemaleIncomeFactor(male.income as real / female.income as real),
      FemaleHeightFactor(male.height - female.height),
      FemaleChildrenFactor(female.wantKids, male.wantKids),
      FemaleRelocationFactor(female, male),
      FemaleProfessionFactor(female, male),
      FemaleValuesFactor(female.religion, male.religion))
  }

  /** The weighted sum for a female subject: weights .18 .18 .12 .22 .15 .10 .05. */
  function FemaleTotal(f: Factors): (total: real)
    ensures FemaleFactorsInRange(f) ==> 36.55 <= total <= 98.9
  {
    f.age * 0.18 + f.income * 0.18 + f.height * 0.12 + f.children * 0.22
    + f.relocation * 0.15 + f.profession * 0.10 + f.values * 0.05
  }

  /** The female-subject tier: high from 80, medium from 65. */
  function FemaleTier(total: real): (r: Recommendation)
    ensures r == High <==> total >= 80.0
    ensures r == Low <==> total < 65.0
  {
    if total >= 80.0 then High else if total >= 65.0 then Medium else Low
  }

  function CalculateFemaleMatch(female: Customer, male: Customer): (r: MatchScore)
    requires female.income > 0 && male.income > 0
    ensures r.customerId == female.id && r.matchId == male.id
    ensures r.factors == FemaleFactors(female, male)
    ensures WellFormedScore(Female, r)
    ensures 37 <= r.score <= 99
    ensures r.recommendation == High ==> r.score >= 80
    ensures r.recommendation == Medium ==> 65 <= r.score <= 80
    ensures r.recommendation == Low ==> r.score <= 65
    ensures r.score >= 81 ==> r.recommendation == High
    ensures 66 <= r.score <= 79 ==> r.recommendation == Medium
    ensures r.score <= 64 ==> r.recommendation == Low
  {
    var factors := FemaleFactors(female, male);
    var totalScore := FemaleTotal(factors);
    MatchScore(female.id, male.id, Round(totalScore), GenerateFemaleMatchExplanation(factors),
               factors, FemaleTier(totalScore))
  }

  /** Both weight vectors sum to one: a pairing that scores `x` on every
      factor scores `x` overall. */
  lemma WeightsSumToOne(x: real)
    ensures MaleTotal(Factors(x, x, x, x, x, x, x)) == x
    ensures FemaleTotal(Factors(x, x, x, x, x, x, x)) == x
  {
  }

  // ---------------------------------------------------------------------
  // Explanations

  const StrongPrefix := "Strong match potential: "
  const MixedPrefix := "Mixed compatibility: "

  /** The strengths a male-subject explanation lists, in the order checked. */
  function MaleStrengths(f: Factors): (r: seq<string>)
    ensures |r| <= 5
    ensures "Good height compatibility" in r <==> f.height >= 85.0
    ensures "Location compatibility" in r <==> f.relocation >= 80.0
  {
    (if f.age >= 80.0 then ["Ideal age gap"] else [])
    + (if f.income >= 80.0 then ["Compatible income levels"] else [])
    + (if f.height >= 85.0 then ["Good height compatibility"] else [])
    + (if f.children >= 90.0 then ["Aligned on having children"] else [])
    + (if f.relocation >= 80.0 then ["Location compatibility"] else [])
  }

  /** The concerns: only age, income and children can raise one. */
  function MaleConcerns(f: Factors): (r: seq<string>)
    ensures |r| <= 3
    ensures f.age >= 60.0 && f.income >= 60.0 && f.children >= 50.0 ==> r == []
  {
    (if f.age >= 80.0 then [] else if f.age < 60.0 then ["Age difference may be challenging"] else [])
    + (if f.income >= 80.0 then [] else if f.income < 60.0 then ["Significant income disparity"] else [])
    + (if f.children >= 90.0 then [] else if f.children < 50.0 then ["Different views on children"] else [])
  }

  /** The explanation for a male subject opens "Strong match potential: "
      exactly when strengths outnumber concerns, and "Mixed compatibility: "
      otherwise. */
  function GenerateMaleMatchExplanation(f: Factors): (r: string)
    ensures StrongPrefix <= r <==> |MaleStrengths(f)| > |MaleConcerns(f)|
    ensures MixedPrefix <= r <==> |MaleStrengths(f)| <= |MaleConcerns(f)|
  {
    var strengths, concerns := MaleStrengths(f), MaleConcerns(f);
    if |strengths| > |concerns| then
      var r := StrongPrefix + Join(strengths, ", ");
      assert r[0] != MixedPrefix[0];
      r
    else
      var r := MixedPrefix + Join(concerns, ", ") + " but " + Join(strengths, ", ");
      assert r[0] != StrongPrefix[0];
      r
  }

  /** Each factor the male-subject explanation inspects lands in the
      strengths on one side of its thresholds, in the concerns on the other,
      and in neither between them: first the age factor, */
  lemma MaleExplanationClassifiesAge(f: Factors)
    ensures "Ideal age gap" in MaleStrengths(f) <==> f.age >= 80.0
    ensures "Age difference may be challenging" in MaleConcerns(f) <==> f.age < 60.0
  {
  }

  /** then the income factor, */
  lemma MaleExplanationClassifiesIncome(f: Factors)
    ensures "Compatible income levels" in MaleStrengths(f) <==> f.income >= 80.0
    ensures "Significant income disparity" in MaleConcerns(f) <==> f.income < 60.0
  {
  }

  /** and the children factor. */
  lemma MaleExplanationClassifiesChildren(f: Factors)
    ensures "Aligned on having children" in MaleStrengths(f) <==> f.children >= 90.0
    ensures "Different views on children" in MaleConcerns(f) <==> f.children < 50.0
  {
  }

  const ExcellentPrefix := "Excellent match: "
  const ModeratePrefix := "Moderate compatibility with "
  const FallbackExplanation := "Moderate compatibility with some challenges"

  /** The strengths a female-subject explanation considers, in the order
      checked; "Career balance", when present, is the last. */
  function FemaleStrengths(f: Factors): (r: seq<string>)
    ensures |r| <= 6
    ensures f.profession >= 70.0 ==> |r| > 0 && r[|r| - 1] == "Career balance"
  {
    (if f.age >= 80.0 then ["Good age compatibility"] else [])
    + (if f.income >= 80.0 then ["Financial stability"] else [])
    + (if f.height >= 85.0 then ["Height compatibility"] else [])
    + (if f.children >= 90.0 then ["Shared family goals"] else [])
    + (if f.relocation >= 80.0 then ["Location flexibility"] else [])
    + (if f.profession >= 70.0 then ["Career balance"] else [])
  }

  /** Computed by the female-subject explanation builder and never used. */
  function FemaleConcerns(f: Factors): (r: seq<string>)
    ensures |r| <= 2
    ensures r == [] <==> f.income >= 60.0 && f.children >= 50.0
  {
    (if f.income < 60.0 then ["Income concerns"] else [])
    + (if f.children < 50.0 then ["Different family plans"] else [])
  }

  /** The female-subject explanation of a list of strengths: "Excellent
      match: " and the first three when there are at least three, otherwise
      "Moderate compatibility with " and all of them, or "some challenges"
      when there are none. */
  function ExplainStrengths(strengths: seq<string>): (r: string)
    ensures ExcellentPrefix <= r <==> |strengths| >= 3
    ensures ModeratePrefix <= r <==> |strengths| < 3
  {
    if |strengths| >= 3 then
      var r := ExcellentPrefix + Join(strengths[..3], ", ");
      assert r[0] != ModeratePrefix[0];
      r
    else
      var r := ModeratePrefix + (if |strengths| > 0 then Join(strengths, ", ") else "some challenges");
      assert r[0] != ExcellentPrefix[0];
      r
  }

  /** With three or more strengths the explanation names exactly the first
      three, separated by commas, and nothing else. */
  lemma ExcellentListsFirstThree(strengths: seq<string>)
    requires |strengths| >= 3
    ensures ExplainStrengths(strengths)
            == ExcellentPrefix + strengths[0] + ", " + strengths[1] + ", " + strengths[2]
  {
    JoinOfFirstThree(strengths, ", ");
  }

  /** The explanation for a female subject, from her strengths alone. */
  function GenerateFemaleMatchExplanation(f: Factors): (r: string)
    ensures ExcellentPrefix <= r <==> |FemaleStrengths(f)| >= 3
    ensures ModeratePrefix <= r <==> |FemaleStrengths(f)| < 3
  {
    ExplainStrengths(FemaleStrengths(f))
  }

  /** The concerns play no part: two factor sets with the same strengths get
      the same female-subject explanation, whatever their concerns. */
  lemma FemaleExplanationIgnoresConcerns(f: Factors, g: Factors)
    requires FemaleStrengths(f) == FemaleStrengths(g)
    ensures GenerateFemaleMatchExplanation(f) == GenerateFemaleMatchExplanation(g)
  {
  }

  /** A profession factor of at least 70 puts "Career balance" among the
      strengths, so the "some challenges" fallback cannot appear. */
  lemma CareerBalanceRulesOutFallback(f: Factors)
    requires f.profession >= 70.0
    ensures "Career balance" in FemaleStrengths(f)
    ensures GenerateFemaleMatchExplanation(f) != FallbackExplanation
  {
    var strengths := FemaleStrengths(f);
    if |strengths| < 3 {
      assert strengths[0] <= Join(strengths, ", ");
      var e := GenerateFemaleMatchExplanation(f);
      assert e[|ModeratePrefix|] == strengths[0][0];
      assert FallbackExplanation[|ModeratePrefix|] == 's';
    }
  }

  /** For a real female-subject pairing the profession factor is at least 76,
      so "Career balance" is always a strength and the "some challenges"
      fallback never appears. */
  lemma CareerBalanceAlwaysListed(female: Customer, male: Customer)
    requires female.income > 0 && male.income > 0
    ensures "Career balance" in FemaleStrengths(FemaleFactors(female, male))
    ensures GenerateFemaleMatchExplanation(FemaleFactors(female, male)) != FallbackExplanation
  {
    CareerBalanceRulesOutFallback(FemaleFactors(female, male));
  }

  // ---------------------------------------------------------------------
  // Worked examples

  /** Example pairing: a 30-year-old man earning 1,000,000 (175 cm) and a
      27-year-old woman earning 700,000 (160 cm), same city, same answers,
      same religion: a total of 93.6, score 94 and a high recommendation. */
  lemma MaleSubjectScenario()
    ensures var male := Customer("m1", "Arjun", "Rao", Male, 30, "Mumbai", 175, "IIT Bombay", "B.Tech",
                                 1000000, "Google", "Senior Developer", ["Hindi"], 1, "Hindu",
                                 Yes, Yes, Yes);
            var female := Customer("f1", "Priya", "Iyer", Female, 27, "Mumbai", 160, "NIT Trichy", "MBA",
                                   700000, "TCS", "Analyst", ["Hindi"], 1, "Hindu",
                                   Yes, Yes, Yes);
            var r := CalculateMatch(male, female);
            r.factors == Factors(96.0, 81.0, 95.0, 100.0, 100.0, 85.0, 90.0)
            && r.score == 94 && r.recommendation == High
  {
  }

  /** The tier is taken from the unrounded sum: a total of 79.7 rounds to a
      score of 80 yet is recommended "medium". */
  lemma RoundedEightyCanBeMedium()
    ensures var male := Customer("m2", "Karan", "Shah", Male, 30, "Delhi", 175, "DU", "B.Com",
                                 1000000, "Wipro", "Manager", [], 2, "Hindu",
                                 Yes, Yes, No);
            var female := Customer("f2", "Neha", "Das", Female, 27, "Pune", 165, "COEP", "B.E.",
                                   1350000, "Infosys", "Lead", [], 0, "Jain",
                                   Maybe, No, No);
            var r := CalculateMatch(male, female);
            MaleTotal(r.factors) == 79.7 && r.score == 80 && r.recommendation == Medium
  {
  }
}
