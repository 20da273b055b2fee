/** The rule-based "AI" layer: a post-processing pass that adds two small
    capped bonuses to a base score, and an introduction builder with up to
    four highlights, one of three templates and a closing sentence. */
module AIService {
  import opened Types
  import opened Text
  import opened JsMath

  // ---------------------------------------------------------------------
  // Lookups

  const LargeEmployers: seq<string> :=
    ["Google", "Microsoft", "Amazon", "TCS", "Infosys", "Wipro", "Accenture"]

  datatype CompanySize = LargeCorp | MediumCorp | SmallCorp

  /** A closed allow-list: a listed employer is large, anything else medium.
      "small" is declared by the source but never returned. */
  function GetCompanySize(company: string): (r: CompanySize)
    ensures r == LargeCorp <==> company in LargeEmployers
    ensures r != SmallCorp
  {
    if company in LargeEmployers then LargeCorp else MediumCorp
  }

  const TopTierInstitutions: seq<string> := ["IIT", "IIM", "BITS", "NIT", "IIIT"]

  /** Whether the college name contains one of the listed institution names. */
  function IsTopTierEducation(college: string): (r: bool)
    ensures r <==> Contains(college, "IIT") || Contains(college, "IIM")
                   || Contains(college, "BITS") || Contains(college, "NIT")
  {
    var r := exists k :: 0 <= k < |TopTierInstitutions| && Contains(college, TopTierInstitutions[k]);
    assert TopTierInstitutions[4] == "IIIT";
    IIITContainsIIT(college);
    assert r <==> Contains(college, TopTierInstitutions[0]) || Contains(college, TopTierInstitutions[1])
                  || Contains(college, TopTierInstitutions[2]) || Contains(college, TopTierInstitutions[3])
                  || Contains(college, TopTierInstitutions[4]);
    r
  }

  /** "IIIT" on the allow-list adds nothing: every name containing it
      contains "IIT". */
  lemma IIITContainsIIT(college: string)
    ensures Contains(college, "IIIT") ==> Contains(college, "IIT")
  {
    if Contains(college, "IIIT") {
      ContainsPiece(college, "IIIT", 1, 4);
      assert "IIIT"[1..4] == "IIT";
    }
  }

  // ---------------------------------------------------------------------
  // Bonuses

  /** How many of `languages` (counting repeats) appear in `others`: the
      length of `languages.filter(l => others.includes(l))`. */
  function CommonLanguageCount(languages: seq<string>, others: seq<string>): (n: nat)
    ensures n <= |languages|
  {
    if languages == [] then 0
    else
      var init, last := languages[..|languages| - 1], languages[|languages| - 1];
      CommonLanguageCount(init, others) + (if last in others then 1 else 0)
  }

  /** No language is shared exactly when the count is zero, and every one
      is exactly when the count is the full length. */
  lemma {:induction false} CommonLanguageCountExtremes(languages: seq<string>, others: seq<string>)
    ensures CommonLanguageCount(languages, others) == 0
            <==> forall k :: 0 <= k < |languages| ==> languages[k] !in others
    ensures CommonLanguageCount(languages, others) == |languages|
            <==> forall k :: 0 <= k < |languages| ==> languages[k] in others
  {
    if languages != [] {
      var init := languages[..|languages| - 1];
      CommonLanguageCountExtremes(init, others);
      assert forall k :: 0 <= k < |init| ==> init[k] == languages[k];
    }
  }

  /** +3 when the subject's degree mentions an MBA and the candidate's a
      B.Tech, +2 when the two degrees are the same string. */
  function DegreeBonus(customer: Customer, matchProfile: Customer): (r: int)
    ensures r == 0 || r == 2 || r == 3 || r == 5
    ensures r >= 3 <==> Contains(customer.degree, "MBA") && Contains(matchProfile.degree, "B.Tech")
    ensures r % 3 == 2 <==> customer.degree == matchProfile.degree
  {
    (if Contains(customer.degree, "MBA") && Contains(matchProfile.degree, "B.Tech") then 3 else 0)
    + (if customer.degree == matchProfile.degree then 2 else 0)
  }

  /** The personality bonus: degree bonus plus 2 per shared language,
      capped at 8. An odd bonus below the cap can only come from the
      MBA/B.Tech pairing. */
  function PersonalityBonus(customer: Customer, matchProfile: Customer): (r: int)
    ensures 0 <= r <= 8
    ensures r < 8 ==> r == DegreeBonus(customer, matchProfile)
                             + 2 * CommonLanguageCount(customer.languagesKnown, matchProfile.languagesKnown)
    ensures r == 8 <==> DegreeBonus(customer, matchProfile)
                        + 2 * CommonLanguageCount(customer.languagesKnown, matchProfile.languagesKnown) >= 8
    ensures r % 2 == 1 ==> Contains(customer.degree, "MBA") && Contains(matchProfile.degree, "B.Tech")
  {
    MinInt(8, DegreeBonus(customer, matchProfile)
              + 2 * CommonLanguageCount(customer.languagesKnown, matchProfile.languagesKnown))
  }

  /** Four shared languages alone reach the cap. */
  lemma FourSharedLanguagesSaturate(customer: Customer, matchProfile: Customer)
    requires CommonLanguageCount(customer.languagesKnown, matchProfile.languagesKnown) >= 4
    ensures PersonalityBonus(customer, matchProfile) == 8
  {
  }

  /** Accumulates the personality bonus step by step, counting the shared
      languages with a loop. */
  method AnalyzePersonalityCompatibility(customer: Customer, matchProfile: Customer) returns (bonus: int)
    ensures bonus == PersonalityBonus(customer, matchProfile)
  {
    bonus := 0;
    if Contains(customer.degree, "MBA") && Contains(matchProfile.degree, "B.Tech") {
      bonus := bonus + 3;
    }
    if customer.degree == matchProfile.degree {
      bonus := bonus + 2;
    }
    var languages := customer.languagesKnown;
    var commonLanguages := 0;
    var i := 0;
    while i < |languages|
      invariant 0 <= i <= |languages|
      invariant commonLanguages == CommonLanguageCount(languages[..i], matchProfile.languagesKnown)
    {
      assert languages[..i + 1][..i] == languages[..i];
      if languages[i] in matchProfile.languagesKnown {
        commonLanguages := commonLanguages + 1;
      }
      i := i + 1;
    }
    assert languages[..i] == languages;
    bonus := bonus + commonLanguages * 2;
    bonus := MinInt(8, bonus);
  }

  /** The lifestyle bonus: +2 for the same answer on pets, +2 for sibling
      counts at most one apart, +1 for employers of the same size bucket,
      capped at 6. The sum never exceeds 5, so the cap never binds. */
  function LifestyleBonus(customer: Customer, matchProfile: Customer): (r: int)
    ensures 0 <= r <= 5
    ensures r % 2 == 1 <==> GetCompanySize(customer.currentCompany) == GetCompanySize(matchProfile.currentCompany)
    ensures r >= 4 <==> customer.openToPets == matchProfile.openToPets
                        && Abs(customer.siblings - matchProfile.siblings) <= 1
    ensures r == 0 <==> customer.openToPets != matchProfile.openToPets
                        && Abs(customer.siblings - matchProfile.siblings) > 1
                        && GetCompanySize(customer.currentCompany) != GetCompanySize(matchProfile.currentCompany)
  {
    MinInt(6, (if customer.openToPets == matchProfile.openToPets then 2 else 0)
              + (if Abs(customer.siblings - matchProfile.siblings) <= 1 then 2 else 0)
              + (if GetCompanySize(customer.currentCompany) == GetCompanySize(matchProfile.currentCompany) then 1 else 0))
  }

  /** Accumulates the lifestyle bonus step by step. */
  method AnalyzeLifestyleCompatibility(customer: Customer, matchProfile: Customer) returns (bonus: int)
    ensures bonus == LifestyleBonus(customer, matchProfile)
  {
    bonus := 0;
    if customer.openToPets == matchProfile.openToPets {
      bonus := bonus + 2;
    }
    var siblingDiff := Abs(customer.siblings - matchProfile.siblings);
    if siblingDiff <= 1 {
      bonus := bonus + 2;
    }
    var customerCorpSize := GetCompanySize(customer.currentCompany);
    var matchCorpSize := GetCompanySize(matchProfile.currentCompany);
    if customerCorpSize == matchCorpSize {
      bonus := bonus + 1;
    }
    bonus := MinInt(6, bonus);
  }

  const PersonalityNote := " Strong personality alignment detected."
  const LifestyleNote := " Complementary lifestyle preferences."

  /** Adds the two bonuses to the base score, capped at 100, and appends the
      personality note when that bonus exceeds 5. Every other field is
      copied from the base score; the recommendation is not recomputed. The
      lifestyle note is never appended, as that bonus never exceeds 5. */
  method EnhanceMatchScore(baseScore: MatchScore, customer: Customer, matchProfile: Customer) returns (r: MatchScore)
    ensures r.score == MinInt(100, baseScore.score + PersonalityBonus(customer, matchProfile) + LifestyleBonus(customer, matchProfile))
    ensures r.score <= 100
    ensures baseScore.score <= 100 ==> r.score >= baseScore.score
    ensures r.explanation == baseScore.explanation
                             + (if PersonalityBonus(customer, matchProfile) >= 6 then PersonalityNote else "")
    ensures r.customerId == baseScore.customerId && r.matchId == baseScore.matchId
    ensures r.factors == baseScore.factors && r.recommendation == baseScore.recommendation
  {
    var enhancedScore := baseScore.score;
    var enhancedExplanation := baseScore.explanation;
    var personalityFactors := AnalyzePersonalityCompatibility(customer, matchProfile);
    var lifestyleFactors := AnalyzeLifestyleCompatibility(customer, matchProfile);
    enhancedScore := MinInt(100, enhancedScore + personalityFactors + lifestyleFactors);
    if personalityFactors > 5 {
      enhancedExplanation := enhancedExplanation + PersonalityNote;
    }
    if lifestyleFactors > 5 {
      enhancedExplanation := enhancedExplanation + LifestyleNote;
    }
    RoundOfInteger(enhancedScore);
    r := baseScore.(score := Round(enhancedScore as real), explanation := enhancedExplanation);
  }

  // ---------------------------------------------------------------------
  // Highlights

  /** The kinds of highlight, in the order the builder considers them. */
  datatype Highlight =
    | AgeGap(years: nat)
    | EstablishedProfessionals
    | SameCity(city: string)
    | OpenToRelocation
    | PremierEducation
    | AlignedFamilyPlanning
    | ComplementaryCareers

  function HighlightText(h: Highlight): string
  {
    match h
    case AgeGap(years) => "Perfect age compatibility (" + IntToString(years) + " year difference)"
    case EstablishedProfessionals => "Both are established professionals in their fields"
    case SameCity(city) => "Both based in " + city
    case OpenToRelocation => "Open to relocation for the right match"
    case PremierEducation => "Both from premier educational institutions"
    case AlignedFamilyPlanning => "Aligned family planning goals"
    case ComplementaryCareers => "Complementary career aspirations"
  }

  /** The position of each kind in the builder's fixed order. */
  function Priority(h: Highlight): nat
  {
    match h
    case AgeGap(_) => 0
    case EstablishedProfessionals => 1
    case SameCity(_) => 2
    case OpenToRelocation => 3
    case PremierEducation => 4
    case AlignedFamilyPlanning => 5
    case ComplementaryCareers => 6
  }

  predicate InPriorityOrder(hs: seq<Highlight>)
  {
    forall i, j :: 0 <= i < j < |hs| ==> Priority(hs[i]) < Priority(hs[j])
  }

  function AgeHighlight(customer: Customer, matchProfile: Customer, matchScore: MatchScore): (r: seq<Highlight>)
    ensures |r| <= 1 && (r != [] <==> matchScore.factors.age >= 85.0)
    ensures forall h :: h in r ==> Priority(h) == 0
  {
    if matchScore.factors.age >= 85.0 then [AgeGap(Abs(customer.age - matchProfile.age))] else []
  }

  function ProfessionHighlight(matchScore: MatchScore): (r: seq<Highlight>)
    ensures |r| <= 1 && (r != [] <==> matchScore.factors.profession >= 75.0)
    ensures forall h :: h in r ==> Priority(h) == 1
  {
    if matchScore.factors.profession >= 75.0 then [EstablishedProfessionals] else []
  }

  function LocationHighlight(customer: Customer, matchProfile: Customer, matchScore: MatchScore): (r: seq<Highlight>)
    ensures |r| <= 1 && (r != [] <==> customer.city == matchProfile.city || matchScore.factors.relocation >= 70.0)
    ensures forall h :: h in r ==> (Priority(h) == 2 <==> customer.city == matchProfile.city)
    ensures forall h :: h in r ==> 2 <= Priority(h) <= 3
  {
    if customer.city == matchProfile.city then [SameCity(customer.city)]
    else if matchScore.factors.relocation >= 70.0 then [OpenToRelocation]
    else []
  }

  function EducationHighlight(customer: Customer, matchProfile: Customer): (r: seq<Highlight>)
    ensures |r| <= 1
    ensures r != [] <==> IsTopTierEducation(customer.undergraduateCollege) && IsTopTierEducation(matchProfile.undergraduateCollege)
    ensures forall h :: h in r ==> Priority(h) == 4
  {
    if IsTopTierEducation(customer.undergraduateCollege) && IsTopTierEducation(matchProfile.undergraduateCollege)
    then [PremierEducation] else []
  }

  function FamilyHighlight(matchScore: MatchScore): (r: seq<Highlight>)
    ensures |r| <= 1 && (r != [] <==> matchScore.factors.children >= 90.0)
    ensures forall h :: h in r ==> Priority(h) == 5
  {
    if matchScore.factors.children >= 90.0 then [AlignedFamilyPlanning] else []
  }

  function CareerHighlight(customer: Customer, matchScore: MatchScore): (r: seq<Highlight>)
    ensures |r| <= 1 && (r != [] <==> customer.gender == Male && matchScore.factors.income >= 80.0)
    ensures forall h :: h in r ==> Priority(h) == 6
  {
    if customer.gender == Male && matchScore.factors.income >= 80.0 then [ComplementaryCareers] else []
  }

  /** Every highlight whose condition holds, in the fixed order, before the
      list is cut to four. */
  function HighlightCandidates(customer: Customer, matchProfile: Customer, matchScore: MatchScore): (r: seq<Highlight>)
    ensures |r| <= 6
  {
    AgeHighlight(customer, matchProfile, matchScore)
    + ProfessionHighlight(matchScore)
    + LocationHighlight(customer, matchProfile, matchScore)
    + EducationHighlight(customer, matchProfile)
    + FamilyHighlight(matchScore)
    + CareerHighlight(customer, matchScore)
  }

  /** The highlights of a pairing: at most four, in the fixed priority order,
      the first of the candidates that hold. */
  function Highlights(customer: Customer, matchProfile: Customer, matchScore: MatchScore): (r: seq<Highlight>)
    ensures |r| <= 4
    ensures r <= HighlightCandidates(customer, matchProfile, matchScore)
    ensures |r| == 4 || r == HighlightCandidates(customer, matchProfile, matchScore)
    ensures InPriorityOrder(r)
  {
    var all := HighlightCandidates(customer, matchProfile, matchScore);
    CandidatesInPriorityOrder(customer, matchProfile, matchScore);
    if |all| <= 4 then all else all[..4]
  }

  /** The texts of a list of highlights, in order. */
  function HighlightTexts(hs: seq<Highlight>): (r: seq<string>)
    ensures |r| == |hs|
  {
    seq(|hs|, k requires 0 <= k < |hs| => HighlightText(hs[k]))
  }

  lemma HighlightTextsAppend(front: seq<Highlight>, back: seq<Highlight>)
    ensures HighlightTexts(front + back) == HighlightTexts(front) + HighlightTexts(back)
  {
  }

  /** The texts of the candidates are the texts of the six pieces, in order. */
  lemma CandidateTexts(customer: Customer, matchProfile: Customer, matchScore: MatchScore)
    ensures HighlightTexts(HighlightCandidates(customer, matchProfile, matchScore))
            == HighlightTexts(AgeHighlight(customer, matchProfile, matchScore))
               + HighlightTexts(ProfessionHighlight(matchScore))
               + HighlightTexts(LocationHighlight(customer, matchProfile, matchScore))
               + HighlightTexts(EducationHighlight(customer, matchProfile))
               + HighlightTexts(FamilyHighlight(matchScore))
               + HighlightTexts(CareerHighlight(customer, matchScore))
  {
    var p1 := AgeHighlight(customer, matchProfile, matchScore);
    var p2 := ProfessionHighlight(matchScore);
    var p3 := LocationHighlight(customer, matchProfile, matchScore);
    var p4 := EducationHighlight(customer, matchProfile);
    var p5 := FamilyHighlight(matchScore);
    var p6 := CareerHighlight(customer, matchScore);
    HighlightTextsAppend(p1, p2);
    HighlightTextsAppend(p1 + p2, p3);
    HighlightTextsAppend(p1 + p2 + p3, p4);
    HighlightTextsAppend(p1 + p2 + p3 + p4, p5);
    HighlightTextsAppend(p1 + p2 + p3 + p4 + p5, p6);
  }

  lemma TextsOfPiece(piece: seq<Highlight>)
    requires |piece| <= 1
    ensures HighlightTexts(piece) == if piece == [] then [] else [HighlightText(piece[0])]
  {
  }

  /** The texts of the highlights are the first four texts of the six
      pieces, in order. */
  lemma TextsOfHighlights(customer: Customer, matchProfile: Customer, matchScore: MatchScore)
    ensures var texts := HighlightTexts(AgeHighlight(customer, matchProfile, matchScore))
                         + HighlightTexts(ProfessionHighlight(matchScore))
                         + HighlightTexts(LocationHighlight(customer, matchProfile, matchScore))
                         + HighlightTexts(EducationHighlight(customer, matchProfile))
                         + HighlightTexts(FamilyHighlight(matchScore))
                         + HighlightTexts(CareerHighlight(customer, matchScore));
      HighlightTexts(Highlights(customer, matchProfile, matchScore)) == if |texts| <= 4 then texts else texts[..4]
  {
    CandidateTexts(customer, matchProfile, matchScore);
    var kinds := HighlightCandidates(customer, matchProfile, matchScore);
    if |kinds| > 4 {
      assert HighlightTexts(kinds[..4]) == HighlightTexts(kinds)[..4];
    }
  }

  /** Pushes the text of each highlight whose condition holds, then keeps
      the first four. */
  method GetMatchHighlights(customer: Customer, matchProfile: Customer, matchScore: MatchScore)
    returns (highlights: seq<string>)
    ensures highlights == HighlightTexts(Highlights(customer, matchProfile, matchScore))
  {
    var pushed: seq<string> := [];
    var ageMatches := matchScore.factors.age >= 85.0;
    pushed := pushed + (if ageMatches then [HighlightText(AgeGap(Abs(customer.age - matchProfile.age)))] else []);
    assert pushed == HighlightTexts(AgeHighlight(customer, matchProfile, matchScore)) by {
      TextsOfPiece(AgeHighlight(customer, matchProfile, matchScore));
    }
    ghost var before := pushed;

    var professionMatches := matchScore.factors.profession >= 75.0;
    pushed := pushed + (if professionMatches then [HighlightText(EstablishedProfessionals)] else []);
    assert pushed == before + HighlightTexts(ProfessionHighlight(matchScore)) by {
      TextsOfPiece(ProfessionHighlight(matchScore));
    }
    before := pushed;

    pushed := pushed + (if customer.city == matchProfile.city then [HighlightText(SameCity(customer.city))]
                        else if matchScore.factors.relocation >= 70.0 then [HighlightText(OpenToRelocation)]
                        else []);
    assert pushed == before + HighlightTexts(LocationHighlight(customer, matchProfile, matchScore)) by {
      TextsOfPiece(LocationHighlight(customer, matchProfile, matchScore));
    }
    before := pushed;

    var premier := IsTopTierEducation(customer.undergraduateCollege) && IsTopTierEducation(matchProfile.undergraduateCollege);
    pushed := pushed + (if premier then [HighlightText(PremierEducation)] else []);
    assert pushed == before + HighlightTexts(EducationHighlight(customer, matchProfile)) by {
      TextsOfPiece(EducationHighlight(customer, matchProfile));
    }
    before := pushed;

    var familyMatches := matchScore.factors.children >= 90.0;
    pushed := pushed + (if familyMatches then [HighlightText(AlignedFamilyPlanning)] else []);
    assert pushed == before + HighlightTexts(FamilyHighlight(matchScore)) by {
      TextsOfPiece(FamilyHighlight(matchScore));
    }
    before := pushed;

    var careerMatches := customer.gender == Male && matchScore.factors.income >= 80.0;
    pushed := pushed + (if careerMatches then [HighlightText(ComplementaryCareers)] else []);
    assert pushed == before + HighlightTexts(CareerHighlight(customer, matchScore)) by {
      TextsOfPiece(CareerHighlight(customer, matchScore));
    }
    highlights := if |pushed| <= 4 then pushed else pushed[..4];
    TextsOfHighlights(customer, matchProfile, matchScore);
  }

  /** The candidates come out in strictly increasing priority. */
  lemma CandidatesInPriorityOrder(customer: Customer, matchProfile: Customer, matchScore: MatchScore)
    ensures InPriorityOrder(HighlightCandidates(customer, matchProfile, matchScore))
  {
    var p1 := AgeHighlight(customer, matchProfile, matchScore);
    var p2 := ProfessionHighlight(matchScore);
    var p3 := LocationHighlight(customer, matchProfile, matchScore);
    var p4 := EducationHighlight(customer, matchProfile);
    var p5 := FamilyHighlight(matchScore);
    var p6 := CareerHighlight(customer, matchScore);
    AppendInOrder(p1, p2, 1);
    AppendInOrder(p1 + p2, p3, 2);
    AppendInOrder(p1 + p2 + p3, p4, 4);
    AppendInOrder(p1 + p2 + p3 + p4, p5, 5);
    AppendInOrder(p1 + p2 + p3 + p4 + p5, p6, 6);
  }

  /** Appending a list whose priorities all reach `bound` to a list whose
      priorities all stay below it keeps the order. */
  lemma AppendInOrder(front: seq<Highlight>, back: seq<Highlight>, bound: nat)
    requires InPriorityOrder(front) && InPriorityOrder(back)
    requires forall h :: h in front ==> Priority(h) < bound
    requires forall h :: h in back ==> Priority(h) >= bound
    ensures InPriorityOrder(front + back)
  {
    var whole := front + back;
    forall i, j | 0 <= i < j < |whole| ensures Priority(whole[i]) < Priority(whole[j]) {
      if i < |front| && |front| <= j {
        assert front[i] in front;
        assert back[j - |front|] in back;
      }
    }
  }

  /** At most one location highlight: a shared city rules out the
      relocation highlight. */
  lemma LocationHighlightsExclusive(customer: Customer, matchProfile: Customer, matchScore: MatchScore)
    ensures var hs := HighlightCandidates(customer, matchProfile, matchScore);
      !(SameCity(customer.city) in hs && OpenToRelocation in hs)
    ensures var hs := HighlightCandidates(customer, matchProfile, matchScore);
      SameCity(customer.city) in hs <==> customer.city == matchProfile.city
  {
    var p1 := AgeHighlight(customer, matchProfile, matchScore);
    var p2 := ProfessionHighlight(matchScore);
    var p3 := LocationHighlight(customer, matchProfile, matchScore);
    var p4 := EducationHighlight(customer, matchProfile);
    var p5 := FamilyHighlight(matchScore);
    var p6 := CareerHighlight(customer, matchScore);
    assert HighlightCandidates(customer, matchProfile, matchScore) == (p1 + p2) + p3 + (p4 + p5 + p6);
    assert forall h :: h in p1 + p2 ==> Priority(h) <= 1;
    assert forall h :: h in p4 + p5 + p6 ==> Priority(h) >= 4;
    assert !(SameCity(customer.city) in p3 && OpenToRelocation in p3);
  }

  /** The career highlight is a candidate exactly for a male subject with an
      income factor of at least 80. */
  lemma CareerHighlightOnlyForMaleSubject(customer: Customer, matchProfile: Customer, matchScore: MatchScore)
    ensures ComplementaryCareers in HighlightCandidates(customer, matchProfile, matchScore)
            <==> customer.gender == Male && matchScore.factors.income >= 80.0
  {
  }

  /** So it is shown only for such a subject; the cut to four may still
      drop it. */
  lemma CareerHighlightShownOnlyForMaleSubject(customer: Customer, matchProfile: Customer, matchScore: MatchScore)
    ensures ComplementaryCareers in Highlights(customer, matchProfile, matchScore)
            ==> customer.gender == Male && matchScore.factors.income >= 80.0
  {
    var all := HighlightCandidates(customer, matchProfile, matchScore);
    var shown := Highlights(customer, matchProfile, matchScore);
    if ComplementaryCareers in shown {
      var k :| 0 <= k < |shown| && shown[k] == ComplementaryCareers;
      assert all[k] == ComplementaryCareers;
      CareerHighlightOnlyForMaleSubject(customer, matchProfile, matchScore);
    }
  }

  // ---------------------------------------------------------------------
  // Introduction

  /** The text of each of the three narrative templates before and after
      the candidate's first name. */
  function TemplatePieces(customer: Customer, matchProfile: Customer, index: nat): (string, string)
    requires index < 3
  {
    if index == 0 then
      ("We're excited to introduce ",
       ", a " + IntToString(matchProfile.age) + "-year-old " + matchProfile.designation + " at "
       + matchProfile.currentCompany + ". Based on " + customer.firstName
       + "'s preferences and our compatibility analysis, we believe this could be a wonderful match.")
    else if index == 1 then
      ("Meet ",
       " - a " + matchProfile.designation + " from " + matchProfile.city + " who shares many of "
       + customer.firstName
       + "'s values and life goals. Our matching algorithm indicates strong compatibility across multiple dimensions.")
    else
      (customer.firstName + ", we'd love to introduce you to ",
       ", a " + IntToString(matchProfile.age) + "-year-old professional who we think could be an excellent match"
       + " based on your shared interests and complementary qualities.")
  }

  /** The three narrative templates; each names the candidate. */
  function Template(customer: Customer, matchProfile: Customer, index: nat): (r: string)
    requires index < 3
    ensures Contains(r, matchProfile.firstName)
  {
    var pieces := TemplatePieces(customer, matchProfile, index);
    ContainsInMiddle(pieces.0, matchProfile.firstName, pieces.1);
    pieces.0 + matchProfile.firstName + pieces.1
  }

  // The header below is "\n\nKey compatibility factors:\n", the closings
  // "\n\nWe're particularly excited ..." and "\n\nWhile every match is
  // unique, ...". Each keeps its first word as a literal of its own, which
  // lets the lemmas below name the character after the paragraph break.
  const ParagraphBreak := "\n\n"
  const KeyFactorsHeader := ParagraphBreak + "Key" + " compatibility factors:\n"
  const HighClosing := ParagraphBreak
    + "We're" + " particularly excited about this introduction given the strong alignment in your core values and life goals."
  const MediumClosing := ParagraphBreak
    + "While" + " every match is unique, we see promising potential for a meaningful connection."

  /** One bulleted line per highlight, joined by newlines. */
  function BulletList(highlights: seq<string>): (r: string)
    ensures |highlights| > 0 ==> "\U{2022} " + highlights[0] <= r
  {
    Join(seq(|highlights|, k requires 0 <= k < |highlights| => "\U{2022} " + highlights[k]), "\n")
  }

  /** The bulleted block, or nothing when there are no highlights. */
  function KeyFactorsBlock(highlights: seq<string>): (r: string)
    ensures r == "" <==> |highlights| == 0
    ensures |highlights| > 0 ==> KeyFactorsHeader <= r
  {
    if |highlights| > 0 then KeyFactorsHeader + BulletList(highlights) else ""
  }

  function Closing(recommendation: Recommendation): (r: string)
    ensures r == "" <==> recommendation == Low
    ensures r != "" ==> ParagraphBreak <= r
  {
    match recommendation
    case High => HighClosing
    case Medium => MediumClosing
    case Low => ""
  }

  /** The introduction: the chosen template, then the key-factors block
      exactly when there are highlights, then a closing sentence for a high
      or medium recommendation and nothing for a low one. */
  function Introduction(template: string, highlights: seq<string>, recommendation: Recommendation): (r: string)
    ensures template <= r
    ensures template + KeyFactorsHeader <= r <==> |highlights| > 0
    ensures |Closing(recommendation)| <= |r| && r[|r| - |Closing(recommendation)|..] == Closing(recommendation)
    ensures recommendation == Low ==> |r| == |template| + |KeyFactorsBlock(highlights)|
  {
    IntroductionShape(template, highlights, recommendation);
    template + KeyFactorsBlock(highlights) + Closing(recommendation)
  }

  /** Without highlights the text is the template and the closing, and the
      header does not follow the template. */
  lemma NoHeaderWithoutHighlights(template: string, highlights: seq<string>, closing: string)
    requires |highlights| == 0
    requires closing == "" || (|closing| > 2 && closing[2] != KeyFactorsHeader[2])
    ensures !(template + KeyFactorsHeader <= template + KeyFactorsBlock(highlights) + closing)
  {
    var r := template + KeyFactorsBlock(highlights) + closing;
    assert KeyFactorsBlock(highlights) == "";
    assert r == template + closing;
    if closing != "" {
      assert r[|template| + 2] == closing[2];
      assert (template + KeyFactorsHeader)[|template| + 2] == KeyFactorsHeader[2];
    }
  }

  /** With highlights the block, and so the header, follows the template. */
  lemma HeaderWithHighlights(template: string, highlights: seq<string>, closing: string)
    requires |highlights| > 0
    ensures template + KeyFactorsHeader <= template + KeyFactorsBlock(highlights) + closing
  {
    PrefixInMiddle(template, KeyFactorsHeader, KeyFactorsBlock(highlights), closing);
  }

  /** The key-factors header follows the template exactly when there are
      highlights, whatever closing comes after, as long as the closing does
      not itself open with the header's third character. */
  lemma HeaderIffHighlights(template: string, highlights: seq<string>, closing: string)
    requires closing == "" || (|closing| > 2 && closing[2] != KeyFactorsHeader[2])
    ensures template + KeyFactorsHeader <= template + KeyFactorsBlock(highlights) + closing <==> |highlights| > 0
  {
    if |highlights| == 0 {
      NoHeaderWithoutHighlights(template, highlights, closing);
    } else {
      HeaderWithHighlights(template, highlights, closing);
    }
  }

  /** The key-factors header follows the template exactly when there are
      highlights (both closings start "\n\nW", the header "\n\nK"), and
      the closing ends the text. */
  lemma IntroductionShape(template: string, highlights: seq<string>, recommendation: Recommendation)
    ensures var r := template + KeyFactorsBlock(highlights) + Closing(recommendation);
      (template + KeyFactorsHeader <= r <==> |highlights| > 0)
      && r[|r| - |Closing(recommendation)|..] == Closing(recommendation)
  {
    assert KeyFactorsHeader[2] == 'K';
    match recommendation
    case High =>
      assert HighClosing[2] == 'W';
      HeaderIffHighlights(template, highlights, HighClosing);
    case Medium =>
      assert MediumClosing[2] == 'W';
      HeaderIffHighlights(template, highlights, MediumClosing);
    case Low =>
      HeaderIffHighlights(template, highlights, "");
  }

  /** Builds the introduction by appending to the chosen template. The source
      picks the template at random; here its index is a parameter. */
  method CraftPersonalizedIntro(customer: Customer, matchProfile: Customer, highlights: seq<string>,
                                matchScore: MatchScore, templateIndex: nat) returns (introduction: string)
    requires templateIndex < 3
    ensures introduction == Introduction(Template(customer, matchProfile, templateIndex), highlights,
                                         matchScore.recommendation)
  {
    var template := Template(customer, matchProfile, templateIndex);
    introduction := template;
    if |highlights| > 0 {
      introduction := introduction + KeyFactorsHeader + BulletList(highlights);
    }
    assert introduction == template + KeyFactorsBlock(highlights);
    if matchScore.recommendation == High {
      introduction := introduction + HighClosing;
    } else if matchScore.recommendation == Medium {
      introduction := introduction + MediumClosing;
    }
  }

  /** The introduction of `matchProfile` to `customer`: both full names, the
      highlight texts and the narrative built from them. */
  method GenerateIntroduction(customer: Customer, matchProfile: Customer, matchScore: MatchScore,
                              templateIndex: nat) returns (r: MatchIntroduction)
    requires templateIndex < 3
    ensures r.customerName == customer.firstName + " " + customer.lastName
    ensures r.matchName == matchProfile.firstName + " " + matchProfile.lastName
    ensures r.highlights == HighlightTexts(Highlights(customer, matchProfile, matchScore))
    ensures r.introduction == Introduction(Template(customer, matchProfile, templateIndex), r.highlights,
                                           matchScore.recommendation)
  {
    var highlights := GetMatchHighlights(customer, matchProfile, matchScore);
    var introduction := CraftPersonalizedIntro(customer, matchProfile, highlights, matchScore, templateIndex);
    r := MatchIntroduction(customer.firstName + " " + customer.lastName,
                           matchProfile.firstName + " " + matchProfile.lastName,
                           introduction,
                           highlights);
  }
}
