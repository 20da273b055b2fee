# Matchmaking engine: a verified model

This project models the decision logic of a matchmaking dashboard in Dafny. The logic lives in two static classes of the TypeScript code base.

`MatchingAlgorithm` does three things:
- It scores one candidate for one subject. A same-gender pairing is rejected outright. Otherwise the subject's gender selects one of two sets of formulas, each computing seven factors (age, income, height, children, relocation, profession, values).
- It rounds the weighted sum of the factors into a score and derives a high / medium / low recommendation from the sum.
- It builds a short explanation from the factors, and ranks a candidate pool.

`AIService` post-processes a score:
- It adds a capped personality bonus (degrees, shared languages) and a lifestyle bonus (pets, siblings, employer size), and may append one sentence to the explanation.
- It builds an introduction: up to four highlights in a fixed priority order, one of three templates, a bulleted key-factors block and a closing sentence chosen by the recommendation.

Modules:
- `JsMath`: `Math.round`, `min`, `max` and `abs`. Numbers are unbounded integers and exact reals.
- `Text`: `includes`, ASCII `toLowerCase`, `join`, and the decimal form of whole numbers.
- `Types`: the profile, factor, score and introduction records.
- `Matching`: the pairwise scorer and the two explanation builders.
- `Ranking`: `findBestMatches`. The pool is filtered and scored into a fresh array, which is sorted in place by a stable insertion sort. That sort is proved equal to a functional insertion sort, and the functional sort is proved ordered, a permutation and stable.
- `AIService`: the enhancement pass, the bonuses, the highlights and the introduction builder. The accumulating procedures of the source are methods, each proved equal to a specification function, and the properties are proved about those functions.

Consequences of the code that are easy to miss:
- The male-subject age factor is not clamped to [0, 100]. An age gap of 6 to 8 years scores 102 to 106.
- The recommendation is derived from the unrounded weighted sum, not from the rounded score. A sum of 79.7 is scored 80 but recommended "medium" (`Matching.RoundedEightyCanBeMedium`).
- For the example pairing of `Matching.MaleSubjectScenario`, a three-year age gap gives an age factor of 90 + 3·2 = 96, and the pairing scores 94.
- The female-subject income factor is not monotone. It drops from 85 to 76 when the income ratio reaches 1.2.
- The "both Hindu" values branch comes after the equal-religion test and can never be taken.
- The lifestyle bonus is at most 5, so its cap of 6 never binds, and " Complementary lifestyle preferences." is never appended.
- `getCompanySize` never returns "small".
- "IIIT" on the top-tier list is redundant, because any name containing it also contains "IIT".
- The female-subject explanation computes concerns and never uses them. Its profession factor is always at least 76, so "Career balance" is always a strength and the "some challenges" fallback never appears.

## Model

| member | source | states |
|---|---|---|
| JsMath.Round | project/src/utils/matchingAlgorithm.ts:116 | `Math.round`: the result is within half of its argument, halves rounding up |
| JsMath.RoundOfInteger | project/src/utils/aiService.ts:112 | rounding an already whole enhanced score leaves it unchanged |
| Text.Contains | project/src/utils/matchingAlgorithm.ts:231 | `includes` is true exactly when the substring occurs at some index |
| Text.ToLower | project/src/utils/matchingAlgorithm.ts:230 | lower-casing keeps the length, turns each upper-case ASCII letter into its own lower-case letter and keeps every other character in place |
| Text.Join | project/src/utils/matchingAlgorithm.ts:254-255 | a non-empty list of parts is joined into a text that starts with its first part |
| Text.JoinOfFirstThree | project/src/utils/matchingAlgorithm.ts:273 | joining three parts yields the first, the separator, the second, the separator and the third |
| Matching.CalculateMatch | project/src/utils/matchingAlgorithm.ts:5-22 | same gender gives score 0, all factors 0, the fixed explanation and "low"; otherwise the factors are the subject's formulas applied to the pair, ids are carried through, and the score is in 29..99 |
| Matching.CalculateMatchReadsThePair | project/src/utils/matchingAlgorithm.ts:36-195 | for an opposite-gender pair the result's values factor is 90 exactly on equal religions; its age factor exceeds 100 exactly for a male subject 6 to 8 years older, and reaches 85 exactly for a female subject whose match is 1 year younger to 7 years older |
| Matching.MaleAgeFactor | project/src/utils/matchingAlgorithm.ts:36-43 | the age factor lies in [30, 106]; it exceeds 100 exactly for gaps 6 to 8, and reaches 80 exactly for gaps -2 to 9 |
| Matching.MaleIncomeFactor | project/src/utils/matchingAlgorithm.ts:46-53 | the income factor is at least 30, below 95 for a positive ratio, and at least 80 exactly when her income is at most 0.75 of his |
| Matching.MaleIncomeFactorNonIncreasing | project/src/utils/matchingAlgorithm.ts:46-53 | the male-subject income factor never rises as her share of income rises |
| Matching.MaleHeightFactor | project/src/utils/matchingAlgorithm.ts:56-63 | the height factor lies in [20, 95], and is 95 exactly when he is 5 to 20 cm taller |
| Matching.MaleChildrenFactor | project/src/utils/matchingAlgorithm.ts:66-72 | the children factor is 100, 75 or 20; 100 exactly on equal answers, 20 exactly on a yes/no clash |
| Matching.MaleRelocationFactor | project/src/utils/matchingAlgorithm.ts:75-83 | the relocation factor is 100, 85, 60 or 25; 100 exactly for the same city, 85 when either says yes, 25 when both say no |
| Matching.GetIncomeBand | project/src/utils/matchingAlgorithm.ts:221-227 | the band is in 1..5 and exceeds k+1 exactly when the income reaches the k-th boundary (500k, 1M, 1.5M, 2M) |
| Matching.IncomeBandMonotone | project/src/utils/matchingAlgorithm.ts:221-227 | a higher income never falls into a lower band |
| Matching.MaleProfessionFactor | project/src/utils/matchingAlgorithm.ts:86-88 | the profession factor is 50, 55, 70, 85 or 100, and is 100 exactly when both incomes share a band |
| Matching.MaleValuesFactor | project/src/utils/matchingAlgorithm.ts:91-97 | the values factor is 90 or 50 (never 80), and is 90 exactly on equal religions |
| Matching.MaleFactors | project/src/utils/matchingAlgorithm.ts:25-97 | with both incomes positive, all seven male-subject factors lie in their stated ranges |
| Matching.MaleTotal | project/src/utils/matchingAlgorithm.ts:100-108 | with every male-subject factor in range the weighted sum lies in [28.75, 99.2) |
| Matching.MaleTier | project/src/utils/matchingAlgorithm.ts:111 | "high" exactly from a sum of 80, "low" exactly below 60, "medium" in between |
| Matching.CalculateMaleMatch | project/src/utils/matchingAlgorithm.ts:24-120 | the factors are the male-subject formulas applied to the pair; score is the rounded weighted sum (weights .20 .15 .15 .20 .15 .10 .05); the tier comes from the unrounded sum at 80/60; score in 29..99; tier and score agree away from the thresholds |
| Matching.FemaleAgeFactor | project/src/utils/matchingAlgorithm.ts:135-140 | the age factor lies in [30, 100], and is at least 85 exactly when he is 1 year younger to 7 years older |
| Matching.FemaleIncomeFactor | project/src/utils/matchingAlgorithm.ts:143-150 | the income factor lies in [40, 100] |
| Matching.FemaleIncomeFactorDropsAtOnePointTwo | project/src/utils/matchingAlgorithm.ts:144-147 | a ratio in [1.0, 1.2) scores strictly more than a ratio in [1.2, 1.5) |
| Matching.FemaleHeightFactor | project/src/utils/matchingAlgorithm.ts:153-160 | the height factor lies in [30, 95], and is 95 exactly when he is 5 to 20 cm taller |
| Matching.FemaleChildrenFactor | project/src/utils/matchingAlgorithm.ts:163-169 | the children factor is 100, 75 or 25; 100 exactly on equal answers, 25 exactly on a yes/no clash |
| Matching.FemaleRelocationFactor | project/src/utils/matchingAlgorithm.ts:172-182 | the relocation factor is 100, 85, 80, 60 or 30; her "yes" (85) is checked before his (80) |
| Matching.GetCareerLevel | project/src/utils/matchingAlgorithm.ts:229-234 | the level is in 1..3; 3 exactly when the lower-cased title contains lead, manager or senior; 1 exactly when it contains none of these and no developer or analyst |
| Matching.SeniorWinsOverDeveloper | project/src/utils/matchingAlgorithm.ts:231-232 | a title containing both "senior" and "developer" is level 3 |
| Matching.CapitalisedSeniorIsLevelThree | project/src/utils/matchingAlgorithm.ts:230-231 | a title containing "senior" in any mix of capitals is level 3 |
| Matching.CareerLevelIgnoresCase | project/src/utils/matchingAlgorithm.ts:230 | lower-casing a title first does not change its level |
| Matching.FemaleProfessionFactor | project/src/utils/matchingAlgorithm.ts:185-188 | the profession factor is 76, 88 or 100, and is 100 exactly on equal career levels |
| Matching.FemaleValuesFactor | project/src/utils/matchingAlgorithm.ts:191-195 | the values factor is 90 or 55, and is 90 exactly on equal religions |
| Matching.FemaleFactors | project/src/utils/matchingAlgorithm.ts:124-195 | with both incomes positive, all seven female-subject factors lie in their stated ranges |
| Matching.FemaleTotal | project/src/utils/matchingAlgorithm.ts:198-206 | with every female-subject factor in range the weighted sum lies in [36.55, 98.9] |
| Matching.FemaleTier | project/src/utils/matchingAlgorithm.ts:209 | "high" exactly from a sum of 80, "low" exactly below 65, "medium" in between |
| Matching.CalculateFemaleMatch | project/src/utils/matchingAlgorithm.ts:123-218 | the factors are the female-subject formulas applied to the pair; score is the rounded weighted sum (weights .18 .18 .12 .22 .15 .10 .05); the tier comes from the unrounded sum at 80/65; score in 37..99; tier and score agree away from the thresholds |
| Matching.WeightsSumToOne | project/src/utils/matchingAlgorithm.ts:100-108 | each weight vector sums to one: equal factors x give a total of x, for both subjects |
| Matching.MaleStrengths | project/src/utils/matchingAlgorithm.ts:237-251 | at most five strengths; the height and location strengths are listed exactly at factors of at least 85 and 80 |
| Matching.MaleConcerns | project/src/utils/matchingAlgorithm.ts:237-251 | at most three concerns, and none when age and income are at least 60 and children at least 50 |
| Matching.GenerateMaleMatchExplanation | project/src/utils/matchingAlgorithm.ts:236-256 | opens "Strong match potential: " exactly when strengths outnumber concerns, and "Mixed compatibility: " otherwise |
| Matching.MaleExplanationClassifiesAge | project/src/utils/matchingAlgorithm.ts:240-241 | the age strength appears exactly at a factor of at least 80, the age concern exactly below 60, so never both |
| Matching.MaleExplanationClassifiesIncome | project/src/utils/matchingAlgorithm.ts:243-244 | the income strength appears exactly at a factor of at least 80, the income concern exactly below 60 |
| Matching.MaleExplanationClassifiesChildren | project/src/utils/matchingAlgorithm.ts:246-251 | the children strength appears exactly at a factor of at least 90, the concern exactly below 50 |
| Matching.ExplainStrengths | project/src/utils/matchingAlgorithm.ts:272-274 | opens "Excellent match: " exactly with three or more strengths, and "Moderate compatibility with " otherwise |
| Matching.ExcellentListsFirstThree | project/src/utils/matchingAlgorithm.ts:272-273 | with three or more strengths the text is the prefix followed by exactly the first three, comma-separated |
| Matching.FemaleStrengths | project/src/utils/matchingAlgorithm.ts:259-267 | at most six strengths, and a profession factor of at least 70 makes "Career balance" the last of them |
| Matching.FemaleConcerns | project/src/utils/matchingAlgorithm.ts:260-270 | at most two concerns, and none exactly when income is at least 60 and children at least 50 |
| Matching.GenerateFemaleMatchExplanation | project/src/utils/matchingAlgorithm.ts:258-275 | the female-subject explanation opens "Excellent match: " exactly when at least three of the six strengths hold |
| Matching.FemaleExplanationIgnoresConcerns | project/src/utils/matchingAlgorithm.ts:269-274 | two factor sets with the same strengths get the same explanation, whatever their concerns |
| Matching.CareerBalanceRulesOutFallback | project/src/utils/matchingAlgorithm.ts:267-274 | a profession factor of at least 70 lists "Career balance" and rules out the "some challenges" text |
| Matching.CareerBalanceAlwaysListed | project/src/utils/matchingAlgorithm.ts:184-188 | every female-subject pairing lists "Career balance" and never gets the fallback text |
| Matching.MaleSubjectScenario | project/src/utils/matchingAlgorithm.ts:24-121 | the example pairing gets factors 96, 81, 95, 100, 100, 85, 90, score 94 and "high" |
| Matching.RoundedEightyCanBeMedium | project/src/utils/matchingAlgorithm.ts:111-116 | a total of 79.7 is scored 80 yet recommended "medium" |
| Ranking.OppositeGender | project/src/utils/matchingAlgorithm.ts:278-279 | the filter keeps every opposite-gender candidate of the pool and nothing else |
| Ranking.OppositeGenderAppend | project/src/utils/matchingAlgorithm.ts:278-279 | filtering two pools one after the other gives the filtered first pool followed by the filtered second, so order and repetitions are kept |
| Ranking.OppositeGenderOfOne | project/src/utils/matchingAlgorithm.ts:278-279 | a single candidate is kept exactly when its gender differs from the subject's |
| Ranking.ScoreAll | project/src/utils/matchingAlgorithm.ts:280 | one score per filtered candidate, in pool order, each naming the subject and that candidate |
| Ranking.InsertByScore | project/src/utils/matchingAlgorithm.ts:281 | inserting one entry into the sorted list adds exactly one entry |
| Ranking.InsertByScorePermutes | project/src/utils/matchingAlgorithm.ts:281 | inserting adds exactly the new entry to the multiset |
| Ranking.InsertByScoreKeepsOrder | project/src/utils/matchingAlgorithm.ts:281 | inserting into a non-increasing list keeps it non-increasing |
| Ranking.InsertByScoreKeepsTies | project/src/utils/matchingAlgorithm.ts:281 | inserting puts the new entry after every earlier entry with the same score |
| Ranking.SortByScore | project/src/utils/matchingAlgorithm.ts:281 | the sort keeps the length |
| Ranking.SortByScoreOrders | project/src/utils/matchingAlgorithm.ts:281 | the sorted list is non-increasing in score |
| Ranking.SortByScorePermutes | project/src/utils/matchingAlgorithm.ts:281 | the sorted list is a permutation of its input |
| Ranking.SortByScoreIsStable | project/src/utils/matchingAlgorithm.ts:281 | for every score, the entries with that score keep their input order |
| Ranking.PrefixKeepsFirstTies | project/src/utils/matchingAlgorithm.ts:283 | cutting a list keeps, for every score, a prefix of its ties |
| Ranking.SliceEnd | project/src/utils/matchingAlgorithm.ts:283 | `slice(0, limit)` ends at `limit` clamped to the length, counting back from the end for a negative limit |
| Ranking.ShiftLower | project/src/utils/matchingAlgorithm.ts:281 | the backward scan shifts right by one exactly the trailing entries scoring below the new entry and leaves the rest alone |
| Ranking.InsertIntoSortedPrefix | project/src/utils/matchingAlgorithm.ts:281 | one pass of the in-place sort turns the prefix into the functional insertion of the next entry and leaves the suffix alone |
| Ranking.SortByScoreInPlace | project/src/utils/matchingAlgorithm.ts:281 | the in-place sort produces exactly the functional stable sort of the array's old contents |
| Ranking.RankedMatches | project/src/utils/matchingAlgorithm.ts:277-284 | the ranking has as many entries as `slice(0, limit)` keeps of the filtered pool |
| Ranking.SortedPrefixSound | project/src/utils/matchingAlgorithm.ts:281-283 | any prefix of the sorted scores is non-increasing and keeps, for every score, only ties of the input in input order |
| Ranking.RankedMatchesSound | project/src/utils/matchingAlgorithm.ts:277-284 | the ranking is at most as long as the filtered pool and at most `limit`, is non-increasing, and keeps ties in pool order |
| Ranking.RankedMatchesFromPool | project/src/utils/matchingAlgorithm.ts:278-280 | every ranked entry carries the subject's id and is the subject's score of an opposite-gender candidate from the pool |
| Ranking.FindBestMatches | project/src/utils/matchingAlgorithm.ts:277-284 | the result is the ranking: bounded length, best first, stable, every entry from the pool; a pool without opposite-gender candidates gives an empty result |
| AIService.GetCompanySize | project/src/utils/aiService.ts:151-155 | "large" exactly for the seven listed employers, "medium" otherwise, never "small" |
| AIService.IsTopTierEducation | project/src/utils/aiService.ts:86-89 | true exactly when the college name contains IIT, IIM, BITS or NIT |
| AIService.IIITContainsIIT | project/src/utils/aiService.ts:87 | any name containing "IIIT" contains "IIT" |
| AIService.DegreeBonus | project/src/utils/aiService.ts:121-122 | the degree bonus is 0, 2, 3 or 5; at least 3 exactly for the MBA/B.Tech pairing, and 2 or 5 exactly for equal degrees |
| AIService.CommonLanguageCount | project/src/utils/aiService.ts:125-127 | the shared-language count is at most the subject's number of languages |
| AIService.CommonLanguageCountExtremes | project/src/utils/aiService.ts:125-127 | the count is 0 exactly when none is shared, and the full length exactly when all are |
| AIService.PersonalityBonus | project/src/utils/aiService.ts:117-131 | the bonus is in 0..8; below 8 it is the degree bonus plus 2 per shared language; it is 8 exactly when that sum reaches 8; an odd bonus needs the MBA/B.Tech pairing |
| AIService.FourSharedLanguagesSaturate | project/src/utils/aiService.ts:125-130 | four shared languages alone reach the cap of 8 |
| AIService.AnalyzePersonalityCompatibility | project/src/utils/aiService.ts:117-131 | the step-by-step accumulation with the language loop yields exactly the personality bonus |
| AIService.LifestyleBonus | project/src/utils/aiService.ts:133-149 | the bonus is in 0..5, so the cap of 6 never binds; it is odd exactly for equal company sizes, at least 4 exactly for equal pets answers and siblings at most one apart, 0 exactly when none hold |
| AIService.AnalyzeLifestyleCompatibility | project/src/utils/aiService.ts:133-149 | the step-by-step accumulation yields exactly the lifestyle bonus |
| AIService.EnhanceMatchScore | project/src/utils/aiService.ts:92-115 | score is min(100, base + both bonuses), never above 100 and never below a base of at most 100; the personality note is appended exactly at a bonus of 6 or more, the lifestyle note never; ids, factors and recommendation are copied |
| AIService.AgeHighlight | project/src/utils/aiService.ts:25-27 | at most one highlight, present exactly at an age factor of at least 85, with priority 0 |
| AIService.ProfessionHighlight | project/src/utils/aiService.ts:30-32 | at most one highlight, present exactly at a profession factor of at least 75, with priority 1 |
| AIService.LocationHighlight | project/src/utils/aiService.ts:35-39 | at most one highlight, present exactly for the same city or a relocation factor of at least 70; priority 2 ("Both based in") exactly for the same city, 3 otherwise |
| AIService.EducationHighlight | project/src/utils/aiService.ts:42-44 | at most one highlight, present exactly when both colleges are top tier, with priority 4 |
| AIService.FamilyHighlight | project/src/utils/aiService.ts:47-49 | at most one highlight, present exactly at a children factor of at least 90, with priority 5 |
| AIService.CareerHighlight | project/src/utils/aiService.ts:52-54 | at most one highlight, present exactly for a male subject with an income factor of at least 80, with priority 6 |
| AIService.HighlightCandidates | project/src/utils/aiService.ts:22-54 | the six pushes produce at most six candidates |
| AIService.Highlights | project/src/utils/aiService.ts:21-57 | at most four highlights, the first of those whose conditions hold, in strictly increasing priority |
| AIService.HighlightTexts | project/src/utils/aiService.ts:21-57 | one text per highlight |
| AIService.GetMatchHighlights | project/src/utils/aiService.ts:21-57 | the pushes and the final slice yield exactly the texts of the highlights |
| AIService.CandidatesInPriorityOrder | project/src/utils/aiService.ts:24-54 | the candidate highlights come out in strictly increasing priority |
| AIService.LocationHighlightsExclusive | project/src/utils/aiService.ts:35-39 | "Both based in ..." and the relocation highlight never both appear; the first appears exactly for the same city |
| AIService.CareerHighlightOnlyForMaleSubject | project/src/utils/aiService.ts:52-54 | the career highlight is a candidate, before the cut to four, exactly for a male subject with an income factor of at least 80 |
| AIService.CareerHighlightShownOnlyForMaleSubject | project/src/utils/aiService.ts:52-56 | after the cut to four, the shown highlights contain the career highlight only for such a subject |
| AIService.Template | project/src/utils/aiService.ts:60-66 | each of the three templates names the candidate's first name |
| AIService.BulletList | project/src/utils/aiService.ts:73 | a non-empty list starts with a bullet and the first highlight |
| AIService.KeyFactorsBlock | project/src/utils/aiService.ts:72-74 | the block is empty exactly without highlights, and otherwise opens with the "Key compatibility factors:" header |
| AIService.Closing | project/src/utils/aiService.ts:76-81 | the closing is empty exactly for "low", and otherwise opens with a paragraph break |
| AIService.Introduction | project/src/utils/aiService.ts:70-83 | the text begins with the template; the header follows the template exactly when there are highlights; the closing for the recommendation ends it; "low" adds nothing after the block |
| AIService.HeaderIffHighlights | project/src/utils/aiService.ts:72-74 | the key-factors header follows the template exactly when there are highlights, whatever closing that does not open like the header |
| AIService.IntroductionShape | project/src/utils/aiService.ts:72-81 | with each of the three closings the header appears exactly with highlights, and the closing ends the text |
| AIService.CraftPersonalizedIntro | project/src/utils/aiService.ts:59-84 | the appends produce exactly the introduction of the chosen template, highlights and recommendation |
| AIService.GenerateIntroduction | project/src/utils/aiService.ts:6-19 | names are first name, a space and last name; highlights are the highlight texts; the introduction is built from them |

## Left out

- The React components, the dashboard filtering, the login check and the mock data generator are not part of this model. They hold rendering, hard-coded credentials and randomised data.
- The template choice calls `Math.random`. The model takes the template index as a parameter below 3.
- `generateIntroduction` is `async` and returns a promise. Nothing is awaited, so it is modelled as a plain computation.
- Numbers are exact reals and unbounded integers, not IEEE-754 doubles. Weights such as 0.15 are inexact in binary, so JavaScript may round differently when a sum lands exactly on .5.
- Matching.CalculateMatch: requires both incomes to be positive when the genders differ. The source divides only by the subject's income (matchingAlgorithm.ts:46 and 143), and those pairings are not modelled:
  - a zero subject income gives Infinity or NaN;
  - a negative income gives a finite negative ratio, for example a male-subject income factor above 95;
  - a zero candidate income gives a ratio of 0 without error, so the income factor is 95 for a male subject and 40 for a female subject.
- `toLowerCase` is modelled for ASCII letters only. Other Unicode case mappings are not.
- Ages, heights, sibling counts, incomes and `limit` are whole numbers in the model. Fractional values are not modelled.
- The explanation builders receive both profiles and never read them. The model drops those parameters.
- The default `limit` of 10 in `findBestMatches` (project/src/utils/matchingAlgorithm.ts:277) is not modelled. The limit is always a parameter; the customer detail view passes 8 (project/src/components/CustomerDetail.tsx:28).
- The pool passed to `findBestMatches` is an immutable sequence, so "the input is not mutated" holds by construction rather than being proved about aliasing.
- `Array.prototype.sort` is modelled by a stable insertion sort. Section 22.1.3.27 of ECMAScript 2019 requires stability but not any particular algorithm, so only the resulting order is modelled, not the comparisons made.
