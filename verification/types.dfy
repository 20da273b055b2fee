/** The records the matching engine reads and produces. A profile keeps only
    the fields the engine looks at. */
module Types {

  datatype Gender = Male | Female

  /** The answers to "wants kids", "open to relocate" and "open to pets". */
  datatype Preference = Yes | No | Maybe

  datatype Recommendation = High | Medium | Low

  datatype Customer = Customer(
    id: string,
    firstName: string,
    lastName: string,
    gender: Gender,
    age: int,
    city: string,
    height: int,                 // centimetres
    undergraduateCollege: string,
    degree: string,
    income: int,                 // annual
    currentCompany: string,
    designation: string,
    languagesKnown: seq<string>,
    siblings: int,
    religion: string,
    wantKids: Preference,
    openToRelocate: Preference,
    openToPets: Preference)

  /** The seven per-dimension compatibility values of one pairing. */
  datatype Factors = Factors(
    age: real,
    income: real,
    height: real,
    children: real,
    relocation: real,
    profession: real,
    values: real)

  datatype MatchScore = MatchScore(
    customerId: string,
    matchId: string,
    score: int,
    explanation: string,
    factors: Factors,
    recommendation: Recommendation)

  datatype MatchIntroduction = MatchIntroduction(
    customerName: string,
    matchName: string,
    introduction: string,
    highlights: seq<string>)
}
