/** The data types the client shares with its backend, and the enumerations
    the pages branch on. */
module Types {

  /** A signed-in user; the two clock-derived timestamps are not modelled. */
  datatype User = User(id: string, email: string, name: string)

  datatype AuthTokens = AuthTokens(accessToken: string, refreshToken: string, tokenType: string, expiresIn: int)

  datatype CatalogStatus = Pending | Extracting | Analyzing | Completed | Paused | Failed

  datatype Recommendation = Buy | Observe | Discard

  datatype CompetitionLevel = Low | Medium | High

  datatype SubscriptionPlan = Trial | Pro | Enterprise

  /** The string value of a competition level, as the backend sends it. */
  function CompetitionName(c: CompetitionLevel): string
  {
    match c
    case Low => "low"
    case Medium => "medium"
    case High => "high"
  }

  /** The string value of a recommendation, as the backend sends it. */
  function RecommendationName(r: Recommendation): string
  {
    match r
    case Buy => "buy"
    case Observe => "observe"
    case Discard => "discard"
  }

  /** What a `catch` block receives: an `Error` instance with its message,
      or some other thrown value. */
  datatype Thrown = ErrorObject(message: string) | OtherValue
}
