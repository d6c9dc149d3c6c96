/**
  The shapes of the Klout API responses that the provider reads.

  `KloutObject` and `KloutInfluencers` mirror the repository's own classes; their
  reference-typed properties may be null after deserialisation, so they are `Option`s.
  The remaining classes (`KloutUser`, `KloutTopic`, `KloutId`, `MyInfluencer`,
  `MyInfluencee` and what they contain) are declared with just the fields the provider
  reads, as plain values.
*/
module KloutModel {
  import opened Wrappers

  /** The user's score object; the provider reads only its numeric `score`. */
  datatype KloutScore = KloutScore(score: real)

  /** A Klout user profile (also the shape of an influence entry's payload). */
  datatype KloutUser = KloutUser(kloutId: string, nick: Option<string>, score: KloutScore)

  /** A topic of a user; the provider reads only its name. */
  datatype KloutTopic = KloutTopic(name: string)

  /** The `entity` of an influence entry, carrying the related user as `payload`. */
  datatype InfluenceEntity = InfluenceEntity(payload: KloutUser)

  /** A user who influences the looked-up user. */
  datatype MyInfluencer = MyInfluencer(entity: InfluenceEntity)

  /** A user whom the looked-up user influences. */
  datatype MyInfluencee = MyInfluencee(entity: InfluenceEntity)

  /** The influence graph around one user. */
  datatype KloutInfluencers = KloutInfluencers(
    myInfluencers: Option<seq<MyInfluencer>>,
    myInfluencees: Option<seq<MyInfluencee>>,
    myInfluencersCount: int,
    myInfluenceesCount: int)

  /** Everything one search collects about a Twitter handle. */
  datatype KloutObject = KloutObject(
    Influencers: Option<KloutInfluencers>,
    Topics: Option<seq<KloutTopic>>,
    User: Option<KloutUser>,
    Twitter: Option<string>)

  /** The answer of the identity lookup: the Klout id of a Twitter handle, if any. */
  datatype KloutId = KloutId(id: Option<string>)
}
