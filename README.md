# Klout external search provider, modelled in Dafny

This project models the decision and mapping logic of a CluedIn external-search
provider that enriches people through the Klout social-influence API. The provider:

- builds identifier queries from an inbound entity's Twitter handles. It adds the last
  path segment of every handle that is an absolute URL. It skips any value that
  equals, ignoring case, the Klout id of an earlier identity result;
- runs a query by resolving the handle to a Klout id. It dispatches on the HTTP status
  of that identity lookup: one result, no result, or one of two exceptions;
- folds a result into clues: one for the looked-up user, then one per influencee,
  then one per influencer;
- fills entity metadata in place: the type, the name when known, the origin code, the
  Score property, one tag per topic, a twitter code and a Klout code, and for a related
  person a single SimilarTo edge to the looked-up user.

Every HTTP exchange is an input of the model. This covers the identity lookup's status,
payload and transport error, the payloads of the user, topics and influence requests,
and the topics lookup for each related person. URI parsing (`Uri.IsWellFormedUriString`,
`Uri.TryCreate`, `Segments.Last()`) is a parameter `parseUri`, which returns the last
segment of a well-formed absolute URL and `None` for anything else.

Files:

- `wrappers.dfy` (module `Wrappers`): `Option`, which stands for a nullable reference.
- `klout_model.dfy` (module `KloutModel`): the response shapes.
- `cluedin_data.dfy` (module `CluedInData`): the host's records. It also holds the
  `EntityMetadataPart` class that the provider mutates.
- `klout_provider.dfy` (module `KloutProvider`): the provider's operations and the
  specification functions they are proved against.
- `klout_provider_properties.dfy` (module `KloutProviderProperties`): lemmas about those
  specification functions.

The identity lookup skips only NoContent (204) and NotFound (404). An OK (200) answer
without an id also yields nothing. Every other status raises, including the other 2xx
codes.

## Model

| member | source | states |
|---|---|---|
| `KloutProvider.BuildQueries` | src/KloutExternalSearchProvider.cs:52-85 | No query when the entity type is not accepted. Otherwise exactly one Identifier query per value of `QueryValues`, with no duplicates. Each query carries the provider's id and the request's entity type. |
| `KloutProvider.QueryValues` | src/KloutExternalSearchProvider.cs:54-84 | Empty for a type other than Person, Infrastructure.User or Infrastructure.Contact. Holds only candidate values (handles and URL segments). No value is kept that equals, ignoring case, the Klout id of an earlier identity result. Every handle that equals no such id is kept, URL strings included. So is every URL's last segment that equals no such id. |
| `KloutProvider.CandidateValues` | src/KloutExternalSearchProvider.cs:63-76 | The grown handle set contains every original handle and the last segment of every parseable URL. It contains nothing else. |
| `KloutProvider.AddUrlSegments` | src/KloutExternalSearchProvider.cs:65-76 | The loop over the handles leaves exactly `CandidateValues` behind. |
| `KloutProviderProperties.KnownIdIgnoresCase` | src/KloutExternalSearchProvider.cs:59 | The id filter compares without regard to case: two values equal up to case are either both filtered or both kept. |
| `KloutProvider.FirstOrDefault` | src/KloutExternalSearchProvider.cs:93 | Null exactly for an empty identifier list, otherwise the first identifier. |
| `KloutProvider.ExecuteSearch` | src/KloutExternalSearchProvider.cs:91-139 | A null or empty identifier issues no request and yields nothing. OK with a payload and an id yields exactly one result, and that result's `Twitter` is the queried name. In that case the four requests go out in order: identity, user, topics, influence. OK without a payload or id, NoContent and NotFound yield nothing, after the identity request only. Any other status throws, after the identity request only. The exception is an `AggregateException` wrapping the transport error when there is one, otherwise an `ApplicationException` carrying the status. |
| `KloutProviderProperties.QueryThenSearch` | src/KloutExternalSearchProvider.cs:83-130 | A query built for a value, once answered OK with an id, yields one result whose Twitter handle is that value. An empty value issues no request. |
| `KloutProviderProperties.TopicTagsInOrder` | src/KloutExternalSearchProvider.cs:241-242 | The topic loop produces one tag per topic, named after the topic, in topic order. |
| `KloutProvider.AddTopicTags` | src/KloutExternalSearchProvider.cs:241-242 | Appends exactly the topic tags to the part's tags and changes nothing else. |
| `KloutProvider.DescribePerson` | src/KloutExternalSearchProvider.cs:230-236 | Sets the type, the name only when the nick is non-null, the origin code and the score. It changes nothing else. |
| `KloutProvider.PopulateMetadata` | src/KloutExternalSearchProvider.cs:228-247 | The part's new state is `PrimaryPopulated` of its old state. |
| `KloutProviderProperties.PrimaryPopulatedEffect` | src/KloutExternalSearchProvider.cs:228-247 | The type becomes Person and the origin code becomes the user's Klout code. The name is overwritten only by a non-null nick. Score is set and no other property changes. One tag is appended per topic, in order. Exactly two codes are appended: the twitter code of the handle, then the Klout code. Edges are untouched. |
| `KloutProvider.PopulateRelatedMetadata` | src/KloutExternalSearchProvider.cs:249-294 | The part's new state is `RelatedPopulated` of its old state. |
| `KloutProvider.PopulateInfluenceeMetadata` | src/KloutExternalSearchProvider.cs:249-294 | The influencee overload: the same effect, `RelatedPopulated`, for the influencee's payload. |
| `KloutProvider.PopulateInfluencerMetadata` | src/KloutExternalSearchProvider.cs:296-340 | The influencer overload: the same effect as the influencee overload, for the influencer's payload. |
| `KloutProviderProperties.RelatedPopulatedEffect` | src/KloutExternalSearchProvider.cs:249-294 | The header steps are the same as for the looked-up user. One tag is appended per fetched topic. Exactly one SimilarTo edge is appended, from the person's Klout code to the user's. The appended twitter code has a null value, because the related object's `Twitter` is never assigned. The Klout code follows it. |
| `KloutProvider.CreateMetadata` | src/KloutExternalSearchProvider.cs:216-223 | A fresh part populated by `PopulateMetadata`. |
| `KloutProvider.GetPrimaryEntityMetadata` | src/KloutExternalSearchProvider.cs:197-201 | Equals the primary population applied to a fresh part. |
| `KloutProviderProperties.PrimaryEntityMetadataContents` | src/KloutExternalSearchProvider.cs:216-247 | That fresh part holds exactly the topic tags, the Score property, the twitter and Klout codes, the nick as name, and no edges. |
| `KloutProvider.GetPrimaryEntityPreviewImage` | src/KloutExternalSearchProvider.cs:208-211 | There is never a preview image. |
| `KloutProvider.InfluenceeClues` | src/KloutExternalSearchProvider.cs:164-175 | One clue per influencee, in list order. Each clue is coded with the influencee's Klout code and carries the related metadata populated over a fresh part. |
| `KloutProvider.InfluencerClues` | src/KloutExternalSearchProvider.cs:177-188 | One clue per influencer, in list order, built the same way. |
| `KloutProvider.BuildClues` | src/KloutExternalSearchProvider.cs:147-190 | Yields 1 + the number of influencees + the number of influencers clues. The first clue is coded with the user's Klout code and carries the primary metadata. Influencee clues follow in list order, then influencer clues in list order. Each of these carries its person's related metadata. Every clue has the provider's id as its origin provider and the context's organisation. |

## Left out

- HTTP: the RestSharp client, the fixed base URL, the API key in every request path, and
  blocking on `ExecuteTaskAsync(...).Result`. Responses are inputs. The requests of
  `ExecuteSearch` are recorded as `ApiRequest` values without their URL text.
- Status checks on the follow-up requests: the source has none, and neither does the
  model. Their payloads are taken as given.
- Null dereferences: where the source dereferences without a check, the model adds a
  `requires` in place of a `NullReferenceException`. This covers `User`, `Topics`,
  `Influencers` and its two lists, and each related person's topics. Nullness inside the
  classes that are not part of this model (`entity`, `payload`, `score`, topic names) is
  not modelled either.
- KloutProvider.BuildQueries: the handle set is treated as if it were enumerated as it
  was on entry. In .NET, adding a segment that is not yet in the `HashSet` while it is
  being enumerated makes the next `MoveNext` throw `InvalidOperationException`. Enumerator
  versioning is not modelled.
- KloutProvider.BuildQueries: when the request carries the social-twitter parameter, the
  source adds the URL segments to the request's own value set, so the request is changed
  in place (before the enumerator throws). The model grows a copy and leaves `request`
  unchanged.
- KloutProvider.BuildQueries: the order of the queries is whatever order the method picks
  from the set. A `HashSet` enumeration order is unspecified, so no order is promised. The
  host's `Accepts` is modelled as membership in the three registered entity types.
- KloutProvider.BuildQueries: the `twitterUrl != null` check is always true. The parameter
  lookup falls back to an empty set, so the model takes the set directly.
- KloutProvider.EqualsIgnoreCase: folds case for ASCII letters only, and compares strings
  of equal length character by character. `InvariantCultureIgnoreCase` is a
  culture-sensitive comparison: it maps case beyond ASCII and ignores ignorable code points
  such as U+00AD (soft hyphen), so strings of different lengths can compare equal there.
  Neither is modelled.
- KloutProvider.ExecuteSearch: a query without an Identifier parameter (a
  `KeyNotFoundException`) is not modelled, since queries always carry an identifier list.
  The `ApplicationException` message text is represented by the status it embeds.
- KloutProvider.BuildClues: the topics of a related person come from `lookupTopics`, a
  function of the Klout id, so two related persons with the same id get the same topics.
  The source sends a separate topics request per person, whose answers could differ.
- KloutProvider.BuildClues: the topics request sent for each influencee and each
  influencer is not recorded. The model reads only its answer, through `lookupTopics`.
- `System.Uri` semantics: abstracted into the `parseUri` parameter.
- `score.score.ToString()`: the numeric type is not part of this model and its rendering
  depends on the culture. The property value `NumberText(x)` stands for it.
- Host framework: a new `Clue`'s entity data is modelled as an empty metadata part, since
  the host's constructor is not part of this model. Whether `Codes` and `Tags` deduplicate
  is not modelled: they are sequences with append semantics. `EntityType`, `EntityCode`,
  `Clue` and the query types are plain records.
- Lazy `yield` iteration: queries, results and clues are finite sequences. A consumer that
  stops early is not modelled.
- src/Vocabularies/KloutPersonVocabulary.cs and src/Vocabularies/KloutVocabulary.cs:
  constant declarations. The full key name is composed by the host's vocabulary, which is
  not part of this model. `ScoreKey` is the key's own name, "Score".
- `myInfluencersCount` and `myInfluenceesCount`: the provider never reads them.
