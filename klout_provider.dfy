/**
  The Klout external search provider: it turns an inbound person's Twitter handles into
  identifier queries, dispatches on the answer of the Klout identity lookup, and maps
  the collected profile, topics and influence lists into entity metadata and clues.

  Every HTTP exchange is an input: the identity lookup's status, payload and error, the
  payloads of the follow-up requests, and the per-person topic lookup. URI parsing is a
  parameter as well.
*/
module KloutProvider {
  import opened Wrappers
  import opened KloutModel
  import opened CluedInData

  /** The provider's definition id. */
  const ProviderId := "3A0BF027-2FFB-45D7-A8CA-0D81514C4913"

  /** The entity types the provider is registered for. */
  const AcceptedEntityTypes: set<EntityType> := {Person, InfrastructureUser, InfrastructureContact}

  /** The vocabulary key `KloutVocabulary.Person.Score`. */
  const ScoreKey := "Score"

  const KloutOrigin := CluedInSpecific("klout")
  const TwitterOrigin := CluedInSpecific("social.twitter")

  function Accepts(entityType: EntityType): bool
  {
    entityType in AcceptedEntityTypes
  }

  /** The person code of a Klout id. */
  function KloutCode(kloutId: string): EntityCode
  {
    EntityCode(Person, KloutOrigin, Some(kloutId))
  }

  /** The person code of a (possibly null) Twitter handle. */
  function TwitterCode(handle: Option<string>): EntityCode
  {
    EntityCode(Person, TwitterOrigin, handle)
  }

  // ---------------------------------------------------------------------------------
  // Query construction
  // ---------------------------------------------------------------------------------

  /** Case folding of the invariant culture, restricted to ASCII letters. */
  function FoldCase(c: char): char
  {
    if 'A' <= c <= 'Z' then (c as int - 'A' as int + 'a' as int) as char else c
  }

  /** `string.Equals(a, b, StringComparison.InvariantCultureIgnoreCase)` on non-null strings. */
  predicate EqualsIgnoreCase(a: string, b: string)
  {
    |a| == |b| && forall i :: 0 <= i < |a| ==> FoldCase(a[i]) == FoldCase(b[i])
  }

  /** The id filter: some earlier identity result has `value` as its id, ignoring case. */
  predicate IsKnownId(existingResults: seq<KloutId>, value: string)
  {
    exists r :: r in existingResults && r.id.Some? && EqualsIgnoreCase(r.id.value, value)
  }

  /**
    The last path segments of the handles that are well-formed absolute URLs;
    `parseUri(u)` is `Some(s)` exactly when `u` is a well-formed absolute URL that
    parses and `s` is its last segment.
  */
  function UrlSegments(handles: set<string>, parseUri: string -> Option<string>): set<string>
  {
    set u | u in handles && parseUri(u).Some? :: parseUri(u).value
  }

  /** The candidate values: every handle as given, plus the last segment of every URL among them. */
  function CandidateValues(handles: set<string>, parseUri: string -> Option<string>): (r: set<string>)
    ensures handles <= r
    ensures forall u :: u in handles && parseUri(u).Some? ==> parseUri(u).value in r
    ensures forall v :: v in r ==> v in handles || exists u :: u in handles && parseUri(u) == Some(v)
  {
    handles + UrlSegments(handles, parseUri)
  }

  /** The values the provider queries for: the candidates that equal, ignoring case, no Klout id of an earlier result. */
  function QueryValues(request: ExternalSearchRequest, existingResults: seq<KloutId>, parseUri: string -> Option<string>): (r: set<string>)
    ensures !Accepts(request.entityType) ==> r == {}
    ensures forall v :: v in r ==> v in CandidateValues(request.socialTwitter, parseUri)
    ensures forall v :: v in r ==> !IsKnownId(existingResults, v)
    // handles are queried as given, URLs included, unless they equal an earlier result's Klout id
    ensures Accepts(request.entityType) ==>
      forall u :: u in request.socialTwitter && !IsKnownId(existingResults, u) ==> u in r
    ensures Accepts(request.entityType) ==>
      forall u :: u in request.socialTwitter && parseUri(u).Some? && !IsKnownId(existingResults, parseUri(u).value) ==>
        parseUri(u).value in r
  {
    if Accepts(request.entityType) then
      set v | v in CandidateValues(request.socialTwitter, parseUri) && !IsKnownId(existingResults, v)
    else
      {}
  }

  /** The identifier query the provider issues for one value. */
  function IdentifierQuery(entityType: EntityType, value: string): ExternalSearchQuery
  {
    ExternalSearchQuery(ProviderId, entityType, [value])
  }

  /**
    Grows a handle set with the last segment of every URL in it. The loop enumerates
    the handles as they were on entry (see the README for the .NET enumerator).
  */
  method AddUrlSegments(handles: set<string>, parseUri: string -> Option<string>) returns (twitterUrl: set<string>)
    ensures twitterUrl == CandidateValues(handles, parseUri)
  {
    twitterUrl := handles;
    var pending := handles;
    while pending != {}
      invariant pending <= handles
      invariant twitterUrl == handles + UrlSegments(handles - pending, parseUri)
      decreases pending
    {
      var possibleUrl :| possibleUrl in pending;
      var segment := parseUri(possibleUrl);
      if segment.Some? {
        twitterUrl := twitterUrl + {segment.value};
      }
      pending := pending - {possibleUrl};
      assert UrlSegments(handles - pending, parseUri)
          == UrlSegments(handles - (pending + {possibleUrl}), parseUri) + (if segment.Some? then {segment.value} else {});
    }
  }

  /**
    Builds the identifier queries of a request. The handle set is grown with the last
    segment of every URL in it, then every value equal to no earlier result's Klout id is queried,
    in the set's (unspecified) enumeration order.
  */
  method BuildQueries(request: ExternalSearchRequest, existingResults: seq<KloutId>, parseUri: string -> Option<string>)
    returns (queries: seq<ExternalSearchQuery>)
    ensures !Accepts(request.entityType) ==> queries == []
    ensures forall i :: 0 <= i < |queries| ==>
      exists v :: v in QueryValues(request, existingResults, parseUri) && queries[i] == IdentifierQuery(request.entityType, v)
    ensures forall v :: v in QueryValues(request, existingResults, parseUri) ==>
      exists i :: 0 <= i < |queries| && queries[i] == IdentifierQuery(request.entityType, v)
    ensures forall i, j :: 0 <= i < j < |queries| ==> queries[i] != queries[j]
    ensures |queries| == |QueryValues(request, existingResults, parseUri)|
  {
    queries := [];
    if !Accepts(request.entityType) {
      return;
    }
    var twitterUrl := AddUrlSegments(request.socialTwitter, parseUri);
    // one query per value that passes the id filter
    var rest := twitterUrl;
    ghost var kept: set<string> := {};
    ghost var values: seq<string> := [];
    while rest != {}
      invariant rest <= twitterUrl
      invariant forall v :: v in kept <==> v in twitterUrl && v !in rest && !IsKnownId(existingResults, v)
      invariant |queries| == |values| == |kept|
      invariant forall i :: 0 <= i < |values| ==> values[i] in kept && queries[i] == IdentifierQuery(request.entityType, values[i])
      invariant forall v :: v in kept ==> v in values
      invariant forall i, j :: 0 <= i < j < |values| ==> values[i] != values[j]
      decreases rest
    {
      var value :| value in rest;
      if !IsKnownId(existingResults, value) {
        queries := queries + [IdentifierQuery(request.entityType, value)];
        values := values + [value];
        kept := kept + {value};
      }
      rest := rest - {value};
    }
    assert kept == QueryValues(request, existingResults, parseUri);
    forall v | v in kept
      ensures exists i :: 0 <= i < |queries| && queries[i] == IdentifierQuery(request.entityType, v)
    {
      var i :| 0 <= i < |values| && values[i] == v;
    }
  }

  // ---------------------------------------------------------------------------------
  // Search execution
  // ---------------------------------------------------------------------------------

  const StatusOK := 200
  const StatusNoContent := 204
  const StatusNotFound := 404

  /** The exception a failed HTTP exchange carries. */
  datatype ErrorException = ErrorException(message: string)

  /** The identity lookup's response: HTTP status, deserialised payload and transport error. */
  datatype IdentityResponse = IdentityResponse(statusCode: int, data: Option<KloutId>, errorException: Option<ErrorException>)

  /** The payloads of the user, topics and influence requests for the resolved id (taken unchecked). */
  datatype FollowUpPayloads = FollowUpPayloads(user: Option<KloutUser>, topics: Option<seq<KloutTopic>>, influencers: Option<KloutInfluencers>)

  /** The Klout API requests a search issues, in order. */
  datatype ApiRequest =
    | IdentityLookup(screenName: string)
    | UserLookup(kloutId: string)
    | TopicsLookup(kloutId: string)
    | InfluenceLookup(kloutId: string)

  /**
    The exceptions a search throws. The message of `ApplicationException` is a fixed
    prefix followed by the status code's name; the status stands for it here.
  */
  datatype SearchException =
    | AggregateException(message: string, inner: ErrorException)
    | ApplicationException(statusCode: int)

  datatype SearchOutcome = Results(results: seq<KloutObject>) | Thrown(exception: SearchException)

  /** What one search does: the requests it issues and how it ends. */
  datatype SearchRun = SearchRun(requests: seq<ApiRequest>, outcome: SearchOutcome)

  /** `FirstOrDefault` on a sequence of strings. */
  function FirstOrDefault(values: seq<string>): (r: Option<string>)
    ensures r.Some? <==> values != []
    ensures r.Some? ==> r.value == values[0]
  {
    if values == [] then None else Some(values[0])
  }

  /** The outcome of looking up `name`, given the identity lookup's response and the follow-up payloads. */
  function Dispatch(name: string, identity: IdentityResponse, followUps: FollowUpPayloads): SearchRun
  {
    var lookup := IdentityLookup(name);
    if identity.statusCode == StatusOK then
      if identity.data.Some? && identity.data.value.id.Some? then
        var id := identity.data.value.id.value;
        SearchRun([lookup, UserLookup(id), TopicsLookup(id), InfluenceLookup(id)],
                  Results([KloutObject(followUps.influencers, followUps.topics, followUps.user, Some(name))]))
      else
        SearchRun([lookup], Results([]))
    else if identity.statusCode == StatusNoContent || identity.statusCode == StatusNotFound then
      SearchRun([lookup], Results([]))
    else if identity.errorException.Some? then
      var inner := identity.errorException.value;
      SearchRun([lookup], Thrown(AggregateException(inner.message, inner)))
    else
      SearchRun([lookup], Thrown(ApplicationException(identity.statusCode)))
  }

  /** Executes a query: looks up the first identifier value, unless it is null or empty. */
  function ExecuteSearch(query: ExternalSearchQuery, identity: IdentityResponse, followUps: FollowUpPayloads): (run: SearchRun)
    // a null or empty identifier: no request and no result
    ensures IsNullOrEmpty(FirstOrDefault(query.identifiers)) <==> run.requests == []
    ensures IsNullOrEmpty(FirstOrDefault(query.identifiers)) ==> run.outcome == Results([])
    // otherwise the identity lookup comes first, for that name
    ensures run.requests != [] ==> run.requests[0] == IdentityLookup(query.identifiers[0])
    // exactly one result when the lookup answered OK with an id
    ensures run.outcome.Results? ==> |run.outcome.results| <= 1
    ensures (run.outcome.Results? && |run.outcome.results| == 1) <==>
      (!IsNullOrEmpty(FirstOrDefault(query.identifiers)) && identity.statusCode == StatusOK
       && identity.data.Some? && identity.data.value.id.Some?)
    ensures run.outcome.Results? && |run.outcome.results| == 1 ==>
      var found := run.outcome.results[0];
      var id := identity.data.value.id.value;
      found.Twitter == Some(query.identifiers[0]) && found.User == followUps.user
      && found.Topics == followUps.topics && found.Influencers == followUps.influencers
      && run.requests == [IdentityLookup(query.identifiers[0]), UserLookup(id), TopicsLookup(id), InfluenceLookup(id)]
    // any status but OK, NoContent and NotFound throws
    // the no-result outcomes after a lookup issue the identity request alone
    ensures run.outcome == Results([]) && !IsNullOrEmpty(FirstOrDefault(query.identifiers)) ==>
      run.requests == [IdentityLookup(query.identifiers[0])]
    ensures run.outcome.Thrown? <==>
      (!IsNullOrEmpty(FirstOrDefault(query.identifiers))
       && identity.statusCode !in {StatusOK, StatusNoContent, StatusNotFound})
    ensures run.outcome.Thrown? ==>
      run.requests == [IdentityLookup(query.identifiers[0])]
      && (run.outcome.exception.AggregateException? <==> identity.errorException.Some?)
    ensures run.outcome.Thrown? && run.outcome.exception.AggregateException? ==>
      run.outcome.exception.inner == identity.errorException.value
      && run.outcome.exception.message == identity.errorException.value.message
    ensures run.outcome.Thrown? && run.outcome.exception.ApplicationException? ==>
      run.outcome.exception.statusCode == identity.statusCode
  {
    var name := FirstOrDefault(query.identifiers);
    if IsNullOrEmpty(name) then SearchRun([], Results([]))
    else Dispatch(name.value, identity, followUps)
  }

  // ---------------------------------------------------------------------------------
  // Metadata population
  // ---------------------------------------------------------------------------------

  /** One tag per topic, in topic order. */
  function TopicTags(topics: seq<KloutTopic>): seq<Tag>
  {
    if topics == [] then []
    else TopicTags(topics[..|topics| - 1]) + [Tag(topics[|topics| - 1].name)]
  }

  /** The steps shared by every overload: type, name when known, origin code and score. */
  function Describe(m: Metadata, person: KloutUser): Metadata
  {
    m.(entityType := Some(Person),
       name := if person.nick.Some? then person.nick else m.name,
       originEntityCode := Some(KloutCode(person.kloutId)),
       properties := m.properties[ScoreKey := NumberText(person.score.score)])
  }

  /** The metadata of the looked-up user, populated over `m`. */
  function PrimaryPopulated(m: Metadata, item: KloutObject): Metadata
    requires item.User.Some? && item.Topics.Some?
  {
    var user := item.User.value;
    var d := Describe(m, user);
    d.(tags := d.tags + TopicTags(item.Topics.value),
       codes := d.codes + [TwitterCode(item.Twitter), KloutCode(user.kloutId)])
  }

  /** The edge from a related person to the looked-up user. */
  function SimilarToEdge(person: KloutUser, user: KloutUser): EntityEdge
  {
    EntityEdge(EntityReference(KloutCode(person.kloutId)), EntityReference(KloutCode(user.kloutId)), SimilarTo)
  }

  /**
    The metadata of a person related to `user` (an influencer or an influencee),
    populated over `m`. The Twitter handle of the related person is never fetched, so
    its twitter code has a null value.
  */
  function RelatedPopulated(m: Metadata, person: KloutUser, topics: seq<KloutTopic>, user: KloutUser): Metadata
  {
    var d := Describe(m, person);
    d.(tags := d.tags + TopicTags(topics),
       outgoingEdges := d.outgoingEdges + [SimilarToEdge(person, user)],
       codes := d.codes + [TwitterCode(None), KloutCode(person.kloutId)])
  }

  /** Sets type, name, origin code and score of `metadata` from `person`. */
  method DescribePerson(metadata: EntityMetadataPart, person: KloutUser)
    modifies metadata
    ensures metadata.Snapshot() == Describe(old(metadata.Snapshot()), person)
  {
    var code := KloutCode(person.kloutId);
    metadata.entityType := Some(Person);
    if person.nick.Some? {
      metadata.name := person.nick;
    }
    metadata.originEntityCode := Some(code);
    metadata.properties := metadata.properties[ScoreKey := NumberText(person.score.score)];
  }

  /** Adds one tag per topic, in topic order. */
  method AddTopicTags(metadata: EntityMetadataPart, topics: seq<KloutTopic>)
    modifies metadata
    ensures metadata.Snapshot() == old(metadata.Snapshot()).(tags := old(metadata.tags) + TopicTags(topics))
  {
    for i := 0 to |topics|
      invariant metadata.Snapshot() == old(metadata.Snapshot()).(tags := old(metadata.tags) + TopicTags(topics[..i]))
    {
      metadata.tags := metadata.tags + [Tag(topics[i].name)];
      assert topics[..i + 1][..i] == topics[..i];
    }
    assert topics[..|topics|] == topics;
  }

  /** Populates `metadata` with the looked-up user's profile, topics and codes. */
  method PopulateMetadata(metadata: EntityMetadataPart, item: KloutObject)
    requires item.User.Some? && item.Topics.Some?
    modifies metadata
    ensures metadata.Snapshot() == PrimaryPopulated(old(metadata.Snapshot()), item)
  {
    var user := item.User.value;
    DescribePerson(metadata, user);
    AddTopicTags(metadata, item.Topics.value);
    metadata.codes := metadata.codes + [TwitterCode(item.Twitter)];
    metadata.codes := metadata.codes + [KloutCode(user.kloutId)];
  }

  /** Populates `metadata` with a person related to `user`, given that person's topics. */
  method PopulateRelatedMetadata(metadata: EntityMetadataPart, person: KloutUser, topics: Option<seq<KloutTopic>>, user: KloutUser)
    requires topics.Some?
    modifies metadata
    ensures metadata.Snapshot() == RelatedPopulated(old(metadata.Snapshot()), person, topics.value, user)
  {
    DescribePerson(metadata, person);
    // the related person's own object: only its topics are fetched
    var related := KloutObject(None, topics, None, None);
    AddTopicTags(metadata, related.Topics.value);
    metadata.outgoingEdges := metadata.outgoingEdges + [SimilarToEdge(person, user)];
    metadata.codes := metadata.codes + [TwitterCode(related.Twitter)];
    metadata.codes := metadata.codes + [KloutCode(person.kloutId)];
  }

  /** The overload for an influencee of `user`. */
  method PopulateInfluenceeMetadata(metadata: EntityMetadataPart, influencee: MyInfluencee, topics: Option<seq<KloutTopic>>, user: KloutUser)
    requires topics.Some?
    modifies metadata
    ensures metadata.Snapshot() == RelatedPopulated(old(metadata.Snapshot()), influencee.entity.payload, topics.value, user)
  {
    PopulateRelatedMetadata(metadata, influencee.entity.payload, topics, user);
  }

  /** The overload for an influencer of `user`. */
  method PopulateInfluencerMetadata(metadata: EntityMetadataPart, influencer: MyInfluencer, topics: Option<seq<KloutTopic>>, user: KloutUser)
    requires topics.Some?
    modifies metadata
    ensures metadata.Snapshot() == RelatedPopulated(old(metadata.Snapshot()), influencer.entity.payload, topics.value, user)
  {
    PopulateRelatedMetadata(metadata, influencer.entity.payload, topics, user);
  }

  /** A fresh metadata part populated with the looked-up user. */
  method CreateMetadata(item: KloutObject) returns (metadata: EntityMetadataPart)
    requires item.User.Some? && item.Topics.Some?
    ensures fresh(metadata)
    ensures metadata.Snapshot() == PrimaryPopulated(EmptyMetadata, item)
  {
    metadata := new EntityMetadataPart();
    PopulateMetadata(metadata, item);
  }

  method GetPrimaryEntityMetadata(item: KloutObject) returns (metadata: EntityMetadataPart)
    requires item.User.Some? && item.Topics.Some?
    ensures fresh(metadata)
    ensures metadata.Snapshot() == PrimaryPopulated(EmptyMetadata, item)
  {
    metadata := CreateMetadata(item);
  }

  /** The provider offers no preview image. */
  function GetPrimaryEntityPreviewImage(item: KloutObject): (image: Option<PreviewImage>)
    ensures image == None
  {
    None
  }

  // ---------------------------------------------------------------------------------
  // Clues
  // ---------------------------------------------------------------------------------

  /** What `BuildClues` dereferences without a check must be non-null. */
  predicate CluesInputPresent(item: KloutObject, lookupTopics: string -> Option<seq<KloutTopic>>)
  {
    && item.User.Some? && item.Topics.Some? && item.Influencers.Some?
    && item.Influencers.value.myInfluencees.Some? && item.Influencers.value.myInfluencers.Some?
    && (forall e :: e in item.Influencers.value.myInfluencees.value ==> lookupTopics(e.entity.payload.kloutId).Some?)
    && (forall e :: e in item.Influencers.value.myInfluencers.value ==> lookupTopics(e.entity.payload.kloutId).Some?)
  }

  /** The clue about the looked-up user. */
  function PrimaryClue(item: KloutObject, organization: Organization): Clue
    requires item.User.Some? && item.Topics.Some?
  {
    Clue(KloutCode(item.User.value.kloutId), organization, ProviderId, PrimaryPopulated(EmptyMetadata, item))
  }

  /** The clue about a person related to `user`. */
  function RelatedClue(person: KloutUser, topics: seq<KloutTopic>, user: KloutUser, organization: Organization): Clue
  {
    Clue(KloutCode(person.kloutId), organization, ProviderId, RelatedPopulated(EmptyMetadata, person, topics, user))
  }

  /**
    Builds the clues of a search result: the looked-up user first, then every influencee,
    then every influencer, each in list order. `lookupTopics` answers the topics request
    made for each related person.
  */
  method BuildClues(item: KloutObject, organization: Organization, lookupTopics: string -> Option<seq<KloutTopic>>)
    returns (clues: seq<Clue>)
    requires CluesInputPresent(item, lookupTopics)
    ensures |clues| == 1 + |item.Influencers.value.myInfluencees.value| + |item.Influencers.value.myInfluencers.value|
    ensures clues[0] == PrimaryClue(item, organization)
    ensures clues[0].code == KloutCode(item.User.value.kloutId)
    ensures
      var influencees := item.Influencers.value.myInfluencees.value;
      forall i :: 0 <= i < |influencees| ==>
        var p := influencees[i].entity.payload;
        clues[1 + i] == RelatedClue(p, lookupTopics(p.kloutId).value, item.User.value, organization)
    ensures
      var influencees := item.Influencers.value.myInfluencees.value;
      var influencers := item.Influencers.value.myInfluencers.value;
      forall j :: 0 <= j < |influencers| ==>
        var p := influencers[j].entity.payload;
        clues[1 + |influencees| + j] == RelatedClue(p, lookupTopics(p.kloutId).value, item.User.value, organization)
    ensures forall c :: c in clues ==> c.originProviderDefinitionId == ProviderId && c.organization == organization
  {
    var user := item.User.value;
    var influencees := item.Influencers.value.myInfluencees.value;
    var influencers := item.Influencers.value.myInfluencers.value;

    var data := new EntityMetadataPart();
    PopulateMetadata(data, item);
    var influenceeClues := InfluenceeClues(influencees, user, organization, lookupTopics);
    var influencerClues := InfluencerClues(influencers, user, organization, lookupTopics);
    var primary := Clue(KloutCode(user.kloutId), organization, ProviderId, data.Snapshot());
    clues := [primary] + influenceeClues + influencerClues;
    assert clues[1..1 + |influencees|] == influenceeClues;
    assert clues[1 + |influencees|..] == influencerClues;
  }

  /** One clue per influencee of `user`, in list order. */
  method InfluenceeClues(influencees: seq<MyInfluencee>, user: KloutUser, organization: Organization,
                         lookupTopics: string -> Option<seq<KloutTopic>>)
    returns (clues: seq<Clue>)
    requires forall e :: e in influencees ==> lookupTopics(e.entity.payload.kloutId).Some?
    ensures |clues| == |influencees|
    ensures forall c :: c in clues ==> c.originProviderDefinitionId == ProviderId && c.organization == organization
    ensures forall i :: 0 <= i < |influencees| ==>
      var p := influencees[i].entity.payload;
      clues[i] == RelatedClue(p, lookupTopics(p.kloutId).value, user, organization)
  {
    clues := [];
    for i := 0 to |influencees|
      invariant |clues| == i
      invariant forall k :: 0 <= k < i ==>
        var p := influencees[k].entity.payload;
        clues[k] == RelatedClue(p, lookupTopics(p.kloutId).value, user, organization)
    {
      var influencee := influencees[i];
      var person := influencee.entity.payload;
      var influenceeData := new EntityMetadataPart();
      PopulateInfluenceeMetadata(influenceeData, influencee, lookupTopics(person.kloutId), user);
      clues := clues + [Clue(KloutCode(person.kloutId), organization, ProviderId, influenceeData.Snapshot())];
    }
  }

  /** One clue per influencer of `user`, in list order. */
  method InfluencerClues(influencers: seq<MyInfluencer>, user: KloutUser, organization: Organization,
                         lookupTopics: string -> Option<seq<KloutTopic>>)
    returns (clues: seq<Clue>)
    requires forall e :: e in influencers ==> lookupTopics(e.entity.payload.kloutId).Some?
    ensures |clues| == |influencers|
    ensures forall c :: c in clues ==> c.originProviderDefinitionId == ProviderId && c.organization == organization
    ensures forall j :: 0 <= j < |influencers| ==>
      var p := influencers[j].entity.payload;
      clues[j] == RelatedClue(p, lookupTopics(p.kloutId).value, user, organization)
  {
    clues := [];
    for j := 0 to |influencers|
      invariant |clues| == j
      invariant forall k :: 0 <= k < j ==>
        var p := influencers[k].entity.payload;
        clues[k] == RelatedClue(p, lookupTopics(p.kloutId).value, user, organization)
    {
      var influencer := influencers[j];
      var person := influencer.entity.payload;
      var influencerData := new EntityMetadataPart();
      PopulateInfluencerMetadata(influencerData, influencer, lookupTopics(person.kloutId), user);
      clues := clues + [Clue(KloutCode(person.kloutId), organization, ProviderId, influencerData.Snapshot())];
    }
  }
}
