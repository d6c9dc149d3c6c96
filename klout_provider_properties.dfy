/**
  What the provider's metadata population, query construction and search dispatch
  promise, stated over the specification functions of `KloutProvider`.
*/
module KloutProviderProperties {
  import opened Wrappers
  import opened KloutModel
  import opened CluedInData
  import opened KloutProvider

  /** `TopicTags` holds one tag per topic, named after it, in topic order. */
  lemma {:induction false} TopicTagsInOrder(topics: seq<KloutTopic>)
    ensures |TopicTags(topics)| == |topics|
    ensures forall i :: 0 <= i < |topics| ==> TopicTags(topics)[i] == Tag(topics[i].name)
  {
    if topics != [] {
      TopicTagsInOrder(topics[..|topics| - 1]);
    }
  }

  /**
    Populating the looked-up user: the type becomes Person, the origin code its Klout
    code, the name is replaced only by a non-null nick, the score is set and no other
    property changes, one tag is appended per topic, and exactly the twitter code and
    then the Klout code are appended. Edges are untouched.
  */
  lemma PrimaryPopulatedEffect(m: Metadata, item: KloutObject)
    requires item.User.Some? && item.Topics.Some?
    ensures
      var r := PrimaryPopulated(m, item);
      var user := item.User.value;
      var topics := item.Topics.value;
      && r.entityType == Some(Person)
      && r.originEntityCode == Some(EntityCode(Person, CluedInSpecific("klout"), Some(user.kloutId)))
      && (user.nick.Some? ==> r.name == user.nick)
      && (user.nick.None? ==> r.name == m.name)
      && r.properties.Keys == m.properties.Keys + {ScoreKey}
      && r.properties[ScoreKey] == NumberText(user.score.score)
      && (forall k :: k in m.properties && k != ScoreKey ==> r.properties[k] == m.properties[k])
      && |r.tags| == |m.tags| + |topics|
      && r.tags[..|m.tags|] == m.tags
      && (forall i :: 0 <= i < |topics| ==> r.tags[|m.tags| + i] == Tag(topics[i].name))
      && r.codes == m.codes + [EntityCode(Person, CluedInSpecific("social.twitter"), item.Twitter),
                               EntityCode(Person, CluedInSpecific("klout"), Some(user.kloutId))]
      && r.outgoingEdges == m.outgoingEdges
  {
    TopicTagsInOrder(item.Topics.value);
  }

  /**
    Populating a related person: the same header steps as for the looked-up user, one
    tag per topic, exactly one SimilarTo edge from the person's Klout code to the
    user's, and the two codes, of which the twitter one has a null value.
  */
  lemma RelatedPopulatedEffect(m: Metadata, person: KloutUser, topics: seq<KloutTopic>, user: KloutUser)
    ensures
      var r := RelatedPopulated(m, person, topics, user);
      && r.entityType == Some(Person)
      && r.originEntityCode == Some(EntityCode(Person, CluedInSpecific("klout"), Some(person.kloutId)))
      && (person.nick.Some? ==> r.name == person.nick)
      && (person.nick.None? ==> r.name == m.name)
      && r.properties.Keys == m.properties.Keys + {ScoreKey}
      && r.properties[ScoreKey] == NumberText(person.score.score)
      && (forall k :: k in m.properties && k != ScoreKey ==> r.properties[k] == m.properties[k])
      && |r.tags| == |m.tags| + |topics|
      && r.tags[..|m.tags|] == m.tags
      && (forall i :: 0 <= i < |topics| ==> r.tags[|m.tags| + i] == Tag(topics[i].name))
      && r.outgoingEdges == m.outgoingEdges + [EntityEdge(
           EntityReference(EntityCode(Person, CluedInSpecific("klout"), Some(person.kloutId))),
           EntityReference(EntityCode(Person, CluedInSpecific("klout"), Some(user.kloutId))),
           SimilarTo)]
      && r.codes == m.codes + [EntityCode(Person, CluedInSpecific("social.twitter"), None),
                               EntityCode(Person, CluedInSpecific("klout"), Some(person.kloutId))]
  {
    TopicTagsInOrder(topics);
  }

  /**
    The primary entity metadata, populated over a fresh part, holds exactly the user's
    topic tags, the twitter and Klout codes, the score, and no edges.
  */
  lemma PrimaryEntityMetadataContents(item: KloutObject)
    requires item.User.Some? && item.Topics.Some?
    ensures
      var r := PrimaryPopulated(EmptyMetadata, item);
      var user := item.User.value;
      && r.name == user.nick
      && r.properties == map[ScoreKey := NumberText(user.score.score)]
      && |r.tags| == |item.Topics.value|
      && (forall i :: 0 <= i < |r.tags| ==> r.tags[i] == Tag(item.Topics.value[i].name))
      && r.codes == [TwitterCode(item.Twitter), KloutCode(user.kloutId)]
      && r.outgoingEdges == []
  {
    TopicTagsInOrder(item.Topics.value);
    assert PrimaryPopulated(EmptyMetadata, item).tags == TopicTags(item.Topics.value);
  }

  /** The id filter compares case-insensitively: values equal up to case are filtered alike. */
  lemma KnownIdIgnoresCase(existingResults: seq<KloutId>, v: string, w: string)
    requires EqualsIgnoreCase(v, w)
    ensures IsKnownId(existingResults, v) <==> IsKnownId(existingResults, w)
  {
  }

  /**
    A query built for a non-empty value, answered OK with an id, yields exactly one
    result whose Twitter handle is that value; an empty value issues no request.
  */
  lemma QueryThenSearch(entityType: EntityType, value: string, identity: IdentityResponse, followUps: FollowUpPayloads)
    ensures value == "" ==> ExecuteSearch(IdentifierQuery(entityType, value), identity, followUps) == SearchRun([], Results([]))
    ensures value != "" && identity.statusCode == StatusOK && identity.data.Some? && identity.data.value.id.Some? ==>
      ExecuteSearch(IdentifierQuery(entityType, value), identity, followUps).outcome
        == Results([KloutObject(followUps.influencers, followUps.topics, followUps.user, Some(value))])
  {
  }
}
