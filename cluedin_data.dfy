/**
  The host framework's data model, as far as the Klout provider uses it: entity types,
  entity codes, references, edges, tags, entity metadata, clues, search requests and
  queries. The host's own types are richer; here they are plain records, and the
  collections the provider adds to are sequences with append semantics.
*/
module CluedInData {
  import opened Wrappers

  /** The entity types the provider names; every other type is `OtherEntityType`. */
  datatype EntityType = Person | InfrastructureUser | InfrastructureContact | OtherEntityType(code: string)

  /** `CodeOrigin.CluedIn.CreateSpecific(name)`: the CluedIn origin qualified by a name. */
  datatype CodeOrigin = CluedInSpecific(name: string)

  /** A typed, origin-qualified external identifier; its value may be null. */
  datatype EntityCode = EntityCode(entityType: EntityType, origin: CodeOrigin, value: Option<string>)

  datatype EntityReference = EntityReference(code: EntityCode)

  datatype EntityEdgeType = SimilarTo

  datatype EntityEdge = EntityEdge(from: EntityReference, to: EntityReference, edgeType: EntityEdgeType)

  datatype Tag = Tag(name: string)

  /**
    A property value. `NumberText(x)` stands for the text that `x.ToString()` renders;
    that rendering depends on the runtime's culture and is not modelled further.
  */
  datatype PropertyValue = Text(text: string) | NumberText(number: real)

  /** The observable state of an entity metadata part, as a value. */
  datatype Metadata = Metadata(
    entityType: Option<EntityType>,
    name: Option<string>,
    originEntityCode: Option<EntityCode>,
    properties: map<string, PropertyValue>,
    tags: seq<Tag>,
    codes: seq<EntityCode>,
    outgoingEdges: seq<EntityEdge>)

  const EmptyMetadata := Metadata(None, None, None, map[], [], [], [])

  /** An entity metadata part, which the provider fills in place. */
  class EntityMetadataPart {
    var entityType: Option<EntityType>
    var name: Option<string>
    var originEntityCode: Option<EntityCode>
    var properties: map<string, PropertyValue>
    var tags: seq<Tag>
    var codes: seq<EntityCode>
    var outgoingEdges: seq<EntityEdge>

    constructor ()
      ensures Snapshot() == EmptyMetadata
    {
      entityType, name, originEntityCode := None, None, None;
      properties, tags, codes, outgoingEdges := map[], [], [], [];
    }

    /** The part's current state as a value. */
    function Snapshot(): Metadata
      reads this
    {
      Metadata(entityType, name, originEntityCode, properties, tags, codes, outgoingEdges)
    }
  }

  datatype Organization = Organization(id: string)

  /** A clue: the code it is about, its organisation, the provider that produced it and its entity data. */
  datatype Clue = Clue(code: EntityCode, organization: Organization, originProviderDefinitionId: string, entityData: Metadata)

  /**
    An inbound search request: the entity's type and the values of its
    social-twitter query parameter (empty when the parameter is absent).
  */
  datatype ExternalSearchRequest = ExternalSearchRequest(entityType: EntityType, socialTwitter: set<string>)

  /** An outbound query: its provider, entity type and the values of its Identifier parameter. */
  datatype ExternalSearchQuery = ExternalSearchQuery(providerId: string, entityType: EntityType, identifiers: seq<string>)

  datatype PreviewImage = PreviewImage(uri: string)
}
