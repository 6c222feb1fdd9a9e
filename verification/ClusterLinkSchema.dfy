/** Attributes of the cluster link resource, their validation, and the choice of the
    cluster that REST calls go to. */
module ClusterLinkSchema {
  import opened Wrappers

  const BIDIRECTIONAL := "BIDIRECTIONAL"
  const DESTINATION := "DESTINATION"
  const SOURCE := "SOURCE"
  const INBOUND := "INBOUND"
  const OUTBOUND := "OUTBOUND"

  /** The settings a user may put into the `config` block. */
  const EDITABLE: set<string> := {
    "acl.filters",
    "acl.sync.enable",
    "acl.sync.ms",
    "auto.create.mirror.topics.enable",
    "auto.create.mirror.topics.filters",
    "cluster.link.prefix",
    "consumer.group.prefix.enable",
    "consumer.offset.group.filters",
    "consumer.offset.sync.enable",
    "consumer.offset.sync.ms",
    "mirror.start.offset.spec",
    "topic.config.sync.ms",
    "topic.config.sync.include"
  }

  datatype Credentials = Credentials(key: string, secret: string)

  /** One of the four Kafka cluster blocks. */
  datatype Block = Block(id: string, restEndpoint: string, bootstrapEndpoint: string, credentials: Option<Credentials>)

  /** The attributes of one cluster link resource. */
  datatype LinkState = LinkState(
    id: string,
    name: string,
    mode: string,
    connection: string,
    source: Option<Block>,
    destination: Option<Block>,
    local: Option<Block>,
    remote: Option<Block>,
    linkId: string,
    configs: map<string, string>)

  // Absent blocks and attributes read as empty strings.

  function IdOf(b: Option<Block>): string {
    if b.Some? then b.value.id else ""
  }

  function RestOf(b: Option<Block>): string {
    if b.Some? then b.value.restEndpoint else ""
  }

  function BootstrapOf(b: Option<Block>): string {
    if b.Some? then b.value.bootstrapEndpoint else ""
  }

  function CredentialsOf(b: Option<Block>): Option<Credentials> {
    if b.Some? then b.value.credentials else None
  }

  function KeyOf(b: Option<Block>): string {
    if CredentialsOf(b).Some? then CredentialsOf(b).value.key else ""
  }

  function SecretOf(b: Option<Block>): string {
    if CredentialsOf(b).Some? then CredentialsOf(b).value.secret else ""
  }

  /** The block flattened to strings, as read-back and import handle it. */
  datatype Endpoint = Endpoint(id: string, restEndpoint: string, bootstrapEndpoint: string, key: string, secret: string)

  function Flatten(b: Option<Block>): Endpoint {
    Endpoint(IdOf(b), RestOf(b), BootstrapOf(b), KeyOf(b), SecretOf(b))
  }

  // ---- The two sides of a link. Which block plays which role depends on the mode alone. ----

  /** The side whose REST endpoint owns the link. */
  function Near(l: LinkState): Option<Block> {
    if l.mode == BIDIRECTIONAL then l.local
    else if l.mode == DESTINATION then l.destination
    else l.source
  }

  /** The side the link connects to. */
  function Far(l: LinkState): Option<Block> {
    if l.mode == BIDIRECTIONAL then l.remote
    else if l.mode == DESTINATION then l.source
    else l.destination
  }

  /** The near side opens the connection. Source links do so whatever `connection_mode` says. */
  predicate OpensConnection(l: LinkState) {
    (l.mode == BIDIRECTIONAL || l.mode == DESTINATION) ==> l.connection == OUTBOUND
  }

  // ---- Schema ----

  predicate BlockAllowed(b: Option<Block>) {
    CredentialsOf(b).Some? ==> KeyOf(b) != "" && SecretOf(b) != ""
  }

  /** What the attribute validators of the schema let through. */
  predicate SchemaAllows(l: LinkState) {
    && l.mode in {BIDIRECTIONAL, DESTINATION, SOURCE}
    && l.connection in {INBOUND, OUTBOUND}
    && BlockAllowed(l.source) && BlockAllowed(l.destination) && BlockAllowed(l.local) && BlockAllowed(l.remote)
    && l.configs.Keys <= EDITABLE
  }

  // ---- Validation on create ----

  datatype BlockName = SourceBlock | DestinationBlock | LocalBlock | RemoteBlock

  datatype ValidationError =
    | CredentialsMissing(block: BlockName)
    | CredentialsForbidden(block: BlockName)
    | BootstrapMissing(block: BlockName)
    | RestMissing(block: BlockName)
    | SourceMustBeOutbound

  /** Checks the blocks against the link and connection modes, first failure first. */
  function Validate(l: LinkState, oauthEnabled: bool): Option<ValidationError> {
    if l.mode == BIDIRECTIONAL then
      if !oauthEnabled && CredentialsOf(l.local).None? then Some(CredentialsMissing(LocalBlock))
      else if BootstrapOf(l.remote) == "" then Some(BootstrapMissing(RemoteBlock))
      else if RestOf(l.local) == "" then Some(RestMissing(LocalBlock))
      else None
    else if !oauthEnabled && CredentialsOf(l.destination).None? then Some(CredentialsMissing(DestinationBlock))
    else if l.mode == DESTINATION then
      if BootstrapOf(l.source) == "" then Some(BootstrapMissing(SourceBlock))
      else if RestOf(l.destination) == "" then Some(RestMissing(DestinationBlock))
      else if l.connection == OUTBOUND then
        if !oauthEnabled && CredentialsOf(l.source).None? then Some(CredentialsMissing(SourceBlock)) else None
      else if CredentialsOf(l.source).Some? then Some(CredentialsForbidden(SourceBlock))
      else None
    else if l.mode == SOURCE then
      if l.connection == OUTBOUND then
        if RestOf(l.source) == "" then Some(RestMissing(SourceBlock))
        else if BootstrapOf(l.destination) == "" then Some(BootstrapMissing(DestinationBlock))
        else if !oauthEnabled && CredentialsOf(l.source).None? then Some(CredentialsMissing(SourceBlock))
        else None
      else Some(SourceMustBeOutbound)
    else None
  }

  /** Validation in terms of roles: it asks for a REST endpoint near and a bootstrap endpoint
      far, credentials near, and credentials far where the near side authenticates there. Far
      credentials are not asked of a bidirectional link, and refused only on a destination link. */
  lemma ValidateByRole(l: LinkState, oauthEnabled: bool)
    requires SchemaAllows(l)
    ensures Validate(l, oauthEnabled).None? <==>
            && RestOf(Near(l)) != ""
            && BootstrapOf(Far(l)) != ""
            && (oauthEnabled || CredentialsOf(Near(l)).Some?)
            && (l.mode == SOURCE ==> l.connection == OUTBOUND)
            && (!oauthEnabled && l.mode != BIDIRECTIONAL && l.connection == OUTBOUND ==> CredentialsOf(Far(l)).Some?)
            && (l.mode == DESTINATION && l.connection == INBOUND ==> CredentialsOf(Far(l)).None?)
  {
  }

  function BlockAt(l: LinkState, name: BlockName): Option<Block> {
    match name
    case SourceBlock => l.source
    case DestinationBlock => l.destination
    case LocalBlock => l.local
    case RemoteBlock => l.remote
  }

  /** A reported error is a fault of the very block it names, which is one of the two of the link. */
  lemma ErrorsAreTrue(l: LinkState, oauthEnabled: bool)
    requires SchemaAllows(l)
    ensures match Validate(l, oauthEnabled)
            case None => true
            case Some(CredentialsMissing(b)) =>
              !oauthEnabled && CredentialsOf(BlockAt(l, b)).None?
              && (BlockAt(l, b) == Near(l) || (BlockAt(l, b) == Far(l) && OpensConnection(l)))
            case Some(CredentialsForbidden(b)) =>
              CredentialsOf(BlockAt(l, b)).Some? && BlockAt(l, b) == Far(l) && !OpensConnection(l)
            case Some(BootstrapMissing(b)) => BootstrapOf(BlockAt(l, b)) == "" && BlockAt(l, b) == Far(l)
            case Some(RestMissing(b)) => RestOf(BlockAt(l, b)) == "" && BlockAt(l, b) == Near(l)
            case Some(SourceMustBeOutbound) => l.mode == SOURCE && l.connection == INBOUND
  {
  }

  // ---- REST client ----

  datatype RestClient = RestClient(restEndpoint: string, clusterId: string, key: string, secret: string)

  /** The client every operation on the link uses. */
  function ClientFor(l: LinkState): RestClient {
    if l.mode == BIDIRECTIONAL then
      RestClient(RestOf(l.local), IdOf(l.local), KeyOf(l.local), SecretOf(l.local))
    else if l.mode == DESTINATION then
      RestClient(RestOf(l.destination), IdOf(l.destination), KeyOf(l.destination), SecretOf(l.destination))
    else
      RestClient(RestOf(l.source), IdOf(l.source), KeyOf(l.source), SecretOf(l.source))
  }

  lemma ClientIsNear(l: LinkState)
    ensures var near := Flatten(Near(l));
            ClientFor(l) == RestClient(near.restEndpoint, near.id, near.key, near.secret)
  {
  }

  function CompositeId(clusterId: string, linkName: string): string {
    clusterId + "/" + linkName
  }
}
