/** Rows of the tables that the panel's service layer reads and writes, and the
    requests and replies of its operations.

    Row ids, session tokens, runtime credentials and secrets are all drawn from the
    one counter `nextId`: they never repeat, which is what the code relies on for
    UUIDs and 32-byte random tokens. Hashes are taken to be injective, so a row
    holds the hashed value itself. Instants are integers. */
module Schema {
  import opened Wrappers

  type Id = nat

  datatype Error =
    | InvalidRequest | InvalidCredentials | SessionInvalid | SessionReplaced | UserDisabled
    | Forbidden | NotFound | ConfigConflict | RevisionConflict | IdempotencyReuse
    | PortReserved | PortNotAllowed | NoFreePort
    | MappingQuota | PendingMappingQuota | PendingPortQuota
    | HttpMappingRequired | DomainQuota | DomainReserved
    | StorageError | CleanupFailed | Waiting

  datatype Result<+T> = Ok(value: T) | Err(error: Error)

  /** Panel settings that the modelled operations read. */
  datatype Config = Config(portStart: int, portEnd: int, bindPort: int, sessionTtl: int)

  /** The caller, as the HTTP layer hands it to the service. */
  datatype AuthContext = AuthContext(user: Id, admin: bool, generation: int, session: Id)

  // ---------- users, sessions, credentials ----------

  datatype UserStatus = ActiveUser | DisabledUser | DeletingUser | DeletedUser

  datatype User = User(
    username: string, password: string, admin: bool, status: UserStatus,
    generation: int, desired: int, applied: int, lastFailed: Option<int>,
    maxMappings: int, maxDomains: int, maxPendingMappings: int, maxPendingPorts: int)

  datatype Channel = AdminPanel | ClientPanel

  datatype Session = Session(
    user: Id, token: Id, channel: Channel, generation: int,
    expires: int, idle: int, revoked: bool)

  /** The per-user FRP secret; the row key is the user. */
  datatype FrpCredential = FrpCredential(secret: Id, version: int)

  datatype RuntimeCredential = RuntimeCredential(
    user: Id, session: Id, generation: int, token: Id, expires: int, revoked: bool)

  // ---------- mappings, revisions, port leases ----------

  datatype ProxyType = Tcp | Udp | Http | UnsupportedProxy

  datatype Lifecycle =
    | Reserved | PendingApply | Running | Offline | ConfigError | Disabled | Deleting | Deleted

  datatype Observed = ObservedRunning | ObservedOffline

  datatype Mapping = Mapping(
    owner: Id, name: string, proxyType: ProxyType, lifecycle: Lifecycle,
    enabled: bool, observed: Observed, active: Option<Id>, pending: Option<Id>)

  datatype RevisionStatus = Pending | Applying | Active | Failed | Superseded | RolledBack

  datatype Revision = Revision(
    mapping: Id, number: int, localIp: string, localPort: int, port: Option<int>, status: RevisionStatus)

  datatype LeaseRole = ActiveRole | PendingRole

  datatype Lease = Lease(mapping: Id, revision: Id, port: int, role: LeaseRole)

  // ---------- domains, DNS records, residues ----------

  datatype DomainStatus =
    | PendingDns | PendingClient | PendingCertificate | PendingRouter
    | ActiveDomain | DnsError | CertificateError | DeletingDomain | DeletedDomain

  datatype HttpsMode = AutoCertificate | CloudflareProxy | HttpOnly

  datatype Domain = Domain(owner: Id, mapping: Id, hostname: string, mode: HttpsMode, status: DomainStatus)

  /** A record at the DNS provider. */
  datatype ExternalRef = ExternalRef(zone: string, record: string)

  /** What a record is to say. */
  datatype DnsSpec = DnsSpec(kind: string, content: string, ttl: int)

  datatype DnsRow = DnsRow(
    owner: Id, domain: Option<Id>, external: ExternalRef, spec: DnsSpec, managed: bool, adopted: bool, synced: int)

  /** The latest `delete` operation of a user and whether force was ever requested. */
  datatype Deletion = Deletion(operation: Id, forced: bool)

  datatype Residue = Residue(operation: Id, domain: Id, external: Option<ExternalRef>)

  // ---------- idempotency records ----------

  datatype MappingRequest = MappingRequest(
    name: string, proxyType: ProxyType, localIp: string, localPort: int, remotePort: Option<int>,
    textValid: bool, expectedVersion: Option<int>, expectedRevision: Option<int>)

  datatype DomainRequest = DomainRequest(
    mapping: Id, hostname: string, mode: HttpsMode, spec: DnsSpec, textValid: bool, expectedVersion: Option<int>)

  datatype Endpoint =
    | CreateMappingAt | UpdateMappingAt(mapping: Id) | ToggleMappingAt(mapping: Id) | DeleteMappingAt(mapping: Id)
    | CreateDomainAt | DeleteDomainAt(domain: Id)
    | ResetOwnCredentialAt | ResetUserCredentialAt(user: Id) | DeleteUserAt(user: Id)

  datatype Key = Given(text: string) | Minted(id: Id)

  datatype RecordKey = RecordKey(user: Id, generation: int, endpoint: Endpoint, key: Key)

  datatype Body =
    | MappingBody(mappingRequest: MappingRequest)
    | ToggleBody(enabled: bool, expectedVersion: Option<int>, expectedRevision: Option<int>)
    | ForceBody(force: bool)
    | DomainBody(domainRequest: DomainRequest)
    | EmptyBody
    | ResetBody(target: Id, proof: string)

  datatype MappingView = MappingView(
    id: Id, owner: Id, name: string, proxyType: ProxyType, lifecycle: Lifecycle, enabled: bool,
    observed: Observed, revision: int, localIp: string, localPort: int, remotePort: Option<int>)

  datatype Reply =
    | MappingReply(view: MappingView)
    | OperationReply(operation: Id)
    | DomainReply(domain: Id)
    | SecretReply(version: int, generation: int)
    | Acknowledged

  datatype Record = Record(body: Body, reply: Reply)

  datatype ApplyStatus = ApplySucceeded | ApplyFailed | UnknownStatus

  datatype ApplyRequest = ApplyRequest(status: ApplyStatus, version: int, hash: Option<int>)

  // ---------- the database ----------

  /** `removed` is not a table: it is the provider's own ledger of the records it has
      deleted on the panel's request. */
  datatype Tables = Tables(
    nextId: Id,
    users: map<Id, User>,
    sessions: map<Id, Session>,
    credentials: map<Id, FrpCredential>,
    runtimes: map<Id, RuntimeCredential>,
    mappings: map<Id, Mapping>,
    revisions: map<Id, Revision>,
    leases: map<Id, Lease>,
    domains: map<Id, Domain>,
    dns: map<Id, DnsRow>,
    residues: map<Id, Residue>,
    removed: set<ExternalRef>,
    deletions: map<Id, Deletion>,
    records: map<RecordKey, Record>,
    snapshots: map<(Id, int), int>)

  /** An empty client key is replaced by a fresh one. */
  function KeyOf(key: Option<string>, minted: Id): Key {
    match key
    case Some(text) => Given(text)
    case None => Minted(minted)
  }

  /** A recorded key answers with the recorded reply, or refuses another body. */
  function Replay(record: Record, body: Body): Result<Reply> {
    if record.body == body then Ok(record.reply) else Err(IdempotencyReuse)
  }
}
