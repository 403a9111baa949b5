/** The panel's service as a state machine: one step per service method or job run,
    and runs of any length over any interleaving of callers. */
module Service {
  import opened Wrappers
  import opened Schema
  import opened Mappings
  import opened Identity
  import opened DnsSync
  import opened Domains

  datatype Op =
    // users and sessions
    | CreateUserOp(who: AuthContext, username: string, password: string, stored: bool)
    | SetStatusOp(who: AuthContext, user: Id, active: bool, ended: Ended)
    | ResetPasswordOp(who: AuthContext, user: Id, password: string, ended: Ended)
    | LoginOp(username: string, password: string, channel: Channel, now: int)
    | AuthenticateOp(token: Id, now: int, touched: bool)
    | LogoutOp(who: AuthContext, ended: Ended)
    // keyed writes
    | CreateMappingOp(who: AuthContext, mappingReq: MappingRequest, key: Option<string>)
    | UpdateMappingOp(who: AuthContext, mapping: Id, mappingReq: MappingRequest, key: Option<string>)
    | ToggleMappingOp(who: AuthContext, mapping: Id, enabled: bool, expectedVersion: Option<int>,
                      expectedRevision: Option<int>, key: Option<string>)
    | DeleteMappingOp(who: AuthContext, mapping: Id, force: bool, key: Option<string>)
    | CreateDomainOp(who: AuthContext, domainReq: DomainRequest, otherQuota: bool, key: Option<string>)
    | DeleteDomainOp(who: AuthContext, domain: Id, key: Option<string>)
    | ResetCredentialOp(who: AuthContext, target: Option<Id>, proof: string, proven: bool, key: Option<string>)
    | DeleteUserOp(who: AuthContext, user: Id, force: bool, key: Option<string>)
    // configuration
    | SnapshotOp(who: AuthContext, hash: int)
    | ApplyOp(who: AuthContext, applyReq: ApplyRequest)
    // jobs
    | FinalizeMappingOp(mapping: Id)
    | SyncDnsOp(domain: Id, fallback: DnsSpec, action: SyncAction, answers: Answers, reach: nat, now: int)
    | AdvanceDomainOp(domain: Id, status: DomainStatus, operator: bool)
    | DeleteDomainJob(domain: Id, outcome: ProviderOutcome, reach: nat)
    | DeleteUserJob(user: Id, operation: Id, force: bool, work: seq<DomainPlan>, rest: Finale)

  datatype Outcome =
    | Wrote(written: Result<Reply>)
    | Done(done: Result<()>)
    | Granted(grant: Result<Grant>)
    | Authenticated(session: Result<Id>)
    | Silent

  /** The signed configuration is stored under the user and the desired version, over any
      earlier one. */
  function TakeSnapshot(t: Tables, who: AuthContext, hash: int): (Tables, Result<()>) {
    if who.user !in t.users then (t, Err(NotFound))
    else (t.(snapshots := t.snapshots[(who.user, t.users[who.user].desired) := hash]), Ok(()))
  }

  ghost function Exec(t: Tables, cfg: Config, op: Op): (Tables, Outcome) {
    match op
    case CreateUserOp(who, username, password, stored) =>
      var (t', r) := CreateUser(t, who, username, password, stored); (t', Done(r))
    case SetStatusOp(who, user, active, ended) =>
      var (t', r) := SetUserStatus(t, who, user, active, ended); (t', Done(r))
    case ResetPasswordOp(who, user, password, ended) =>
      var (t', r) := ResetUserPassword(t, who, user, password, ended); (t', Done(r))
    case LoginOp(username, password, channel, now) =>
      var (t', r) := Login(t, cfg, username, password, channel, now); (t', Granted(r))
    case AuthenticateOp(token, now, touched) =>
      var (t', r) := Authenticate(t, token, now, touched); (t', Authenticated(r))
    case LogoutOp(who, ended) => (Logout(t, who, ended), Silent)
    case CreateMappingOp(who, req, key) =>
      var (t', r) := CreateMapping(t, cfg, who, req, key); (t', Wrote(r))
    case UpdateMappingOp(who, m, req, key) =>
      var (t', r) := UpdateMapping(t, cfg, who, m, req, key); (t', Wrote(r))
    case ToggleMappingOp(who, m, enabled, version, revision, key) =>
      var (t', r) := ToggleMapping(t, who, m, enabled, version, revision, key); (t', Wrote(r))
    case DeleteMappingOp(who, m, force, key) =>
      var (t', r) := DeleteMapping(t, who, m, force, key); (t', Wrote(r))
    case CreateDomainOp(who, req, otherQuota, key) =>
      var (t', r) := CreateDomain(t, who, req, otherQuota, key); (t', Wrote(r))
    case DeleteDomainOp(who, d, key) =>
      var (t', r) := DeleteDomain(t, who, d, key); (t', Wrote(r))
    case ResetCredentialOp(who, target, proof, proven, key) =>
      var (t', r) := ResetFRPCredential(t, who, target, proof, proven, key); (t', Wrote(r))
    case DeleteUserOp(who, user, force, key) =>
      var (t', r) := DeleteUser(t, who, user, force, key); (t', Wrote(r))
    case SnapshotOp(who, hash) =>
      var (t', r) := TakeSnapshot(t, who, hash); (t', Done(r))
    case ApplyOp(who, req) =>
      var (t', r) := ApplyResult(t, who, req); (t', Done(r))
    case FinalizeMappingOp(m) => (FinalizeMapping(t, m), Silent)
    case SyncDnsOp(d, fallback, action, answers, reach, now) =>
      (SyncDns(t, d, fallback, action, answers, reach, now), Silent)
    case AdvanceDomainOp(d, status, operator) => (AdvanceDomain(t, d, status, operator), Silent)
    case DeleteDomainJob(d, outcome, reach) => (CleanUpDomain(t, d, outcome, reach).0, Silent)
    case DeleteUserJob(user, operation, force, work, rest) =>
      var (t', r) := DeleteUserExternal(t, user, operation, force, work, rest); (t', Done(r))
  }

  /** Each step of the state machine is the operation of its name, with its arguments. */
  lemma StepIs(t: Tables, cfg: Config, op: Op)
    ensures match op
            case CreateUserOp(who, n, p, stored) => Exec(t, cfg, op).0 == CreateUser(t, who, n, p, stored).0
            case SetStatusOp(who, u, active, ended) => Exec(t, cfg, op).0 == SetUserStatus(t, who, u, active, ended).0
            case ResetPasswordOp(who, u, p, ended) => Exec(t, cfg, op).0 == ResetUserPassword(t, who, u, p, ended).0
            case LoginOp(n, p, channel, now) => Exec(t, cfg, op).0 == Login(t, cfg, n, p, channel, now).0
            case AuthenticateOp(token, now, touched) => Exec(t, cfg, op).0 == Authenticate(t, token, now, touched).0
            case LogoutOp(who, ended) => Exec(t, cfg, op).0 == Logout(t, who, ended)
            case CreateMappingOp(who, req, key) => Exec(t, cfg, op).0 == CreateMapping(t, cfg, who, req, key).0
            case UpdateMappingOp(who, m, req, key) => Exec(t, cfg, op).0 == UpdateMapping(t, cfg, who, m, req, key).0
            case ToggleMappingOp(who, m, on, v, r, key) =>
              Exec(t, cfg, op).0 == ToggleMapping(t, who, m, on, v, r, key).0
            case DeleteMappingOp(who, m, force, key) => Exec(t, cfg, op).0 == DeleteMapping(t, who, m, force, key).0
            case CreateDomainOp(who, req, q, key) => Exec(t, cfg, op).0 == CreateDomain(t, who, req, q, key).0
            case DeleteDomainOp(who, d, key) => Exec(t, cfg, op).0 == DeleteDomain(t, who, d, key).0
            case ResetCredentialOp(who, u, proof, proven, key) =>
              Exec(t, cfg, op).0 == ResetFRPCredential(t, who, u, proof, proven, key).0
            case DeleteUserOp(who, u, force, key) => Exec(t, cfg, op).0 == DeleteUser(t, who, u, force, key).0
            case SnapshotOp(who, hash) => Exec(t, cfg, op).0 == TakeSnapshot(t, who, hash).0
            case ApplyOp(who, req) => Exec(t, cfg, op).0 == ApplyResult(t, who, req).0
            case FinalizeMappingOp(m) => Exec(t, cfg, op).0 == FinalizeMapping(t, m)
            case SyncDnsOp(d, spec, action, answers, reach, now) =>
              Exec(t, cfg, op).0 == SyncDns(t, d, spec, action, answers, reach, now)
            case AdvanceDomainOp(d, status, operator) => Exec(t, cfg, op).0 == AdvanceDomain(t, d, status, operator)
            case DeleteDomainJob(d, outcome, reach) => Exec(t, cfg, op).0 == CleanUpDomain(t, d, outcome, reach).0
            case DeleteUserJob(u, operation, force, work, rest) =>
              Exec(t, cfg, op).0 == DeleteUserExternal(t, u, operation, force, work, rest).0
  {
  }

  ghost function Run(t: Tables, cfg: Config, ops: seq<Op>): Tables
    decreases |ops|
  {
    if ops == [] then t else Run(Exec(t, cfg, ops[0]).0, cfg, ops[1..])
  }

  /** The database after EnsureAdmin: one administrator, whose id is 0. */
  function Initial(password: string): Tables {
    Tables(nextId := 2,
           users := map[0 := NewUser("admin", password).(admin := true, generation := 1)],
           sessions := map[], credentials := map[0 := FrpCredential(1, 1)], runtimes := map[],
           mappings := map[], revisions := map[], leases := map[],
           domains := map[], dns := map[], residues := map[], removed := {}, deletions := map[],
           records := map[], snapshots := map[])
  }

  ghost predicate Reachable(t: Tables, cfg: Config) {
    exists password, ops :: t == Run(Initial(password), cfg, ops)
  }
}
