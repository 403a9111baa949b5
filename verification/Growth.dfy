/** What every step other than a cleanup job has in common: users stay, their versions
    and generations never go back, and records of answered requests stay. */
module Growth {
  import opened Wrappers
  import opened Schema
  import opened Mappings
  import opened Identity
  import opened DnsSync
  import opened Domains
  import opened Service
  import opened Decay
  import opened MappingInvariants
  import opened Invariants
  import opened DomainInvariants

  /** New users have new ids; quotas are never changed. */
  ghost predicate UsersAdvance(t: Tables, t': Tables) {
    && t.nextId <= t'.nextId
    && (forall u {:trigger t'.users[u]} {:trigger u in t.users} :: u in t.users ==>
          && u in t'.users
          && t.users[u].desired <= t'.users[u].desired && t.users[u].generation <= t'.users[u].generation
          && SameQuotas(t.users[u], t'.users[u]))
    && (forall u :: u in t'.users && u !in t.users ==> t.nextId <= u && NoDebt(t'.users[u]))
  }

  predicate SameQuotas(u: User, v: User) {
    && u.maxMappings == v.maxMappings && u.maxDomains == v.maxDomains
    && u.maxPendingMappings == v.maxPendingMappings && u.maxPendingPorts == v.maxPendingPorts
  }

  predicate NoDebt(u: User) { u.maxMappings >= 0 && u.maxPendingMappings >= 0 && u.maxPendingPorts >= 0 }

  ghost predicate RecordsStay(t: Tables, t': Tables) {
    forall k :: k in t.records ==> k in t'.records && t'.records[k] == t.records[k]
  }

  ghost predicate Grows(t: Tables, t': Tables) { UsersAdvance(t, t') && RecordsStay(t, t') }

  /** New users have applied nothing. */
  ghost predicate AppliedKept(t: Tables, t': Tables) {
    forall u :: u in t'.users ==> t'.users[u].applied == if u in t.users then t.users[u].applied else 0
  }

  ghost predicate GrowsUnapplied(t: Tables, t': Tables) {
    Grows(t, t') && AppliedKept(t, t') && t'.snapshots == t.snapshots
  }

  lemma CreateMappingGrows(t: Tables, cfg: Config, who: AuthContext, req: MappingRequest, key: Option<string>)
    ensures var t' := CreateMapping(t, cfg, who, req, key).0; t' == t || GrowsUnapplied(t, t')
  {
  }

  lemma UpdateMappingGrows(t: Tables, cfg: Config, who: AuthContext, m: Id, req: MappingRequest, key: Option<string>)
    ensures var t' := UpdateMapping(t, cfg, who, m, req, key).0; t' == t || GrowsUnapplied(t, t')
  {
  }

  lemma ToggleMappingGrows(t: Tables, who: AuthContext, m: Id, enabled: bool,
                           expectedVersion: Option<int>, expectedRevision: Option<int>, key: Option<string>)
    ensures var t' := ToggleMapping(t, who, m, enabled, expectedVersion, expectedRevision, key).0;
            t' == t || GrowsUnapplied(t, t')
  {
  }

  lemma DeleteMappingGrows(t: Tables, who: AuthContext, m: Id, force: bool, key: Option<string>)
    ensures var t' := DeleteMapping(t, who, m, force, key).0; t' == t || GrowsUnapplied(t, t')
  {
  }

  lemma ApplyResultGrows(t: Tables, who: AuthContext, req: ApplyRequest)
    ensures var t' := ApplyResult(t, who, req).0; t' == t || (Grows(t, t') && t'.snapshots == t.snapshots)
  {
    assert Grows(t, Settled(t, who.user, req.version));
    assert Grows(t, Abandoned(t, who.user, req.version));
  }

  lemma CreateDomainGrows(t: Tables, who: AuthContext, req: DomainRequest, otherQuota: bool, key: Option<string>)
    ensures var t' := CreateDomain(t, who, req, otherQuota, key).0; t' == t || GrowsUnapplied(t, t')
  {
  }

  lemma DeleteDomainGrows(t: Tables, who: AuthContext, d: Id, key: Option<string>)
    ensures var t' := DeleteDomain(t, who, d, key).0; t' == t || GrowsUnapplied(t, t')
  {
  }

  lemma ResetFRPCredentialGrows(t: Tables, who: AuthContext, target: Option<Id>, proof: string, proven: bool,
                                key: Option<string>)
    ensures var t' := ResetFRPCredential(t, who, target, proof, proven, key).0; t' == t || GrowsUnapplied(t, t')
  {
  }

  lemma DeleteUserGrows(t: Tables, who: AuthContext, user: Id, force: bool, key: Option<string>)
    ensures var t' := DeleteUser(t, who, user, force, key).0; t' == t || GrowsUnapplied(t, t')
  {
    var t' := DeleteUser(t, who, user, force, key).0;
    DeleteUserIs(t, who, user, force, key);
    DeleteUserRecords(t, who, user, force, key);
    if user in t.users { DoomedUsers(t, user, force); }
  }

  lemma DoomedUsers(t: Tables, user: Id, force: bool)
    requires user in t.users
    ensures var t' := Doomed(t, user, force); UsersAdvance(t, t') && AppliedKept(t, t')
  {
  }

  lemma DeleteUserRecords(t: Tables, who: AuthContext, user: Id, force: bool, key: Option<string>)
    ensures RecordsStay(t, DeleteUser(t, who, user, force, key).0)
  {
  }

  lemma CreateUserGrows(t: Tables, who: AuthContext, username: string, password: string, stored: bool)
    requires t.nextId !in t.users
    ensures var t' := CreateUser(t, who, username, password, stored).0; t' == t || GrowsUnapplied(t, t')
  {
  }

  lemma SetUserStatusGrows(t: Tables, who: AuthContext, user: Id, active: bool, ended: Ended)
    ensures var t' := SetUserStatus(t, who, user, active, ended).0; t' == t || GrowsUnapplied(t, t')
  {
  }

  lemma ResetUserPasswordGrows(t: Tables, who: AuthContext, user: Id, password: string, ended: Ended)
    ensures var t' := ResetUserPassword(t, who, user, password, ended).0; t' == t || GrowsUnapplied(t, t')
  {
  }

  lemma LoginGrows(t: Tables, cfg: Config, username: string, password: string, channel: Channel, now: int)
    ensures var t' := Login(t, cfg, username, password, channel, now).0; t' == t || GrowsUnapplied(t, t')
  {
  }

  lemma AuthenticateGrows(t: Tables, token: Id, now: int, touched: bool)
    ensures var t' := Authenticate(t, token, now, touched).0; t' == t || GrowsUnapplied(t, t')
  {
  }

  lemma LogoutGrows(t: Tables, who: AuthContext, ended: Ended)
    ensures GrowsUnapplied(t, Logout(t, who, ended))
  {
  }

  lemma SnapshotGrows(t: Tables, who: AuthContext, hash: int)
    ensures var t' := TakeSnapshot(t, who, hash).0; t' == t || (Grows(t, t') && AppliedKept(t, t'))
  {
  }

  lemma SyncDnsGrows(t: Tables, d: Id, fallback: DnsSpec, action: SyncAction, answers: Answers, reach: nat, now: int)
    ensures GrowsUnapplied(t, SyncDns(t, d, fallback, action, answers, reach, now))
  {
    SyncDnsOnly(t, d, fallback, action, answers, reach, now);
  }

  lemma AdvanceDomainGrows(t: Tables, d: Id, status: DomainStatus, operator: bool)
    ensures var t' := AdvanceDomain(t, d, status, operator); t' == t || GrowsUnapplied(t, t')
  {
  }

  predicate IsMappingWrite(op: Op) {
    op.CreateMappingOp? || op.UpdateMappingOp? || op.ToggleMappingOp? || op.DeleteMappingOp?
  }

  lemma MappingWriteGrows(t: Tables, cfg: Config, op: Op)
    requires IsMappingWrite(op)
    ensures var t' := Exec(t, cfg, op).0; t' == t || GrowsUnapplied(t, t')
  {
    match op
    case CreateMappingOp(who, req, key) => CreateMappingGrows(t, cfg, who, req, key);
    case UpdateMappingOp(who, m, req, key) => UpdateMappingGrows(t, cfg, who, m, req, key);
    case ToggleMappingOp(who, m, enabled, version, revision, key) =>
      ToggleMappingGrows(t, who, m, enabled, version, revision, key);
    case DeleteMappingOp(who, m, force, key) => DeleteMappingGrows(t, who, m, force, key);
  }

  lemma DomainWriteGrows(t: Tables, cfg: Config, op: Op)
    requires op.CreateDomainOp? || op.DeleteDomainOp?
    ensures var t' := Exec(t, cfg, op).0; t' == t || GrowsUnapplied(t, t')
  {
    match op
    case CreateDomainOp(who, req, otherQuota, key) => CreateDomainGrows(t, who, req, otherQuota, key);
    case DeleteDomainOp(who, d, key) => DeleteDomainGrows(t, who, d, key);
  }

  lemma UserWriteGrows(t: Tables, cfg: Config, op: Op)
    requires op.ResetCredentialOp? || op.DeleteUserOp?
    ensures var t' := Exec(t, cfg, op).0; t' == t || GrowsUnapplied(t, t')
  {
    match op
    case ResetCredentialOp(who, target, proof, proven, key) =>
      ResetFRPCredentialGrows(t, who, target, proof, proven, key);
    case DeleteUserOp(who, user, force, key) => DeleteUserGrows(t, who, user, force, key);
  }

  lemma IdentityGrows(t: Tables, cfg: Config, op: Op)
    requires IsIdentityOp(op) && !op.ResetCredentialOp? && !op.SnapshotOp? && t.nextId !in t.users
    ensures var t' := Exec(t, cfg, op).0; t' == t || GrowsUnapplied(t, t')
  {
    match op
    case CreateUserOp(who, username, password, stored) => CreateUserGrows(t, who, username, password, stored);
    case SetStatusOp(who, user, active, ended) => SetUserStatusGrows(t, who, user, active, ended);
    case ResetPasswordOp(who, user, password, ended) => ResetUserPasswordGrows(t, who, user, password, ended);
    case LoginOp(username, password, channel, now) => LoginGrows(t, cfg, username, password, channel, now);
    case AuthenticateOp(token, now, touched) => AuthenticateGrows(t, token, now, touched);
    case LogoutOp(who, ended) => LogoutGrows(t, who, ended);
  }

  lemma DnsGrows(t: Tables, cfg: Config, op: Op)
    requires op.SyncDnsOp? || op.AdvanceDomainOp?
    ensures var t' := Exec(t, cfg, op).0; t' == t || GrowsUnapplied(t, t')
  {
    match op
    case SyncDnsOp(d, fallback, action, answers, reach, now) =>
      SyncDnsGrows(t, d, fallback, action, answers, reach, now);
    case AdvanceDomainOp(d, status, operator) => AdvanceDomainGrows(t, d, status, operator);
  }

  lemma ApplyOpGrows(t: Tables, cfg: Config, op: Op)
    requires op.ApplyOp?
    ensures var t' := Exec(t, cfg, op).0; t' == t || (Grows(t, t') && t'.snapshots == t.snapshots)
  {
    ApplyResultGrows(t, op.who, op.applyReq);
  }

  lemma SnapshotOpGrows(t: Tables, cfg: Config, op: Op)
    requires op.SnapshotOp?
    ensures var t' := Exec(t, cfg, op).0; t' == t || (Grows(t, t') && AppliedKept(t, t'))
  {
    SnapshotGrows(t, op.who, op.hash);
  }

  /** Every step but a cleanup job keeps users and records; only an apply result changes
      what is applied, and only a configuration request what is signed. */
  lemma StepGrows(t: Tables, cfg: Config, op: Op)
    requires !IsCleanup(op) && t.nextId !in t.users
    ensures var t' := Exec(t, cfg, op).0;
            || t' == t
            || (Grows(t, t') && (!op.ApplyOp? ==> AppliedKept(t, t'))
                && (!op.SnapshotOp? ==> t'.snapshots == t.snapshots))
  {
    if op.ApplyOp? { ApplyOpGrows(t, cfg, op); }
    else if op.SnapshotOp? { SnapshotOpGrows(t, cfg, op); }
    else if op.SyncDnsOp? || op.AdvanceDomainOp? { DnsGrows(t, cfg, op); }
    else if IsMappingWrite(op) { MappingWriteGrows(t, cfg, op); }
    else if IsIdentityOp(op) && !op.ResetCredentialOp? { IdentityGrows(t, cfg, op); }
    else if op.CreateDomainOp? || op.DeleteDomainOp? { DomainWriteGrows(t, cfg, op); }
    else { UserWriteGrows(t, cfg, op); }
  }

  // ---------- steps that neither write revisions nor remove rows ----------

  predicate IsRevisionOp(op: Op) { op.CreateMappingOp? || op.UpdateMappingOp? || op.ApplyOp? }

  ghost predicate SameMappingTables(t: Tables, t': Tables) {
    t'.mappings == t.mappings && t'.revisions == t.revisions && t'.leases == t.leases
  }

  lemma IdentityOpsLeaveMappings(t: Tables, cfg: Config, op: Op)
    requires IsIdentityOp(op) && UserRules(t)
    ensures var t' := Exec(t, cfg, op).0; t' == t || SameMappingTables(t, t')
  {
    match op
    case CreateUserOp(who, username, password, stored) => CreateUserOnly(t, who, username, password, stored);
    case LoginOp(username, password, channel, now) => LoginLeavesMappings(t, cfg, username, password, channel, now);
    case SnapshotOp(who, hash) =>
    case _ => IdentityOpOnly(t, cfg, op);
  }

  lemma LoginLeavesMappings(t: Tables, cfg: Config, username: string, password: string, channel: Channel, now: int)
    ensures var t' := Login(t, cfg, username, password, channel, now).0; t' == t || SameMappingTables(t, t')
  {
  }

  lemma DomainOpsLeaveMappings(t: Tables, cfg: Config, op: Op)
    requires UserRules(t) && (op.CreateDomainOp? || op.DeleteDomainOp?)
    ensures var t' := Exec(t, cfg, op).0; t' == t || SameMappingTables(t, t')
  {
    match op
    case CreateDomainOp(who, req, otherQuota, key) => CreateDomainOnly(t, who, req, otherQuota, key);
    case DeleteDomainOp(who, d, key) => DeleteDomainOnly(t, who, d, key);
  }

  lemma BindingOpsLeaveMappings(t: Tables, cfg: Config, op: Op)
    requires UserRules(t) && (op.CreateDomainOp? || op.DeleteDomainOp? || op.SyncDnsOp? || op.AdvanceDomainOp?)
    ensures var t' := Exec(t, cfg, op).0; t' == t || SameMappingTables(t, t')
  {
    match op
    case SyncDnsOp(d, fallback, action, answers, reach, now) =>
      SyncDnsOnly(t, d, fallback, action, answers, reach, now);
    case AdvanceDomainOp(d, status, operator) => AdvanceDomainOnly(t, d, status, operator);
    case _ => DomainOpsLeaveMappings(t, cfg, op);
  }

  lemma OtherOpsAreQuiet(t: Tables, cfg: Config, op: Op)
    requires !IsCleanup(op) && !IsRevisionOp(op) && UserRules(t)
    ensures var t' := Exec(t, cfg, op).0; t' == t || QuietStep(t, t')
  {
    match op
    case ToggleMappingOp(who, m, enabled, version, revision, key) =>
      ToggleIsQuiet(t, who, m, enabled, version, revision, key);
    case DeleteMappingOp(who, m, force, key) => DeleteIsQuiet(t, who, m, force, key);
    case DeleteUserOp(who, user, force, key) => DeleteUserIsQuiet(t, who, user, force, key);
    case _ =>
      if IsIdentityOp(op) { IdentityOpsLeaveMappings(t, cfg, op); } else { BindingOpsLeaveMappings(t, cfg, op); }
  }
}
