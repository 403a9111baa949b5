/** Invariants of the session, credential and domain tables, and the theorem that all
    invariants hold in every reachable state. */
module Invariants {
  import opened Wrappers
  import opened Schema
  import opened Mappings
  import opened MappingInvariants
  import opened Identity
  import opened DnsSync
  import opened Domains
  import opened Service

  // ---------- sessions and runtime credentials ----------

  /** Tokens are never issued twice. */
  ghost predicate TokensDistinct(t: Tables) {
    && (forall s :: s in t.sessions ==> s < t.nextId && t.sessions[s].token < t.nextId)
    && (forall r :: r in t.runtimes ==> r < t.nextId && t.runtimes[r].token < t.nextId)
    && (forall s, q | s in t.sessions && q in t.sessions :: t.sessions[s].token == t.sessions[q].token ==> s == q)
    && (forall r, q | r in t.runtimes && q in t.runtimes :: t.runtimes[r].token == t.runtimes[q].token ==> r == q)
  }

  /** A client session never runs ahead of its user's generation. */
  ghost predicate SessionUsers(users: map<Id, User>, sessions: map<Id, Session>) {
    forall s {:trigger sessions[s]} :: s in sessions ==>
      && sessions[s].user in users
      && (sessions[s].channel == ClientPanel ==> sessions[s].generation <= users[sessions[s].user].generation)
  }

  predicate LiveClient(s: Session) { s.channel == ClientPanel && !s.revoked }

  /** A user has at most one client session that is not revoked. */
  ghost predicate OneClientSession(sessions: map<Id, Session>) {
    forall s, q | s in sessions && q in sessions ::
      LiveClient(sessions[s]) && LiveClient(sessions[q]) && sessions[s].user == sessions[q].user ==> s == q
  }

  /** A runtime credential belongs to the one client session it was issued with. */
  ghost predicate RuntimeRules(sessions: map<Id, Session>, runtimes: map<Id, RuntimeCredential>) {
    && (forall r {:trigger runtimes[r]} :: r in runtimes ==>
          && runtimes[r].session in sessions
          && sessions[runtimes[r].session].user == runtimes[r].user
          && sessions[runtimes[r].session].channel == ClientPanel
          && sessions[runtimes[r].session].generation == runtimes[r].generation)
    && (forall r, q | r in runtimes && q in runtimes :: runtimes[r].session == runtimes[q].session ==> r == q)
  }

  /** The UNIQUE constraint on usernames. */
  ghost predicate UsernamesDistinct(users: map<Id, User>) {
    forall u, v | u in users && v in users :: users[u].username == users[v].username ==> u == v
  }

  ghost predicate AuthInv(t: Tables) {
    && UsernamesDistinct(t.users) && TokensDistinct(t) && SessionUsers(t.users, t.sessions)
    && OneClientSession(t.sessions)
    && RuntimeRules(t.sessions, t.runtimes)
  }

  // ---------- domains ----------

  ghost predicate DomainRules(users: map<Id, User>, mappings: map<Id, Mapping>, domains: map<Id, Domain>) {
    && (forall d {:trigger domains[d]} :: d in domains ==>
          && domains[d].status != DeletedDomain
          && domains[d].owner in users && domains[d].mapping in mappings
          && mappings[domains[d].mapping].owner == domains[d].owner)
    && (forall d, e | d in domains && e in domains :: domains[d].hostname == domains[e].hostname ==> d == e)
  }

  /** Every DNS row belongs to a domain, and a domain has at most one. */
  ghost predicate DnsRules(domains: map<Id, Domain>, dns: map<Id, DnsRow>) {
    && (forall r {:trigger dns[r]} :: r in dns ==>
          dns[r].domain.Some? && dns[r].domain.value in domains && dns[r].owner == domains[dns[r].domain.value].owner)
    && (forall r, q | r in dns && q in dns :: dns[r].domain == dns[q].domain ==> r == q)
  }

  ghost predicate DomainIdsBelow(t: Tables) {
    && (forall d :: d in t.domains ==> d < t.nextId)
    && (forall r :: r in t.dns ==> r < t.nextId)
    && (forall x :: x in t.residues ==> x < t.nextId)
  }

  ghost predicate DomainInv(t: Tables) {
    DomainRules(t.users, t.mappings, t.domains) && DnsRules(t.domains, t.dns) && DomainIdsBelow(t)
  }

  datatype Concern = MappingConcern | AuthConcern | DomainConcern

  ghost predicate Sound(t: Tables, concern: Concern) {
    match concern
    case MappingConcern => MappingInv(t)
    case AuthConcern => AuthInv(t)
    case DomainConcern => DomainInv(t)
  }

  ghost predicate Inv(t: Tables) { forall concern :: Sound(t, concern) }

  lemma InvMeans(t: Tables)
    ensures Inv(t) <==> MappingInv(t) && AuthInv(t) && DomainInv(t)
  {
    assert Inv(t) ==> Sound(t, MappingConcern) && Sound(t, AuthConcern) && Sound(t, DomainConcern);
  }

  lemma MakeInv(t: Tables)
    requires MappingInv(t) && AuthInv(t) && DomainInv(t)
    ensures Inv(t)
  {
    InvMeans(t);
  }

  // ---------- frames ----------

  /** Users keep their names, and their generation only grows; new ones have new names. */
  ghost predicate UsersGrow(users: map<Id, User>, users': map<Id, User>) {
    && (forall u :: u in users ==>
          u in users' && users[u].generation <= users'[u].generation && users'[u].username == users[u].username)
    && (forall u, v | u in users' && v in users' && u !in users :: users'[u].username == users'[v].username ==> u == v)
  }

  lemma UsersGrowDistinct(users: map<Id, User>, users': map<Id, User>)
    requires UsernamesDistinct(users) && UsersGrow(users, users')
    ensures UsernamesDistinct(users')
  {
  }

  ghost predicate OwnersKept(mappings: map<Id, Mapping>, mappings': map<Id, Mapping>) {
    forall m :: m in mappings ==> m in mappings' && mappings'[m].owner == mappings[m].owner
  }

  lemma TokensFrame(t: Tables, t': Tables)
    requires TokensDistinct(t) && t'.sessions == t.sessions && t'.runtimes == t.runtimes && t.nextId <= t'.nextId
    ensures TokensDistinct(t')
  {
  }

  lemma SessionUsersFrame(users: map<Id, User>, users': map<Id, User>, sessions: map<Id, Session>)
    requires SessionUsers(users, sessions) && UsersGrow(users, users')
    ensures SessionUsers(users', sessions)
  {
  }

  lemma AuthFrame(t: Tables, t': Tables)
    requires AuthInv(t) && t'.sessions == t.sessions && t'.runtimes == t.runtimes
    requires UsersGrow(t.users, t'.users) && t.nextId <= t'.nextId
    ensures AuthInv(t')
  {
    UsersGrowDistinct(t.users, t'.users);
    TokensFrame(t, t');
    SessionUsersFrame(t.users, t'.users, t.sessions);
  }

  lemma DomainFrame(t: Tables, t': Tables)
    requires DomainInv(t) && t'.domains == t.domains && t'.dns == t.dns && t'.residues == t.residues
    requires UsersGrow(t.users, t'.users) && OwnersKept(t.mappings, t'.mappings) && t.nextId <= t'.nextId
    ensures DomainInv(t')
  {
  }

  lemma MappingFrame(t: Tables, t': Tables)
    requires MappingInv(t) && t'.mappings == t.mappings && t'.revisions == t.revisions && t'.leases == t.leases
    requires UsersGrow(t.users, t'.users) && Versions(t'.users) && t.nextId <= t'.nextId
    requires forall u :: u in t'.users ==> u < t'.nextId
    ensures MappingInv(t')
  {
  }

  /** What a mapping operation leaves alone. */
  ghost predicate OnlyMappings(t: Tables, t': Tables) {
    && t'.sessions == t.sessions && t'.runtimes == t.runtimes && t'.credentials == t.credentials
    && t'.domains == t.domains && t'.dns == t.dns && t'.residues == t.residues && t'.removed == t.removed
    && UsersGrow(t.users, t'.users) && OwnersKept(t.mappings, t'.mappings) && t.nextId <= t'.nextId
  }

  lemma OnlyMappingsKeepsInv(t: Tables, t': Tables)
    requires Inv(t) && MappingInv(t') && OnlyMappings(t, t')
    ensures Inv(t')
  {
    InvMeans(t);
    AuthFrame(t, t');
    DomainFrame(t, t');
  }

  // ---------- mapping operations ----------

  lemma CreateMappingOnly(t: Tables, cfg: Config, who: AuthContext, req: MappingRequest, key: Option<string>)
    requires forall m :: m in t.mappings ==> m < t.nextId
    ensures var t' := CreateMapping(t, cfg, who, req, key).0; t' == t || OnlyMappings(t, t')
  {
    CreatedOnly(t, who.user, req, ChosenPort(t, cfg, req),
                RecordKey(who.user, who.generation, CreateMappingAt, KeyOf(key, t.nextId)));
  }

  lemma CreatedOnly(t: Tables, user: Id, req: MappingRequest, port: Option<int>, k: RecordKey)
    requires forall m :: m in t.mappings ==> m < t.nextId
    ensures OnlyMappings(t, Created(t, user, req, port, k))
  {
  }

  lemma UpdateMappingOnly(t: Tables, cfg: Config, who: AuthContext, m: Id, req: MappingRequest, key: Option<string>)
    ensures var t' := UpdateMapping(t, cfg, who, m, req, key).0; t' == t || OnlyMappings(t, t')
  {
    if m in t.mappings {
      UpdatedOnly(t, m, req, RequestedPort(t, t.mappings[m], req),
                  RecordKey(who.user, who.generation, UpdateMappingAt(m), KeyOf(key, t.nextId)));
    }
  }

  lemma UpdatedOnly(t: Tables, m: Id, req: MappingRequest, port: Option<int>, k: RecordKey)
    requires m in t.mappings
    ensures OnlyMappings(t, Updated(t, m, req, port, k))
  {
  }

  lemma ToggleMappingOnly(t: Tables, who: AuthContext, m: Id, enabled: bool,
                          expectedVersion: Option<int>, expectedRevision: Option<int>, key: Option<string>)
    ensures var t' := ToggleMapping(t, who, m, enabled, expectedVersion, expectedRevision, key).0;
            t' == t || OnlyMappings(t, t')
  {
  }

  lemma SettledOnly(t: Tables, user: Id, version: int)
    ensures OnlyMappings(t, Settled(t, user, version))
  {
  }

  lemma AbandonedOnly(t: Tables, user: Id, version: int)
    ensures OnlyMappings(t, Abandoned(t, user, version))
  {
  }

  lemma ApplyOnly(t: Tables, who: AuthContext, req: ApplyRequest)
    ensures var t' := ApplyResult(t, who, req).0; t' == t || OnlyMappings(t, t')
  {
    SettledOnly(t, who.user, req.version);
    AbandonedOnly(t, who.user, req.version);
  }

  // ---------- session operations ----------

  /** The same sessions, none of them revived. */
  ghost predicate SessionsAlike(sessions: map<Id, Session>, sessions': map<Id, Session>) {
    && sessions'.Keys == sessions.Keys
    && forall s :: s in sessions ==>
         && sessions'[s].user == sessions[s].user && sessions'[s].token == sessions[s].token
         && sessions'[s].channel == sessions[s].channel && sessions'[s].generation == sessions[s].generation
         && (sessions[s].revoked ==> sessions'[s].revoked)
  }

  ghost predicate RuntimesAlike(runtimes: map<Id, RuntimeCredential>, runtimes': map<Id, RuntimeCredential>) {
    && runtimes'.Keys == runtimes.Keys
    && forall r :: r in runtimes ==>
         && runtimes'[r].user == runtimes[r].user && runtimes'[r].token == runtimes[r].token
         && runtimes'[r].session == runtimes[r].session && runtimes'[r].generation == runtimes[r].generation
         && (runtimes[r].revoked ==> runtimes'[r].revoked)
  }

  lemma AlikeKeepsTokens(t: Tables, t': Tables)
    requires TokensDistinct(t) && t.nextId <= t'.nextId
    requires SessionsAlike(t.sessions, t'.sessions) && RuntimesAlike(t.runtimes, t'.runtimes)
    ensures TokensDistinct(t')
  {
  }

  lemma AlikeKeepsSessions(users: map<Id, User>, users': map<Id, User>,
                           sessions: map<Id, Session>, sessions': map<Id, Session>)
    requires SessionUsers(users, sessions) && OneClientSession(sessions)
    requires SessionsAlike(sessions, sessions') && UsersGrow(users, users')
    ensures SessionUsers(users', sessions') && OneClientSession(sessions')
  {
  }

  lemma AlikeKeepsRuntimes(sessions: map<Id, Session>, sessions': map<Id, Session>,
                           runtimes: map<Id, RuntimeCredential>, runtimes': map<Id, RuntimeCredential>)
    requires RuntimeRules(sessions, runtimes)
    requires SessionsAlike(sessions, sessions') && RuntimesAlike(runtimes, runtimes')
    ensures RuntimeRules(sessions', runtimes')
  {
  }

  /** A step that touches only users and revocations. */
  ghost predicate RevokingStep(t: Tables, t': Tables) {
    && SessionsAlike(t.sessions, t'.sessions) && RuntimesAlike(t.runtimes, t'.runtimes)
    && UsersGrow(t.users, t'.users) && t.nextId <= t'.nextId
  }

  lemma RevokingStepKeepsAuth(t: Tables, t': Tables)
    requires AuthInv(t) && RevokingStep(t, t')
    ensures AuthInv(t')
  {
    UsersGrowDistinct(t.users, t'.users);
    AlikeKeepsTokens(t, t');
    AlikeKeepsSessions(t.users, t'.users, t.sessions, t'.sessions);
    AlikeKeepsRuntimes(t.sessions, t'.sessions, t.runtimes, t'.runtimes);
  }

  lemma RevokeSessionsAlike(sessions: map<Id, Session>, user: Id, clientOnly: bool)
    ensures SessionsAlike(sessions, RevokeSessions(sessions, user, clientOnly))
  {
  }

  lemma RevokeRuntimesAlike(runtimes: map<Id, RuntimeCredential>, user: Id)
    ensures RuntimesAlike(runtimes, RevokeRuntimes(runtimes, user))
  {
  }

  ghost predicate UserRules(t: Tables) { Versions(t.users) && forall u :: u in t.users ==> u < t.nextId }

  /** What an operation on users and sessions leaves alone. */
  ghost predicate OnlyIdentity(t: Tables, t': Tables) {
    && t'.mappings == t.mappings && t'.revisions == t.revisions && t'.leases == t.leases
    && t'.domains == t.domains && t'.dns == t.dns && t'.residues == t.residues && t'.removed == t.removed
    && t.nextId <= t'.nextId && UsersGrow(t.users, t'.users) && UserRules(t')
  }

  lemma OnlyIdentityKeepsMappingInv(t: Tables, t': Tables)
    requires MappingInv(t) && OnlyIdentity(t, t')
    ensures MappingInv(t')
  {
    MappingFrame(t, t');
  }

  lemma OnlyIdentityKeepsDomainInv(t: Tables, t': Tables)
    requires DomainInv(t) && OnlyIdentity(t, t')
    ensures DomainInv(t')
  {
    DomainFrame(t, t');
  }

  lemma OnlyIdentityKeepsInv(t: Tables, t': Tables)
    requires Inv(t) && OnlyIdentity(t, t') && AuthInv(t')
    ensures Inv(t')
  {
    InvMeans(t);
    OnlyIdentityKeepsMappingInv(t, t');
    OnlyIdentityKeepsDomainInv(t, t');
  }

  lemma CreateUserOnly(t: Tables, who: AuthContext, username: string, password: string, stored: bool)
    requires UserRules(t)
    ensures var t' := CreateUser(t, who, username, password, stored).0;
            OnlyIdentity(t, t') && t'.sessions == t.sessions && t'.runtimes == t.runtimes
  {
  }

  lemma SetUserStatusOnly(t: Tables, who: AuthContext, user: Id, active: bool, ended: Ended)
    requires UserRules(t)
    ensures var t' := SetUserStatus(t, who, user, active, ended).0; t' == t || OnlyIdentity(t, t')
  {
  }

  lemma SetUserStatusRevokes(t: Tables, who: AuthContext, user: Id, active: bool, ended: Ended)
    ensures var t' := SetUserStatus(t, who, user, active, ended).0; t' == t || RevokingStep(t, t')
  {
    RevokeSessionsAlike(t.sessions, user, false);
    RevokeRuntimesAlike(t.runtimes, user);
  }

  lemma ResetUserPasswordOnly(t: Tables, who: AuthContext, user: Id, password: string, ended: Ended)
    requires UserRules(t)
    ensures var t' := ResetUserPassword(t, who, user, password, ended).0; t' == t || OnlyIdentity(t, t')
  {
  }

  lemma ResetUserPasswordRevokes(t: Tables, who: AuthContext, user: Id, password: string, ended: Ended)
    ensures var t' := ResetUserPassword(t, who, user, password, ended).0; t' == t || RevokingStep(t, t')
  {
    RevokeSessionsAlike(t.sessions, user, false);
    RevokeRuntimesAlike(t.runtimes, user);
  }

  lemma ResetFRPCredentialOnly(t: Tables, who: AuthContext, target: Option<Id>, proof: string, proven: bool,
                               key: Option<string>)
    requires UserRules(t)
    ensures var t' := ResetFRPCredential(t, who, target, proof, proven, key).0; t' == t || OnlyIdentity(t, t')
  {
  }

  lemma ResetFRPCredentialRevokes(t: Tables, who: AuthContext, target: Option<Id>, proof: string, proven: bool,
                                  key: Option<string>)
    ensures var t' := ResetFRPCredential(t, who, target, proof, proven, key).0; t' == t || RevokingStep(t, t')
  {
    if ResetTarget(who, target).Some? {
      RevokeSessionsAlike(t.sessions, ResetTarget(who, target).value, false);
      RevokeRuntimesAlike(t.runtimes, ResetTarget(who, target).value);
    }
  }

  lemma AuthenticateOnly(t: Tables, token: Id, now: int, touched: bool)
    requires UserRules(t)
    ensures var t' := Authenticate(t, token, now, touched).0; t' == t || OnlyIdentity(t, t')
  {
  }

  lemma AuthenticateRevokes(t: Tables, token: Id, now: int, touched: bool)
    ensures var t' := Authenticate(t, token, now, touched).0; t' == t || RevokingStep(t, t')
  {
  }

  lemma LogoutOnly(t: Tables, who: AuthContext, ended: Ended)
    requires UserRules(t)
    ensures OnlyIdentity(t, Logout(t, who, ended)) && RevokingStep(t, Logout(t, who, ended))
  {
  }

  lemma LoggedInOnly(t: Tables, cfg: Config, user: Id, channel: Channel, now: int)
    requires UserRules(t) && user in t.users
    ensures OnlyIdentity(t, LoggedIn(t, cfg, user, channel, now))
  {
  }

  lemma LoggedInTokens(t: Tables, cfg: Config, user: Id, channel: Channel, now: int)
    requires TokensDistinct(t) && user in t.users
    ensures TokensDistinct(LoggedIn(t, cfg, user, channel, now))
  {
  }

  lemma LoggedInSessions(t: Tables, cfg: Config, user: Id, channel: Channel, now: int)
    requires SessionUsers(t.users, t.sessions) && OneClientSession(t.sessions) && user in t.users
    requires t.nextId + 1 !in t.sessions
    ensures var t' := LoggedIn(t, cfg, user, channel, now);
            SessionUsers(t'.users, t'.sessions) && OneClientSession(t'.sessions)
  {
  }

  lemma LoggedInRuntimes(t: Tables, cfg: Config, user: Id, channel: Channel, now: int)
    requires RuntimeRules(t.sessions, t.runtimes) && t.nextId + 1 !in t.sessions && user in t.users
    ensures var t' := LoggedIn(t, cfg, user, channel, now); RuntimeRules(t'.sessions, t'.runtimes)
  {
    var t' := LoggedIn(t, cfg, user, channel, now);
    var kept := if channel == ClientPanel then RevokeSessions(t.sessions, user, true) else t.sessions;
    RevokeSessionsAlike(t.sessions, user, true);
    AlikeKeepsRuntimes(t.sessions, kept, t.runtimes, t.runtimes);
    AddRuntimeKeepsRules(kept, t.runtimes, t.nextId + 1, t'.sessions[t.nextId + 1], t'.runtimes, t.nextId + 3);
  }

  /** A new session, possibly with a runtime credential of its own. */
  lemma AddRuntimeKeepsRules(sessions: map<Id, Session>, runtimes: map<Id, RuntimeCredential>,
                             s: Id, session: Session, runtimes': map<Id, RuntimeCredential>, r: Id)
    requires RuntimeRules(sessions, runtimes) && s !in sessions
    requires runtimes' != runtimes ==>
      && r in runtimes' && runtimes' == runtimes[r := runtimes'[r]] && runtimes'[r].session == s
      && session.user == runtimes'[r].user && session.channel == ClientPanel
      && session.generation == runtimes'[r].generation
    ensures RuntimeRules(sessions[s := session], runtimes')
  {
  }

  lemma LoginKeepsInv(t: Tables, cfg: Config, username: string, password: string, channel: Channel, now: int)
    requires Inv(t)
    ensures Inv(Login(t, cfg, username, password, channel, now).0)
  {
    var t' := Login(t, cfg, username, password, channel, now).0;
    if t' != t {
      InvMeans(t);
      var u :| u in t.users && t' == LoggedIn(t, cfg, u, channel, now);
      LoggedInTokens(t, cfg, u, channel, now);
      LoggedInSessions(t, cfg, u, channel, now);
      LoggedInRuntimes(t, cfg, u, channel, now);
      LoggedInOnly(t, cfg, u, channel, now);
      UsersGrowDistinct(t.users, t'.users);
      OnlyIdentityKeepsInv(t, t');
    }
  }
}
