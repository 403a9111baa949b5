/** What each operation on users, sessions and credentials answers and stores, read off the
    tables and the arguments alone. */
module AccountEffects {
  import opened Wrappers
  import opened Schema
  import opened Mappings
  import opened Identity
  import opened MappingEffects

  // ---------- revocation ----------

  /** These sessions and runtime credentials are revoked, and nothing else about any. */
  ghost predicate Revokes(t: Tables, t': Tables, sessions: set<Id>, runtimes: set<Id>) {
    && t'.sessions.Keys == t.sessions.Keys && t'.runtimes.Keys == t.runtimes.Keys
    && (forall s :: s in t.sessions ==>
          t'.sessions[s] == if s in sessions then t.sessions[s].(revoked := true) else t.sessions[s])
    && (forall r :: r in t.runtimes ==>
          t'.runtimes[r] == if r in runtimes then t.runtimes[r].(revoked := true) else t.runtimes[r])
  }

  function SessionsOf(t: Tables, user: Id): set<Id> { set s | s in t.sessions && t.sessions[s].user == user }

  function RuntimesOf(t: Tables, user: Id): set<Id> { set r | r in t.runtimes && t.runtimes[r].user == user }

  // ---------- users ----------

  /** A new user has the defaults of its table and, unless the second insert fails, a secret
      of version 1. */
  lemma CreateUserDecides(t: Tables, who: AuthContext, username: string, password: string, stored: bool)
    ensures var (t', r) := CreateUser(t, who, username, password, stored);
            var u := t.nextId;
            if !who.admin then (t', r) == (t, Err(Forbidden))
            else if exists v :: v in t.users && t.users[v].username == username then (t', r) == (t, Err(StorageError))
            else
              && t' == t.(nextId := t.nextId + 2,
                          users := t.users[u :=
                            User(username, password, false, ActiveUser, 0, 0, 0, None, 50, 50, 10, 10)],
                          credentials := t'.credentials)
              && t'.credentials == (if stored then t.credentials[u := FrpCredential(t.nextId + 1, 1)]
                                    else t.credentials)
              && r == if stored then Ok(()) else Err(StorageError)
  {
  }

  predicate Manages(t: Tables, who: AuthContext, user: Id) { who.admin && user in t.users && !t.users[user].admin }

  function RefusedTo(t: Tables, who: AuthContext): (Tables, Result<()>) {
    (t, Err(if who.admin then NotFound else Forbidden))
  }

  /** Enabling only changes the status and the generation; disabling then revokes the user's
      sessions and runtime credentials, as far as the two statements succeed. */
  lemma SetUserStatusDecides(t: Tables, who: AuthContext, user: Id, active: bool, ended: Ended)
    ensures var (t', r) := SetUserStatus(t, who, user, active, ended);
            if Manages(t, who, user) then
              && r == Ok(())
              && t' == t.(users := t.users[user := t.users[user].(status := if active then ActiveUser else DisabledUser,
                                                                  generation := t.users[user].generation + 1)],
                          sessions := t'.sessions, runtimes := t'.runtimes)
              && Revokes(t, t', if active || !ended.sessions then {} else SessionsOf(t, user),
                         if active || !ended.runtimes then {} else RuntimesOf(t, user))
            else (t', r) == RefusedTo(t, who)
  {
  }

  lemma ResetUserPasswordDecides(t: Tables, who: AuthContext, user: Id, password: string, ended: Ended)
    ensures var (t', r) := ResetUserPassword(t, who, user, password, ended);
            if Manages(t, who, user) then
              && r == Ok(())
              && t' == t.(users := t.users[user := t.users[user].(password := password,
                                                                  generation := t.users[user].generation + 1)],
                          sessions := t'.sessions, runtimes := t'.runtimes)
              && Revokes(t, t', if ended.sessions then SessionsOf(t, user) else {},
                         if ended.runtimes then RuntimesOf(t, user) else {})
            else (t', r) == RefusedTo(t, who)
  {
  }

  // ---------- sessions ----------

  /** Only the caller's own session, and the runtime credentials issued with it. */
  lemma LogoutStores(t: Tables, who: AuthContext, ended: Ended)
    ensures var t' := Logout(t, who, ended);
            && t' == t.(sessions := t'.sessions, runtimes := t'.runtimes)
            && Revokes(t, t', if ended.sessions then {who.session} else {},
                       if ended.sessions && ended.runtimes
                       then set r | r in t.runtimes && t.runtimes[r].session == who.session
                       else {})
  {
    assert !ended.sessions ==> Logout(t, who, ended) == t;
  }

  /** Why a login is refused. */
  function LoginChecks(t: Tables, u: Id, password: string, channel: Channel): Option<Error>
    requires u in t.users
  {
    if t.users[u].password != password then Some(InvalidCredentials)
    else if t.users[u].status != ActiveUser then Some(UserDisabled)
    else if t.users[u].admin && channel == ClientPanel then Some(InvalidCredentials)
    else if !t.users[u].admin && channel == AdminPanel then Some(InvalidCredentials)
    else if channel == ClientPanel && u !in t.credentials then Some(StorageError)
    else None
  }

  lemma LoginRefuses(t: Tables, cfg: Config, username: string, password: string, channel: Channel, now: int)
    requires username == "" || |password| < 12
             || forall u :: u in t.users && t.users[u].username == username ==> t.users[u].status == DeletedUser
    ensures Login(t, cfg, username, password, channel, now) == (t, Err(InvalidCredentials))
  {
  }

  /** A login of a known user is decided by that user's row. */
  lemma LoginDecides(t: Tables, cfg: Config, username: string, password: string, channel: Channel, now: int, u: Id)
    requires username != "" && |password| >= 12 && u in t.users && t.users[u].username == username
    requires t.users[u].status != DeletedUser && forall v :: v in t.users && t.users[v].username == username ==> v == u
    ensures var (t', r) := Login(t, cfg, username, password, channel, now);
            match LoginChecks(t, u, password, channel)
            case Some(e) => (t', r) == (t, Err(e))
            case None =>
              && t' == LoggedIn(t, cfg, u, channel, now)
              && r == Ok(Grant(t.nextId + 1, t.nextId, if channel == ClientPanel then Some(t.nextId + 2) else None))
  {
    assert Named(t, username, u);
  }

  /** A login on the client's channel revokes the user's other client sessions and starts a
      new generation; on the administrator's it only adds a session. */
  lemma LoggedInStores(t: Tables, cfg: Config, user: Id, channel: Channel, now: int)
    requires user in t.users && t.nextId + 1 !in t.sessions
    ensures var t', s, client := LoggedIn(t, cfg, user, channel, now), t.nextId + 1, channel == ClientPanel;
            var generation := t.users[user].generation + (if client then 1 else 0);
            && t' == t.(nextId := t.nextId + 4, users := t'.users, sessions := t'.sessions, runtimes := t'.runtimes)
            && t'.users == t.users[user := t.users[user].(generation := generation)]
            && t'.sessions.Keys == t.sessions.Keys + {s}
            && t'.sessions[s] == Session(user, t.nextId, channel, generation, now + cfg.sessionTtl, now + 1800, false)
            && (forall q :: q in t.sessions ==>
                  t'.sessions[q] == if client && t.sessions[q].user == user && t.sessions[q].channel == ClientPanel
                                    then t.sessions[q].(revoked := true) else t.sessions[q])
            && t'.runtimes == if client then t.runtimes[t.nextId + 3 :=
                                RuntimeCredential(user, s, generation, t.nextId + 2, now + cfg.sessionTtl, false)]
                              else t.runtimes
  {
  }

  /** Why the session of a token is not accepted. */
  function SessionChecks(t: Tables, s: Session, now: int): Option<Error> {
    if s.user !in t.users then Some(SessionInvalid)
    else if s.revoked then Some(SessionReplaced)
    else if t.users[s.user].status != ActiveUser then Some(SessionInvalid)
    else if s.expires < now || s.idle < now then Some(SessionInvalid)
    else if s.channel == ClientPanel && s.generation != t.users[s.user].generation then Some(SessionReplaced)
    else None
  }

  /** An accepted token moves the idle time of its session to half an hour from now. */
  lemma AuthenticateDecides(t: Tables, token: Id, now: int, touched: bool, s: Id)
    requires s in t.sessions && t.sessions[s].token == token
    requires forall q :: q in t.sessions && t.sessions[q].token == token ==> q == s
    ensures Authenticate(t, token, now, touched)
            == match SessionChecks(t, t.sessions[s], now)
               case Some(e) => (t, Err(e))
               case None =>
                 (if touched then t.(sessions := t.sessions[s := t.sessions[s].(idle := now + 1800)]) else t, Ok(s))
  {
    assert HasToken(t, token, s);
  }

  lemma UnknownToken(t: Tables, token: Id, now: int, touched: bool)
    requires forall q :: q in t.sessions ==> t.sessions[q].token != token
    ensures Authenticate(t, token, now, touched) == (t, Err(SessionInvalid))
  {
  }

  // ---------- credential rotation ----------

  /** Whose secret is rotated: a user's own; or, by an administrator, another's. */
  function Whose(who: AuthContext, target: Option<Id>): Option<Id> {
    match target
    case None => if who.admin then None else Some(who.user)
    case Some(u) => if who.admin == (u != who.user) then Some(u) else None
  }

  function ResetChecks(t: Tables, who: AuthContext, u: Id): Option<Error> {
    if u !in t.users || u !in t.credentials then Some(NotFound)
    else if t.users[u].admin || t.users[u].status == DeletedUser then Some(Forbidden)
    else if who.user !in t.users then Some(StorageError)
    else None
  }

  lemma ResetRefusesAtOnce(t: Tables, who: AuthContext, target: Option<Id>, proof: string, proven: bool,
                           key: Option<string>)
    requires Whose(who, target) == None || proof == "" || !proven
    ensures ResetFRPCredential(t, who, target, proof, proven, key)
            == (t, Err(if Whose(who, target) == None then Forbidden else InvalidCredentials))
  {
  }

  function ResetAt(who: AuthContext, u: Id): Endpoint {
    if who.admin then ResetUserCredentialAt(u) else ResetOwnCredentialAt
  }

  /** The secret is replaced, its version and the user's generation and desired version move
      on by one, and all the user's sessions and runtime credentials are revoked. */
  lemma ResetDecides(t: Tables, who: AuthContext, target: Option<Id>, proof: string, key: Option<string>, u: Id)
    requires Whose(who, target) == Some(u) && proof != ""
    ensures var (t', r) := ResetFRPCredential(t, who, target, proof, true, key);
            var k, body := WriteKey(t, who, ResetAt(who, u), key), ResetBody(u, proof);
            if k !in t.records && ResetChecks(t, who, u) == None then
              && (var row, version := t.users[u], t.credentials[u].version + 1;
                  && r == Ok(SecretReply(version, row.generation + 1))
                  && t' == t.(nextId := t.nextId + 2,
                              users := t.users[u := row.(generation := row.generation + 1, desired := row.desired + 1)],
                              credentials := t.credentials[u := FrpCredential(t.nextId + 1, version)],
                              sessions := t'.sessions, runtimes := t'.runtimes,
                              records := t.records[k := Record(body, r.value)]))
              && Revokes(t, t', SessionsOf(t, u), RuntimesOf(t, u))
            else (t', r) == Refused(t, true, k, body, ResetChecks(t, who, u))
  {
  }

  // ---------- authorization of FRP operations ----------

  /** Why a request with this credential is not accepted. */
  function CredentialChecks(t: Tables, req: FrpRequest, r: Id, now: int): Verdict
    requires r in t.runtimes && req.user in t.users && req.user in t.credentials && t.runtimes[r].session in t.sessions
  {
    if req.secret.Some? && t.credentials[req.user].secret != req.secret.value then UserCredentialInvalid
    else if t.users[req.user].status != ActiveUser then AuthUserDisabled
    else if req.generation != t.users[req.user].generation then GenerationMismatch
    else if req.generation != t.sessions[t.runtimes[r].session].generation then GenerationMismatch
    else if t.runtimes[r].expires < now then SessionExpired
    else if req.operation == OtherOperation then OperationNotAllowed
    else if req.operation == NewProxy then ProxyChecks(t, req)
    else Accepted
  }

  predicate BoundHost(t: Tables, req: FrpRequest) {
    exists d :: d in t.domains && t.domains[d].hostname == req.hostname && t.domains[d].owner == req.user
                && t.domains[d].mapping == req.mapping && t.domains[d].status != DeletedDomain
  }

  /** Why a proxy may not be opened. */
  function ProxyChecks(t: Tables, req: FrpRequest): Verdict {
    if req.mapping !in t.mappings then MappingNotFound
    else if Latest(t, req.mapping) == None then MappingNotFound
    else
      var m, now := t.mappings[req.mapping], Latest(t, req.mapping).value;
      if m.owner != req.user || !m.enabled || m.lifecycle in {Deleted, Disabled, Deleting} then MappingNotAuthorized
      else if req.proxyType.Some? && req.proxyType.value != m.proxyType then ProxyTypeNotAllowed
      else if now.number != req.revision then RevisionConflictVerdict
      else if now.port.Some? && req.remotePort != now.port.value then PortVerdict
      else if req.hostname != "" && !BoundHost(t, req) then DomainNotAuthorized
      else if req.hostname == "" && m.proxyType == Http then DomainRequired
      else Accepted
  }

  lemma ProxyDecides(t: Tables, req: FrpRequest)
    ensures ProxyVerdict(t, req) == ProxyChecks(t, req)
  {
    if req.mapping in t.mappings { LatestAgrees(t, req.mapping); }
    assert Hosts(t, req.user, req.mapping, req.hostname) <==> BoundHost(t, req);
  }

  /** Whether r is a live runtime credential with the token, of a session not revoked. */
  predicate LiveCredential(t: Tables, req: FrpRequest, r: Id) {
    && r in t.runtimes && t.runtimes[r].token == req.runtimeToken && t.runtimes[r].user == req.user
    && !t.runtimes[r].revoked
    && t.runtimes[r].session in t.sessions && !t.sessions[t.runtimes[r].session].revoked
    && req.user in t.users && req.user in t.credentials
  }

  /** A request is answered by the one live credential that it names. */
  lemma AuthorizeDecides(t: Tables, req: FrpRequest, now: int, r: Id)
    requires LiveCredential(t, req, r) && forall q :: LiveCredential(t, req, q) ==> q == r
    ensures AuthorizeFRP(t, req, now) == CredentialChecks(t, req, r, now)
  {
    assert forall q :: LiveRuntime(t, req, q) <==> LiveCredential(t, req, q);
    ProxyDecides(t, req);
  }

  lemma AuthorizeUnknown(t: Tables, req: FrpRequest, now: int)
    requires forall q :: !LiveCredential(t, req, q)
    ensures AuthorizeFRP(t, req, now) == RuntimeCredentialInvalid
  {
    assert forall q :: LiveRuntime(t, req, q) <==> LiveCredential(t, req, q);
  }
}
