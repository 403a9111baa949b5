/** Users, sessions and credentials (server/internal/service/service.go): what each
    operation does to the tables, and the two read-only authorization checks. */
module Identity {
  import opened Wrappers
  import opened Schema
  import opened Mappings

  // ---------- revocation ----------

  function RevokeSessions(sessions: map<Id, Session>, user: Id, clientOnly: bool): map<Id, Session> {
    map s | s in sessions ::
      if sessions[s].user == user && (clientOnly ==> sessions[s].channel == ClientPanel)
      then sessions[s].(revoked := true) else sessions[s]
  }

  function RevokeRuntimes(runtimes: map<Id, RuntimeCredential>, user: Id): map<Id, RuntimeCredential> {
    map r | r in runtimes ::
      if runtimes[r].user == user then runtimes[r].(revoked := true) else runtimes[r]
  }

  /** Where a method revokes outside a transaction, each of the two statements may fail,
      and its error is discarded. */
  datatype Ended = Ended(sessions: bool, runtimes: bool)

  function EndSessions(t: Tables, user: Id, ended: Ended): Tables {
    t.(sessions := if ended.sessions then RevokeSessions(t.sessions, user, false) else t.sessions,
       runtimes := if ended.runtimes then RevokeRuntimes(t.runtimes, user) else t.runtimes)
  }

  // ---------- users ----------

  /** Column defaults of the users table. */
  function NewUser(username: string, password: string): User {
    User(username, password, false, ActiveUser, 0, 0, 0, None, 50, 50, 10, 10)
  }

  /** Two statements: the user stays without a credential if the second fails. Row ids in
      the order they are drawn: user, secret. */
  function CreateUser(t: Tables, who: AuthContext, username: string, password: string, stored: bool)
    : (Tables, Result<()>)
  {
    if !who.admin then (t, Err(Forbidden))
    else if exists u | u in t.users :: t.users[u].username == username then (t, Err(StorageError))
    else
      var t1 := t.(nextId := t.nextId + 2, users := t.users[t.nextId := NewUser(username, password)]);
      if !stored then (t1, Err(StorageError))
      else (t1.(credentials := t1.credentials[t.nextId := FrpCredential(t.nextId + 1, 1)]), Ok(()))
  }

  function SetUserStatus(t: Tables, who: AuthContext, user: Id, active: bool, ended: Ended): (Tables, Result<()>) {
    if !who.admin then (t, Err(Forbidden))
    else if user !in t.users || t.users[user].admin then (t, Err(NotFound))
    else
      var u := t.users[user];
      var status := if active then ActiveUser else DisabledUser;
      var t1 := t.(users := t.users[user := u.(status := status, generation := u.generation + 1)]);
      (if active then t1 else EndSessions(t1, user, ended), Ok(()))
  }

  function ResetUserPassword(t: Tables, who: AuthContext, user: Id, password: string, ended: Ended)
    : (Tables, Result<()>)
  {
    if !who.admin then (t, Err(Forbidden))
    else if user !in t.users || t.users[user].admin then (t, Err(NotFound))
    else
      var u := t.users[user];
      var t1 := t.(users := t.users[user := u.(password := password, generation := u.generation + 1)]);
      (EndSessions(t1, user, ended), Ok(()))
  }

  // ---------- login, logout, authentication ----------

  datatype Grant = Grant(session: Id, token: Id, runtimeToken: Option<Id>)

  predicate Named(t: Tables, username: string, u: Id) {
    u in t.users && t.users[u].username == username && t.users[u].status != DeletedUser
  }

  function LoginRefusal(u: User, password: string, channel: Channel, hasCredential: bool): Option<Error> {
    if u.password != password then Some(InvalidCredentials)
    else if u.status != ActiveUser then Some(UserDisabled)
    else if (channel == AdminPanel) != u.admin then Some(InvalidCredentials)
    else if channel == ClientPanel && !hasCredential then Some(StorageError)
    else None
  }

  /** Thirty minutes, in the unit of the model's instants. */
  const IDLE_LIMIT := 1800

  /** A client login replaces the user's client sessions: it revokes them and moves
      the user to a new generation, which the new session and the runtime credential
      issued with it carry. Row ids in the order they are drawn: token, session,
      runtime token, runtime credential. */
  function LoggedIn(t: Tables, cfg: Config, user: Id, channel: Channel, now: int): Tables
    requires user in t.users
  {
    var u := t.users[user];
    var generation := if channel == ClientPanel then u.generation + 1 else u.generation;
    var kept := if channel == ClientPanel then RevokeSessions(t.sessions, user, true) else t.sessions;
    var session := Session(user, t.nextId, channel, generation, now + cfg.sessionTtl, now + IDLE_LIMIT, false);
    t.(nextId := t.nextId + 4,
       users := t.users[user := u.(generation := generation)],
       sessions := kept[t.nextId + 1 := session],
       runtimes := if channel == ClientPanel
                   then t.runtimes[t.nextId + 3 :=
                     RuntimeCredential(user, t.nextId + 1, generation, t.nextId + 2, now + cfg.sessionTtl, false)]
                   else t.runtimes)
  }

  ghost function Login(t: Tables, cfg: Config, username: string, password: string, channel: Channel, now: int)
    : (Tables, Result<Grant>)
  {
    if username == "" || |password| < 12 then (t, Err(InvalidCredentials))
    else if !(exists u :: Named(t, username, u)) then (t, Err(InvalidCredentials))
    else
      var u :| Named(t, username, u);
      match LoginRefusal(t.users[u], password, channel, u in t.credentials)
      case Some(e) => (t, Err(e))
      case None =>
        (LoggedIn(t, cfg, u, channel, now),
         Ok(Grant(t.nextId + 1, t.nextId, if channel == ClientPanel then Some(t.nextId + 2) else None)))
  }

  predicate HasToken(t: Tables, token: Id, s: Id) { s in t.sessions && t.sessions[s].token == token }

  /** The verdict on the session row a bearer token selects. */
  function SessionVerdict(t: Tables, s: Session, now: int): Option<Error> {
    if s.user !in t.users then Some(SessionInvalid)
    else if s.revoked then Some(SessionReplaced)
    else if t.users[s.user].status != ActiveUser || now > s.expires || now > s.idle then Some(SessionInvalid)
    else if s.channel == ClientPanel && t.users[s.user].generation != s.generation then Some(SessionReplaced)
    else None
  }

  /** The answer to a bearer token. */
  ghost function Verified(t: Tables, token: Id, now: int): Result<Id> {
    if !(exists s :: HasToken(t, token, s)) then Err(SessionInvalid)
    else
      var s :| HasToken(t, token, s);
      match SessionVerdict(t, t.sessions[s], now)
      case Some(e) => Err(e)
      case None => Ok(s)
  }

  /** Accepting a token moves its idle time; whether that is stored is not checked. */
  ghost function Authenticate(t: Tables, token: Id, now: int, touched: bool): (Tables, Result<Id>) {
    var answer := Verified(t, token, now);
    if answer.Ok? && answer.value in t.sessions && touched then
      var s := answer.value;
      (t.(sessions := t.sessions[s := t.sessions[s].(idle := now + IDLE_LIMIT)]), answer)
    else (t, answer)
  }

  /** The session first; only a failure of that is reported. */
  function Logout(t: Tables, who: AuthContext, ended: Ended): Tables {
    if !ended.sessions then t
    else
      t.(sessions := map s | s in t.sessions ::
           if s == who.session then t.sessions[s].(revoked := true) else t.sessions[s],
         runtimes := map r | r in t.runtimes ::
           if t.runtimes[r].session == who.session && ended.runtimes then t.runtimes[r].(revoked := true)
           else t.runtimes[r])
  }

  // ---------- credential rotation ----------

  function ResetTarget(who: AuthContext, target: Option<Id>): Option<Id> {
    if !who.admin then
      if target.None? || target.value == who.user then Some(who.user) else None
    else
      if target.Some? && target.value != who.user then target else None
  }

  function ResetEndpoint(who: AuthContext, target: Id): Endpoint {
    if who.admin then ResetUserCredentialAt(target) else ResetOwnCredentialAt
  }

  /** `proven` is the verdict of the reauthentication check on the proof. Ids in the
      order they are drawn: key, secret. */
  function ResetFRPCredential(t: Tables, who: AuthContext, target: Option<Id>, proof: string, proven: bool,
                              key: Option<string>)
    : (Tables, Result<Reply>)
  {
    var user := ResetTarget(who, target);
    if user.None? then (t, Err(Forbidden))
    else if proof == "" || !proven then (t, Err(InvalidCredentials))
    else
      var u := user.value;
      var k := RecordKey(who.user, who.generation, ResetEndpoint(who, u), KeyOf(key, t.nextId));
      var body := ResetBody(u, proof);
      if k in t.records then (t, Replay(t.records[k], body))
      else if u !in t.users || u !in t.credentials then (t, Err(NotFound))
      else if t.users[u].admin || t.users[u].status == DeletedUser then (t, Err(Forbidden))
      else if who.user !in t.users then (t, Err(StorageError))
      else
        var row, credential := t.users[u], FrpCredential(t.nextId + 1, t.credentials[u].version + 1);
        var reply := SecretReply(credential.version, row.generation + 1);
        (t.(nextId := t.nextId + 2,
            users := t.users[u := row.(generation := row.generation + 1, desired := row.desired + 1)],
            credentials := t.credentials[u := credential],
            sessions := RevokeSessions(t.sessions, u, false),
            runtimes := RevokeRuntimes(t.runtimes, u),
            records := t.records[k := Record(body, reply)]),
         Ok(reply))
  }

  // ---------- authorization of FRP operations ----------

  datatype FrpOperation = FrpLogin | Ping | NewWorkConn | NewUserConn | CloseProxy | NewProxy | OtherOperation

  /** `proxyType` is None and `hostname` is empty when the request carries none. */
  datatype FrpRequest = FrpRequest(
    operation: FrpOperation, user: Id, runtimeToken: Id, secret: Option<Id>, generation: int,
    mapping: Id, revision: int, remotePort: int, proxyType: Option<ProxyType>, hostname: string)

  datatype Verdict =
    | Accepted
    | RuntimeCredentialInvalid | UserCredentialInvalid | AuthUserDisabled | GenerationMismatch | SessionExpired
    | OperationNotAllowed | MappingNotFound | MappingNotAuthorized | ProxyTypeNotAllowed
    | RevisionConflictVerdict | PortVerdict | DomainNotAuthorized | DomainRequired

  /** The join that selects the runtime credential of a request. */
  predicate LiveRuntime(t: Tables, req: FrpRequest, r: Id) {
    && r in t.runtimes && !t.runtimes[r].revoked
    && t.runtimes[r].user == req.user && t.runtimes[r].token == req.runtimeToken
    && req.user in t.users && req.user in t.credentials
    && t.runtimes[r].session in t.sessions && !t.sessions[t.runtimes[r].session].revoked
  }

  function CredentialVerdict(t: Tables, req: FrpRequest, r: Id, now: int): Verdict
    requires LiveRuntime(t, req, r)
  {
    var u := t.users[req.user];
    if req.secret.Some? && req.secret.value != t.credentials[req.user].secret then UserCredentialInvalid
    else if u.status != ActiveUser then AuthUserDisabled
    else if u.generation != req.generation || t.sessions[t.runtimes[r].session].generation != req.generation
    then GenerationMismatch
    else if now > t.runtimes[r].expires then SessionExpired
    else Accepted
  }

  predicate Hosts(t: Tables, user: Id, m: Id, hostname: string) {
    exists d | d in t.domains ::
      t.domains[d].hostname == hostname && t.domains[d].owner == user
      && t.domains[d].mapping == m && t.domains[d].status != DeletedDomain
  }

  function ProxyVerdict(t: Tables, req: FrpRequest): Verdict {
    if req.mapping !in t.mappings then MappingNotFound
    else
      var m := t.mappings[req.mapping];
      match CurrentRevision(t, m)
      case None => MappingNotFound
      case Some(rev) =>
        if m.owner != req.user || !m.enabled || Sticky(m.lifecycle) then MappingNotAuthorized
        else if req.proxyType.Some? && req.proxyType.value != m.proxyType then ProxyTypeNotAllowed
        else if rev.number != req.revision then RevisionConflictVerdict
        else if rev.port.Some? && rev.port.value != req.remotePort then PortVerdict
        else if req.hostname != "" && !Hosts(t, req.user, req.mapping, req.hostname) then DomainNotAuthorized
        else if m.proxyType == Http && req.hostname == "" then DomainRequired
        else Accepted
  }

  ghost function AuthorizeFRP(t: Tables, req: FrpRequest, now: int): Verdict {
    if !(exists r :: LiveRuntime(t, req, r)) then RuntimeCredentialInvalid
    else
      var r :| LiveRuntime(t, req, r);
      var v := CredentialVerdict(t, req, r, now);
      if v != Accepted then v
      else match req.operation
        case OtherOperation => OperationNotAllowed
        case NewProxy => ProxyVerdict(t, req)
        case _ => Accepted
  }
}
