/** One client login per user: at most one client token authenticates, what a later
    login replaced is rejected for ever, and FRP operations are accepted only with the
    runtime credential issued with the one live login. */
module Sessions {
  import opened Wrappers
  import opened Schema
  import opened Mappings
  import opened MappingInvariants
  import opened Identity
  import opened DnsSync
  import opened Domains
  import opened Service
  import opened Invariants
  import opened DomainInvariants
  import opened Decay

  // ---------- sessions that are out of date stay so ----------

  /** The session is revoked, or belongs to an older generation of its user. */
  predicate Outdated(users: map<Id, User>, s: Session) {
    s.revoked || (s.channel == ClientPanel && s.user in users && s.generation < users[s.user].generation)
  }

  ghost predicate TokenDead(t: Tables, token: Id) {
    token < t.nextId && forall s :: HasToken(t, token, s) ==> Outdated(t.users, t.sessions[s])
  }

  predicate HasRuntimeToken(t: Tables, token: Id, r: Id) { r in t.runtimes && t.runtimes[r].token == token }

  ghost predicate RuntimeDead(t: Tables, token: Id) {
    token < t.nextId
    && forall r :: HasRuntimeToken(t, token, r) && t.runtimes[r].session in t.sessions ==>
         Outdated(t.users, t.sessions[t.runtimes[r].session])
  }

  lemma RevokingKeepsDead(t: Tables, t': Tables, token: Id)
    requires RevokingStep(t, t')
    ensures TokenDead(t, token) ==> TokenDead(t', token)
    ensures RuntimeDead(t, token) ==> RuntimeDead(t', token)
  {
    assert forall s :: s in t.sessions && Outdated(t.users, t.sessions[s]) ==> Outdated(t'.users, t'.sessions[s]);
    assert forall s :: HasToken(t', token, s) ==> HasToken(t, token, s);
    assert forall r :: HasRuntimeToken(t', token, r) ==> HasRuntimeToken(t, token, r);
  }

  lemma DecayKeepsDead(t: Tables, t': Tables, token: Id)
    requires Decays(t, t') && SessionUsers(t'.users, t'.sessions)
    ensures TokenDead(t, token) ==> TokenDead(t', token)
    ensures RuntimeDead(t, token) ==> RuntimeDead(t', token)
  {
    assert forall s :: s in t'.sessions && Outdated(t.users, t.sessions[s]) ==> Outdated(t'.users, t'.sessions[s]);
    assert forall s :: HasToken(t', token, s) ==> HasToken(t, token, s);
    assert forall r :: HasRuntimeToken(t', token, r) ==> HasRuntimeToken(t, token, r);
  }

  lemma LoggedInKeepsOutdated(t: Tables, cfg: Config, user: Id, channel: Channel, now: int, s: Id)
    requires user in t.users && s in t.sessions && s != t.nextId + 1 && Outdated(t.users, t.sessions[s])
    ensures var t' := LoggedIn(t, cfg, user, channel, now); s in t'.sessions && Outdated(t'.users, t'.sessions[s])
  {
  }

  lemma LoggedInKeepsDeadToken(t: Tables, cfg: Config, user: Id, channel: Channel, now: int, token: Id)
    requires TokensDistinct(t) && user in t.users && TokenDead(t, token)
    ensures TokenDead(LoggedIn(t, cfg, user, channel, now), token)
  {
    var t' := LoggedIn(t, cfg, user, channel, now);
    forall s | HasToken(t', token, s) ensures Outdated(t'.users, t'.sessions[s]) {
      assert HasToken(t, token, s);
      LoggedInKeepsOutdated(t, cfg, user, channel, now, s);
    }
  }

  lemma LoggedInKeepsDeadRuntime(t: Tables, cfg: Config, user: Id, channel: Channel, now: int, token: Id)
    requires TokensDistinct(t) && user in t.users && RuntimeRules(t.sessions, t.runtimes) && RuntimeDead(t, token)
    ensures RuntimeDead(LoggedIn(t, cfg, user, channel, now), token)
  {
    var t' := LoggedIn(t, cfg, user, channel, now);
    forall r | HasRuntimeToken(t', token, r) ensures Outdated(t'.users, t'.sessions[t'.runtimes[r].session]) {
      assert HasRuntimeToken(t, token, r);
      LoggedInKeepsOutdated(t, cfg, user, channel, now, t.runtimes[r].session);
    }
  }

  // ---------- every other step only revokes ----------

  lemma SameSessionsRevoke(t: Tables, t': Tables)
    requires SameSessions(t, t') && UsersGrow(t.users, t'.users) && t.nextId <= t'.nextId
    ensures RevokingStep(t, t')
  {
  }

  lemma MappingOpsRevoke(t: Tables, cfg: Config, op: Op)
    requires IsMappingOp(op) && MappingIdsBelow(t)
    ensures var t' := Exec(t, cfg, op).0; t' == t || RevokingStep(t, t')
  {
    var t' := Exec(t, cfg, op).0;
    MappingOpOnly(t, cfg, op);
    if t' != t { SameSessionsRevoke(t, t'); }
  }

  lemma DomainOpsKeepSessions(t: Tables, cfg: Config, op: Op)
    requires UserRules(t) && (op.CreateDomainOp? || op.DeleteDomainOp?)
    ensures var t' := Exec(t, cfg, op).0;
            t' == t || (SameSessions(t, t') && UsersGrow(t.users, t'.users) && t.nextId <= t'.nextId)
  {
    if op.CreateDomainOp? { CreateDomainOnly(t, op.who, op.domainReq, op.otherQuota, op.key); }
    else { DeleteDomainOnly(t, op.who, op.domain, op.key); }
  }

  lemma DomainJobsKeepSessions(t: Tables, cfg: Config, op: Op)
    requires UserRules(t) && (op.AdvanceDomainOp? || op.SyncDnsOp?)
    ensures var t' := Exec(t, cfg, op).0;
            t' == t || (SameSessions(t, t') && UsersGrow(t.users, t'.users) && t.nextId <= t'.nextId)
  {
    match op
    case AdvanceDomainOp(d, status, operator) => AdvanceDomainOnly(t, d, status, operator);
    case SyncDnsOp(d, fallback, action, answers, reach, now) =>
      SyncDnsOnly(t, d, fallback, action, answers, reach, now);
  }

  lemma BindingOpsRevoke(t: Tables, cfg: Config, op: Op)
    requires UserRules(t) && !IsIdentityOp(op) && !IsMappingOp(op) && !IsCleanup(op)
    ensures var t' := Exec(t, cfg, op).0; t' == t || RevokingStep(t, t')
  {
    var t' := Exec(t, cfg, op).0;
    if op.DeleteUserOp? {
      DeleteUserRevokes(t, op.who, op.user, op.force, op.key);
    } else {
      if op.DeleteMappingOp? { DeleteMappingOnly(t, op.who, op.mapping, op.force, op.key); }
      else if op.CreateDomainOp? || op.DeleteDomainOp? { DomainOpsKeepSessions(t, cfg, op); }
      else { DomainJobsKeepSessions(t, cfg, op); }
      if t' != t { SameSessionsRevoke(t, t'); }
    }
  }

  lemma IdentityOpsRevoke(t: Tables, cfg: Config, op: Op)
    requires UserRules(t) && DomainInv(t) && IsIdentityOp(op) && !op.LoginOp?
    ensures var t' := Exec(t, cfg, op).0; t' == t || RevokingStep(t, t')
  {
    var t' := Exec(t, cfg, op).0;
    match op
    case CreateUserOp(who, username, password, stored) =>
      CreateUserOnly(t, who, username, password, stored);
      SameSessionsRevoke(t, t');
    case SnapshotOp(who, hash) =>
      SnapshotOnly(t, who, hash);
      SameSessionsRevoke(t, t');
    case _ => IdentityOpOnly(t, cfg, op);
  }

  lemma LoginKeepsDead(t: Tables, cfg: Config, username: string, password: string, channel: Channel, now: int,
                       token: Id)
    requires Inv(t)
    ensures var t' := Login(t, cfg, username, password, channel, now).0;
            (TokenDead(t, token) ==> TokenDead(t', token)) && (RuntimeDead(t, token) ==> RuntimeDead(t', token))
  {
    var t' := Login(t, cfg, username, password, channel, now).0;
    if t' != t {
      InvMeans(t);
      var u :| u in t.users && t' == LoggedIn(t, cfg, u, channel, now);
      if TokenDead(t, token) { LoggedInKeepsDeadToken(t, cfg, u, channel, now, token); }
      if RuntimeDead(t, token) { LoggedInKeepsDeadRuntime(t, cfg, u, channel, now, token); }
    }
  }

  lemma CleanupKeepsDead(t: Tables, cfg: Config, op: Op, token: Id)
    requires Inv(t) && IsCleanup(op)
    ensures var t' := Exec(t, cfg, op).0;
            (TokenDead(t, token) ==> TokenDead(t', token)) && (RuntimeDead(t, token) ==> RuntimeDead(t', token))
  {
    var t' := Exec(t, cfg, op).0;
    CleanupDecays(t, cfg, op);
    ExecKeepsInv(t, cfg, op);
    InvMeans(t');
    DecayKeepsDead(t, t', token);
  }

  lemma StepKeepsDead(t: Tables, cfg: Config, op: Op, token: Id)
    requires Inv(t)
    ensures var t' := Exec(t, cfg, op).0;
            (TokenDead(t, token) ==> TokenDead(t', token)) && (RuntimeDead(t, token) ==> RuntimeDead(t', token))
  {
    var t' := Exec(t, cfg, op).0;
    if IsCleanup(op) {
      CleanupKeepsDead(t, cfg, op, token);
    } else if op.LoginOp? {
      LoginKeepsDead(t, cfg, op.username, op.password, op.channel, op.now, token);
    } else {
      OtherOpsRevoke(t, cfg, op);
      if t' != t { RevokingKeepsDead(t, t', token); }
    }
  }

  lemma OtherOpsRevoke(t: Tables, cfg: Config, op: Op)
    requires Inv(t) && !IsCleanup(op) && !op.LoginOp?
    ensures var t' := Exec(t, cfg, op).0; t' == t || RevokingStep(t, t')
  {
    InvMeans(t);
    if IsIdentityOp(op) { IdentityOpsRevoke(t, cfg, op); }
    else if IsMappingOp(op) { MappingOpsRevoke(t, cfg, op); }
    else { BindingOpsRevoke(t, cfg, op); }
  }

  lemma {:induction false} RunKeepsDead(t: Tables, cfg: Config, ops: seq<Op>, token: Id)
    requires Inv(t)
    ensures var t' := Run(t, cfg, ops);
            (TokenDead(t, token) ==> TokenDead(t', token)) && (RuntimeDead(t, token) ==> RuntimeDead(t', token))
    decreases |ops|
  {
    if ops != [] {
      StepKeepsDead(t, cfg, ops[0], token);
      ExecKeepsInv(t, cfg, ops[0]);
      RunKeepsDead(Exec(t, cfg, ops[0]).0, cfg, ops[1..], token);
    }
  }

  // ---------- authentication ----------

  lemma AuthenticateFinds(t: Tables, token: Id, now: int, s: Id)
    requires TokensDistinct(t) && HasToken(t, token, s)
    ensures Verified(t, token, now)
            == match SessionVerdict(t, t.sessions[s], now) case Some(e) => Err(e) case None => Ok(s)
  {
  }

  /** A token is accepted iff its session is not revoked, expired or idle, its user is
      active, and a client session is of the user's current generation. */
  lemma AuthenticatedIff(t: Tables, token: Id, now: int, s: Id)
    requires TokensDistinct(t) && HasToken(t, token, s) && t.sessions[s].user in t.users
    ensures Verified(t, token, now) == Ok(s) <==>
            && !t.sessions[s].revoked && t.users[t.sessions[s].user].status == ActiveUser
            && now <= t.sessions[s].expires && now <= t.sessions[s].idle
            && (t.sessions[s].channel == ClientPanel ==>
                  t.sessions[s].generation == t.users[t.sessions[s].user].generation)
  {
    AuthenticateFinds(t, token, now, s);
  }

  lemma DeadTokenRejected(t: Tables, token: Id, now: int)
    requires TokenDead(t, token)
    ensures Verified(t, token, now).Err?
  {
  }

  /** At most one client token of a user authenticates. */
  lemma OneClientToken(t: Tables, a: Id, b: Id, now: int, later: int)
    requires AuthInv(t)
    requires Verified(t, a, now).Ok? && Verified(t, b, later).Ok?
    requires var s, q := t.sessions[Verified(t, a, now).value], t.sessions[Verified(t, b, later).value];
             s.channel == ClientPanel && q.channel == ClientPanel && s.user == q.user
    ensures a == b
  {
  }

  /** A token rejected as replaced is rejected after every run and at every time. */
  lemma ReplacedForEver(t: Tables, cfg: Config, token: Id, now: int, ops: seq<Op>, later: int)
    requires Inv(t) && Verified(t, token, now) == Err(SessionReplaced)
    ensures Verified(Run(t, cfg, ops), token, later).Err?
  {
    InvMeans(t);
    ReplacedIsDead(t, token, now);
    RunKeepsDead(t, cfg, ops, token);
    DeadTokenRejected(Run(t, cfg, ops), token, later);
  }

  lemma ReplacedIsDead(t: Tables, token: Id, now: int)
    requires AuthInv(t) && Verified(t, token, now) == Err(SessionReplaced)
    ensures TokenDead(t, token)
  {
    var s :| HasToken(t, token, s);
    AuthenticateFinds(t, token, now, s);
    assert Outdated(t.users, t.sessions[s]);
    forall q | HasToken(t, token, q) ensures q == s {}
  }

  lemma LoggedInReplaces(t: Tables, cfg: Config, user: Id, now: int, token: Id, s: Id)
    requires AuthInv(t) && user in t.users && t.users[user].status == ActiveUser && cfg.sessionTtl >= 0
    requires HasToken(t, token, s) && t.sessions[s].user == user && t.sessions[s].channel == ClientPanel
    ensures var t' := LoggedIn(t, cfg, user, ClientPanel, now); Verified(t', token, now) == Err(SessionReplaced)
  {
    var t' := LoggedIn(t, cfg, user, ClientPanel, now);
    LoggedInTokens(t, cfg, user, ClientPanel, now);
    AuthenticateFinds(t', token, now, s);
  }

  lemma LoggedInIsIn(t: Tables, cfg: Config, user: Id, now: int)
    requires AuthInv(t) && user in t.users && t.users[user].status == ActiveUser && cfg.sessionTtl >= 0
    ensures Verified(LoggedIn(t, cfg, user, ClientPanel, now), t.nextId, now) == Ok(t.nextId + 1)
  {
    LoggedInTokens(t, cfg, user, ClientPanel, now);
    AuthenticateFinds(LoggedIn(t, cfg, user, ClientPanel, now), t.nextId, now, t.nextId + 1);
  }

  lemma GrantIs(t: Tables, cfg: Config, username: string, password: string, now: int, user: Id)
    requires UsernamesDistinct(t.users) && user in t.users && t.users[user].username == username
    requires Login(t, cfg, username, password, ClientPanel, now).1.Ok?
    ensures Login(t, cfg, username, password, ClientPanel, now)
            == (LoggedIn(t, cfg, user, ClientPanel, now), Ok(Grant(t.nextId + 1, t.nextId, Some(t.nextId + 2))))
    ensures t.users[user].status == ActiveUser
  {
  }

  /** A client login that is granted lets its own token in at once, and every token that the
      user of that name had as a client before is rejected as replaced. */
  lemma LoginReplaces(t: Tables, cfg: Config, username: string, password: string, now: int)
    requires AuthInv(t) && cfg.sessionTtl >= 0 && Login(t, cfg, username, password, ClientPanel, now).1.Ok?
    ensures var (t', grant) := Login(t, cfg, username, password, ClientPanel, now);
            && Verified(t', grant.value.token, now) == Ok(grant.value.session)
            && forall token, s :: HasToken(t, token, s) && t.sessions[s].channel == ClientPanel
                                  && t.users[t.sessions[s].user].username == username ==>
                 Verified(t', token, now) == Err(SessionReplaced)
  {
    var user :| Named(t, username, user);
    GrantIs(t, cfg, username, password, now, user);
    LoggedInIsIn(t, cfg, user, now);
    forall token, s | HasToken(t, token, s) && t.sessions[s].channel == ClientPanel
                      && t.users[t.sessions[s].user].username == username
      ensures Verified(LoggedIn(t, cfg, user, ClientPanel, now), token, now) == Err(SessionReplaced)
    {
      assert t.sessions[s].user == user;
      LoggedInReplaces(t, cfg, user, now, token, s);
    }
  }

  // ---------- FRP authorization ----------

  /** A request is accepted iff it comes with the user's secret, if it has one, and an
      unexpired runtime credential whose session is the active user's one live client
      session, of the user's current generation, that no other runtime credential was
      issued with; and asks for an operation it may have. */
  lemma AcceptedFromLiveLogin(t: Tables, req: FrpRequest, now: int)
    requires AuthInv(t)
    ensures AuthorizeFRP(t, req, now) == Accepted <==>
            && (exists r :: LiveRuntime(t, req, r) && FromLiveLogin(t, req, r) && now <= t.runtimes[r].expires)
            && t.users[req.user].status == ActiveUser
            && (req.secret.Some? ==> req.secret.value == t.credentials[req.user].secret)
            && req.operation != OtherOperation
            && (req.operation == NewProxy ==> ProxyVerdict(t, req) == Accepted)
  {
    if r :| LiveRuntime(t, req, r) {
      forall q | LiveRuntime(t, req, q) ensures q == r {}
      LiveLoginIff(t, req, r, now);
    }
  }

  lemma LiveLoginIff(t: Tables, req: FrpRequest, r: Id, now: int)
    requires AuthInv(t) && LiveRuntime(t, req, r)
    ensures CredentialVerdict(t, req, r, now) == Accepted <==>
            && FromLiveLogin(t, req, r) && now <= t.runtimes[r].expires && t.users[req.user].status == ActiveUser
            && (req.secret.Some? ==> req.secret.value == t.credentials[req.user].secret)
  {
  }

  ghost predicate FromLiveLogin(t: Tables, req: FrpRequest, r: Id)
    requires LiveRuntime(t, req, r)
  {
    var s := t.runtimes[r].session;
    && LiveClient(t.sessions[s]) && t.sessions[s].user == req.user
    && t.sessions[s].generation == t.users[req.user].generation == req.generation
    && (forall q :: q in t.sessions && LiveClient(t.sessions[q]) && t.sessions[q].user == req.user ==> q == s)
    && (forall q :: q in t.runtimes && t.runtimes[q].session == s ==> q == r)
  }

  lemma DeadRuntimeRejected(t: Tables, req: FrpRequest, now: int)
    requires RuntimeDead(t, req.runtimeToken) && RuntimeRules(t.sessions, t.runtimes)
    ensures AuthorizeFRP(t, req, now) != Accepted
  {
  }

  /** Once its session has been replaced, a runtime credential is never accepted again. */
  lemma ReplacedRuntimeForEver(t: Tables, cfg: Config, r: Id, ops: seq<Op>, req: FrpRequest, later: int)
    requires Inv(t) && r in t.runtimes && t.runtimes[r].session in t.sessions
    requires Outdated(t.users, t.sessions[t.runtimes[r].session])
    requires req.runtimeToken == t.runtimes[r].token
    ensures AuthorizeFRP(Run(t, cfg, ops), req, later) != Accepted
  {
    InvMeans(t);
    assert RuntimeDead(t, req.runtimeToken) by {
      forall q | HasRuntimeToken(t, req.runtimeToken, q) ensures q == r {}
    }
    RunKeepsDead(t, cfg, ops, req.runtimeToken);
    RunKeepsInv(t, cfg, ops);
    InvMeans(Run(t, cfg, ops));
    DeadRuntimeRejected(Run(t, cfg, ops), req, later);
  }
}
