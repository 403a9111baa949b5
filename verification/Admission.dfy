/** What a write that takes effect has respected: quotas, port ranges, the schema's
    constraints and the caller's rights; and that its answer describes what was stored. */
module Admission {
  import opened Wrappers
  import opened Schema
  import opened Mappings
  import opened MappingInvariants
  import opened Identity
  import opened DnsSync
  import opened Domains
  import opened Invariants

  // ---------- quotas ----------

  lemma OneMoreMapping(t: Tables, user: Id, req: MappingRequest, port: Option<int>, k: RecordKey)
    requires MappingIdsBelow(t)
    ensures var t', m := Created(t, user, req, port, k), t.nextId + 1;
            && OwnMappings(t', user) == OwnMappings(t, user) + {m} && m !in OwnMappings(t, user)
            && AwaitingMappings(t', user) == AwaitingMappings(t, user) + {m} && m !in AwaitingMappings(t, user)
  {
  }

  lemma OneMoreLease(t: Tables, user: Id, req: MappingRequest, port: int, k: RecordKey)
    requires MappingIdsBelow(t) && LeasesAnchored(t.mappings, t.revisions, t.leases)
    ensures PendingPortLeases(Created(t, user, req, Some(port), k), user) == PendingPortLeases(t, user) + {t.nextId + 3}
    ensures t.nextId + 3 !in PendingPortLeases(t, user)
  {
  }

  lemma CountsAfterCreate(t: Tables, user: Id, req: MappingRequest, port: Option<int>, k: RecordKey)
    requires MappingIdsBelow(t) && LeasesAnchored(t.mappings, t.revisions, t.leases)
    ensures var t' := Created(t, user, req, port, k);
            && |OwnMappings(t', user)| == |OwnMappings(t, user)| + 1
            && |AwaitingMappings(t', user)| == |AwaitingMappings(t, user)| + 1
            && (port.Some? ==> |PendingPortLeases(t', user)| == |PendingPortLeases(t, user)| + 1)
  {
    OneMoreMapping(t, user, req, port, k);
    if port.Some? { OneMoreLease(t, user, req, port.value, k); }
  }

  /** A create that takes effect leaves the user within its quotas on mappings; that of a TCP
      or UDP proxy also within the quota on pending ports, with a port of the range that FRPS
      itself does not use. */
  lemma CreateWithinQuotas(t: Tables, cfg: Config, who: AuthContext, req: MappingRequest, key: Option<string>)
    requires MappingIdsBelow(t) && LeasesAnchored(t.mappings, t.revisions, t.leases)
    requires CreateMapping(t, cfg, who, req, key).0 != t
    ensures var t' := CreateMapping(t, cfg, who, req, key).0;
            && who.user in t'.users && t'.users[who.user].status == ActiveUser
            && |OwnMappings(t', who.user)| <= t'.users[who.user].maxMappings
            && |AwaitingMappings(t', who.user)| <= t'.users[who.user].maxPendingMappings
            && (Ranged(req.proxyType) ==>
                  && |PendingPortLeases(t', who.user)| <= t'.users[who.user].maxPendingPorts
                  && t.nextId + 3 in t'.leases
                  && cfg.portStart <= t'.leases[t.nextId + 3].port <= cfg.portEnd
                  && t'.leases[t.nextId + 3].port != cfg.bindPort)
  {
    var k := RecordKey(who.user, who.generation, CreateMappingAt, KeyOf(key, t.nextId));
    CountsAfterCreate(t, who.user, req, ChosenPort(t, cfg, req), k);
  }

  lemma AwaitingAfterUpdate(t: Tables, m: Id, req: MappingRequest, port: Option<int>, k: RecordKey)
    requires m in t.mappings
    ensures AwaitingMappings(Updated(t, m, req, port, k), t.mappings[m].owner)
            == AwaitingMappings(t, t.mappings[m].owner) + {m}
  {
  }

  /** An update that takes effect is of the caller's own mapping, and adds to the mappings
      that wait for an apply only within the quota; the port of a TCP or UDP proxy is in
      range, and a new port is leased only by a user below the quota on pending ports. */
  lemma UpdateWithinQuotas(t: Tables, cfg: Config, who: AuthContext, m: Id, req: MappingRequest, key: Option<string>)
    requires UpdateMapping(t, cfg, who, m, req, key).0 != t
    ensures var t' := UpdateMapping(t, cfg, who, m, req, key).0;
            && OwnsMapping(t, who.user, m) && who.user in t'.users
            && (!AwaitsApply(t.mappings[m])
                ==> |AwaitingMappings(t', who.user)| <= t'.users[who.user].maxPendingMappings)
            && (AwaitsApply(t.mappings[m]) ==> AwaitingMappings(t', who.user) == AwaitingMappings(t, who.user))
            && t.nextId + 1 in t'.revisions
            && (NeedsLease(t, t.mappings[m], t'.revisions[t.nextId + 1].port) ==>
                  |PendingPortLeases(t, who.user)| < t.users[who.user].maxPendingPorts)
            && (Ranged(req.proxyType) ==>
                  var port := t'.revisions[t.nextId + 1].port; port.Some? && cfg.portStart <= port.value <= cfg.portEnd)
  {
    var k := RecordKey(who.user, who.generation, UpdateMappingAt(m), KeyOf(key, t.nextId));
    AwaitingAfterUpdate(t, m, req, RequestedPort(t, t.mappings[m], req), k);
    if AwaitsApply(t.mappings[m]) {
      assert m in AwaitingMappings(t, who.user);
    }
  }

  /** A domain that takes effect is for an HTTP mapping of its own user, within the quota. */
  lemma DomainWithinQuota(t: Tables, who: AuthContext, req: DomainRequest, otherQuota: bool, key: Option<string>)
    requires CreateDomain(t, who, req, otherQuota, key).0 != t && t.nextId + 1 !in t.domains
    ensures var t', d := CreateDomain(t, who, req, otherQuota, key).0, t.nextId + 1;
            && who.user in t.users && t.users[who.user].status == ActiveUser && !otherQuota
            && d in t'.domains && t'.domains[d] == Domain(who.user, req.mapping, req.hostname, req.mode, PendingDns)
            && OwnsMapping(t', who.user, req.mapping) && t'.mappings[req.mapping].proxyType == Http
            && |set e | e in t'.domains && t'.domains[e].owner == who.user && t'.domains[e].status != DeletedDomain|
               <= t.users[who.user].maxDomains
  {
    var t', d := CreateDomain(t, who, req, otherQuota, key).0, t.nextId + 1;
    assert (set e | e in t'.domains && t'.domains[e].owner == who.user && t'.domains[e].status != DeletedDomain)
           == (set e | e in t.domains && t.domains[e].owner == who.user && t.domains[e].status != DeletedDomain) + {d};
  }

  // ---------- what is stored, and answered ----------

  /** The constraints of the schema on a revision. */
  predicate Fits(r: Revision) { 1 <= r.localPort <= 65535 && (r.port.Some? ==> 1 <= r.port.value <= 65535) }

  /** The answer describes the mapping and its current revision as stored, and these are
      what was asked for. */
  ghost predicate Describes(t: Tables, view: MappingView, req: MappingRequest) {
    && view.id in t.mappings
    && (var row := t.mappings[view.id];
        && row.pending.Some? && row.pending.value in t.revisions
        && (var rev := t.revisions[row.pending.value];
            && Fits(rev) && rev.mapping == view.id && rev.number == view.revision
            && rev.localIp == view.localIp == req.localIp && rev.localPort == view.localPort == req.localPort
            && rev.port == view.remotePort
            && (req.remotePort.Some? && req.remotePort.value != 0 ==> rev.port == req.remotePort))
        && row.owner == view.owner && row.name == view.name == req.name
        && row.proxyType == view.proxyType == req.proxyType && row.enabled == view.enabled
        && row.lifecycle == view.lifecycle == PendingApply)
  }

  lemma CreateAnswers(t: Tables, cfg: Config, who: AuthContext, req: MappingRequest, key: Option<string>)
    requires CreateMapping(t, cfg, who, req, key).0 != t
    ensures var (t', r) := CreateMapping(t, cfg, who, req, key);
            && r.Ok? && r.value.MappingReply? && Describes(t', r.value.view, req)
            && r.value.view.owner == who.user && r.value.view.revision == 1 && r.value.view.enabled
  {
  }

  lemma UpdateAnswers(t: Tables, cfg: Config, who: AuthContext, m: Id, req: MappingRequest, key: Option<string>)
    requires UpdateMapping(t, cfg, who, m, req, key).0 != t
    ensures var (t', r) := UpdateMapping(t, cfg, who, m, req, key);
            && r.Ok? && r.value.MappingReply? && Describes(t', r.value.view, req)
            && r.value.view.id == m && r.value.view.owner == who.user
            && r.value.view.enabled == t.mappings[m].enabled
  {
  }

  // ---------- rights ----------

  ghost predicate MayLogIn(t: Tables, u: Id, username: string, password: string, channel: Channel) {
    && u in t.users && t.users[u].username == username && t.users[u].password == password
    && t.users[u].status == ActiveUser && (channel == AdminPanel <==> t.users[u].admin)
  }

  /** A login is granted to the user of that name and password only, if active, and on
      the channel of its role. */
  lemma LoginGrantedTo(t: Tables, cfg: Config, username: string, password: string, channel: Channel, now: int)
    requires Login(t, cfg, username, password, channel, now).1.Ok?
    ensures exists u :: MayLogIn(t, u, username, password, channel)
                        && Login(t, cfg, username, password, channel, now).0 == LoggedIn(t, cfg, u, channel, now)
  {
    var u :| Named(t, username, u) && LoginRefusal(t.users[u], password, channel, u in t.credentials).None?
             && Login(t, cfg, username, password, channel, now).0 == LoggedIn(t, cfg, u, channel, now);
    RefusalMeans(t.users[u], password, channel, u in t.credentials);
    assert MayLogIn(t, u, username, password, channel);
  }

  lemma RefusalMeans(u: User, password: string, channel: Channel, hasCredential: bool)
    ensures LoginRefusal(u, password, channel, hasCredential).None? <==>
            && u.password == password && u.status == ActiveUser && (channel == AdminPanel <==> u.admin)
            && (channel == ClientPanel ==> hasCredential)
  {
  }

  /** A credential is rotated by its own user, or for another user by an administrator;
      never an administrator's, and never without a valid proof. */
  lemma ResetConcerns(t: Tables, who: AuthContext, target: Option<Id>, proof: string, proven: bool, key: Option<string>)
    requires ResetFRPCredential(t, who, target, proof, proven, key).0 != t
    ensures var t' := ResetFRPCredential(t, who, target, proof, proven, key).0;
            && proven && proof != ""
            && (who.admin ==> target.Some? && target.value != who.user)
            && (!who.admin ==> target == None || target == Some(who.user))
            && (var u := if target.Some? then target.value else who.user;
                && u in t.users && !t.users[u].admin && u in t'.credentials
                && t'.credentials[u].secret >= t.nextId
                && (forall v :: v in t.credentials && v != u ==> t'.credentials[v] == t.credentials[v])
                && (forall s :: s in t'.sessions && t'.sessions[s].user == u ==> t'.sessions[s].revoked)
                && (forall r :: r in t'.runtimes && t'.runtimes[r].user == u ==> t'.runtimes[r].revoked))
  {
  }
}
