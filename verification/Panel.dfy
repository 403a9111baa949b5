/** The service over its database (server/internal/service/service.go and
    cloudflare_jobs.go): each method is one transaction or one job that updates the tables
    in place, statement by statement, and ends up doing to them exactly what its
    specification function says. A refusal part way through rolls everything back. What
    holds of the specification, step by step and over runs, therefore holds here. */
module Panel {
  import opened Wrappers
  import opened Schema
  import opened Mappings
  import opened MappingInvariants
  import opened ApplyRefinement
  import opened Identity
  import opened DnsSync
  import opened Domains
  import opened Service
  import opened Invariants
  import opened ConfigAgreement
  import opened DomainInvariants

  class App {
    const cfg: Config
    var db: Tables

    /** The database satisfies its invariants; every method keeps them. */
    ghost predicate Valid()
      reads this
    {
      Inv(db)
    }

    constructor (cfg: Config, password: string)
      ensures db == Initial(password) && this.cfg == cfg && Valid()
    {
      this.cfg := cfg;
      db := Initial(password);
      new;
      InitialInv(password);
    }

    /** The first port of the range that no lease holds. */
    method AllocatePort(tx: Tables, start: int, end: int) returns (port: Option<int>)
      ensures port == FirstFree(tx.leases, start, end)
    {
      var p := start;
      while p <= end
        invariant FirstFree(tx.leases, start, end) == FirstFree(tx.leases, p, end)
        decreases end - p
      {
        if !Leased(tx.leases, p) { return Some(p); }
        p := p + 1;
      }
      return None;
    }

    // ---------- mappings ----------

    method Create(who: AuthContext, req: MappingRequest, key: Option<string>) returns (r: Result<Reply>)
      requires Valid()
      modifies this
      ensures (db, r) == CreateMapping(old(db), cfg, who, req, key)
      ensures Valid()
    {
      CreateMappingKeepsInv(db, cfg, who, req, key);
      if !ValidRequest(req) { return Err(InvalidRequest); }
      var tx := db;
      var k := RecordKey(who.user, who.generation, CreateMappingAt, KeyOf(key, tx.nextId));
      if k in tx.records { return Replay(tx.records[k], MappingBody(req)); }
      var refusal := CreateRefusal(tx, cfg, who.user, req);
      if refusal.Some? { return Err(refusal.value); }
      var port := req.remotePort;
      if Ranged(req.proxyType) && (port.None? || port.value == 0) {
        port := AllocatePort(tx, cfg.portStart, cfg.portEnd);
      }
      var reply;
      tx, reply, refusal := InsertMapping(tx, who.user, req, port, k);
      if refusal.Some? { return Err(refusal.value); }
      db := tx;
      return Ok(reply);
    }

    /** The statements of a create, inside its transaction. */
    method InsertMapping(begun: Tables, user: Id, req: MappingRequest, port: Option<int>, k: RecordKey)
      returns (tx: Tables, reply: Reply, refusal: Option<Error>)
      ensures refusal == if !Storable(port) then Some(StorageError)
                         else if port.Some? && Leased(begun.leases, port.value) then Some(PortReserved)
                         else None
      ensures refusal.None? ==> tx == Created(begun, user, req, port, k) && reply == CreateReply(begun, user, req, port)
    {
      tx, reply := begun, Acknowledged;
      var m, revision, lease := tx.nextId + 1, tx.nextId + 2, tx.nextId + 3;
      var row, rev := NewMapping(user, req, revision), NewRevision(m, 1, req, port);
      tx := tx.(nextId := tx.nextId + 5, mappings := tx.mappings[m := row]);
      if !Storable(port) { return tx, reply, Some(StorageError); }
      tx := tx.(revisions := tx.revisions[revision := rev]);
      if port.Some? {
        if Leased(tx.leases, port.value) { return tx, reply, Some(PortReserved); }
        tx := tx.(leases := tx.leases[lease := Lease(m, revision, port.value, ActiveRole)]);
      }
      tx := tx.(users := BumpDesired(tx.users, user));
      reply := MappingReply(View(m, row, rev));
      tx := tx.(records := tx.records[k := Record(MappingBody(req), reply)]);
      return tx, reply, None;
    }

    /** The largest revision number of a mapping, 0 if it has none. */
    method LatestNumber(tx: Tables, m: Id) returns (n: int)
      ensures n == Largest(Numbers(tx.revisions, m))
    {
      var rest := Numbers(tx.revisions, m);
      var latest := None;
      ghost var seen := {};
      while rest != {}
        invariant Numbers(tx.revisions, m) == seen + rest && (latest.None? <==> seen == {})
        invariant latest.Some? ==> latest.value in seen && forall x :: x in seen ==> x <= latest.value
      {
        var x :| x in rest;
        if latest.None? || latest.value < x { latest := Some(x); }
        seen, rest := seen + {x}, rest - {x};
      }
      return if latest.Some? then latest.value else 0;
    }

    method Supersede(tx: Tables, pending: Option<Id>) returns (revisions: map<Id, Revision>)
      ensures revisions == SupersedePending(tx.revisions, pending)
    {
      revisions := tx.revisions;
      if pending.Some? && pending.value in revisions {
        var status := revisions[pending.value].status;
        if status == Pending || status == Applying {
          revisions := revisions[pending.value := revisions[pending.value].(status := Superseded)];
        }
      }
    }

    /** The temporary lease of what was pending is released, and a new port leased. */
    method LeasePort(tx: Tables, m: Id, port: Option<int>) returns (leases: map<Id, Lease>, taken: bool)
      requires m in tx.mappings
      ensures var kept := DropPendingLease(tx.leases, tx.mappings[m].pending);
              if !NeedsLease(tx, tx.mappings[m], port) then !taken && leases == kept
              else if Leased(kept, port.value) then taken
              else !taken && leases == kept[tx.nextId + 2 := Lease(m, tx.nextId + 1, port.value, PendingRole)]
    {
      leases, taken := tx.leases, false;
      NothingToDrop(leases);
      var current, revision, lease := tx.mappings[m], tx.nextId + 1, tx.nextId + 2;
      if current.pending.Some? { leases := DropPendingLease(leases, current.pending); }
      if NeedsLease(tx, current, port) {
        if Leased(leases, port.value) { return leases, true; }
        leases := leases[lease := Lease(m, revision, port.value, PendingRole)];
      }
    }

    /** The statements of an update, inside its transaction: what was pending is superseded. */
    method WriteRevision(begun: Tables, m: Id, req: MappingRequest, port: Option<int>, k: RecordKey)
      returns (tx: Tables, reply: Reply, refusal: Option<Error>)
      requires m in begun.mappings
      ensures refusal == if !Storable(port) then Some(StorageError)
                         else if NeedsLease(begun, begun.mappings[m], port)
                                 && Leased(DropPendingLease(begun.leases, begun.mappings[m].pending), port.value)
                         then Some(PortReserved)
                         else None
      ensures refusal.None? ==> tx == Updated(begun, m, req, port, k) && reply == UpdateReply(begun, m, req, port)
    {
      tx, reply := begun, Acknowledged;
      var current, revision := tx.mappings[m], tx.nextId + 1;
      var latest := LatestNumber(tx, m);
      var revisions := Supersede(tx, current.pending);
      if !Storable(port) { return tx, reply, Some(StorageError); }
      var leases, taken := LeasePort(tx, m, port);
      if taken { return tx, reply, Some(PortReserved); }
      var row, rev := UpdatedRow(current, req, revision), NewRevision(m, latest + 1, req, port);
      reply := MappingReply(View(m, row.(observed := ObservedOffline), rev));
      tx := tx.(nextId := tx.nextId + 4, users := BumpDesired(tx.users, current.owner), leases := leases,
                mappings := tx.mappings[m := row], revisions := revisions[revision := rev],
                records := tx.records[k := Record(MappingBody(req), reply)]);
      IsUpdated(begun, m, req, port, k, rev, leases, reply, tx);
      return tx, reply, None;
    }

    method Update(who: AuthContext, m: Id, req: MappingRequest, key: Option<string>) returns (r: Result<Reply>)
      requires Valid()
      modifies this
      ensures (db, r) == UpdateMapping(old(db), cfg, who, m, req, key)
      ensures Valid()
    {
      UpdateMappingKeepsInv(db, cfg, who, m, req, key);
      if !ValidRequest(req) { return Err(InvalidRequest); }
      var k := RecordKey(who.user, who.generation, UpdateMappingAt(m), KeyOf(key, db.nextId));
      if k in db.records { return Replay(db.records[k], MappingBody(req)); }
      var refusal := UpdateRefusal(db, cfg, who.user, m, req);
      if refusal.Some? { return Err(refusal.value); }
      var tx, reply;
      tx, reply, refusal := WriteRevision(db, m, req, RequestedPort(db, db.mappings[m], req), k);
      if refusal.Some? { return Err(refusal.value); }
      db := tx;
      return Ok(reply);
    }

    method Toggle(who: AuthContext, m: Id, enabled: bool, expectedVersion: Option<int>, expectedRevision: Option<int>,
                  key: Option<string>)
      returns (r: Result<Reply>)
      requires Valid()
      modifies this
      ensures (db, r) == ToggleMapping(old(db), who, m, enabled, expectedVersion, expectedRevision, key)
      ensures Valid()
    {
      ToggleMappingKeepsInv(db, who, m, enabled, expectedVersion, expectedRevision, key);
      var tx := db;
      var k := RecordKey(who.user, who.generation, ToggleMappingAt(m), KeyOf(key, tx.nextId));
      var body := ToggleBody(enabled, expectedVersion, expectedRevision);
      if k in tx.records { return Replay(tx.records[k], body); }
      if !OwnsMapping(tx, who.user, m) || who.user !in tx.users { return Err(NotFound); }
      if !VersionAgrees(expectedVersion, tx.users[who.user].desired) { return Err(ConfigConflict); }
      if !VersionAgrees(expectedRevision, CurrentNumber(tx, tx.mappings[m])) { return Err(RevisionConflict); }
      tx := tx.(nextId := tx.nextId + 1);
      var lifecycle := if enabled then PendingApply else Disabled;
      tx := tx.(mappings := tx.mappings[m := tx.mappings[m].(enabled := enabled, lifecycle := lifecycle)]);
      tx := tx.(users := BumpDesired(tx.users, who.user));
      db := tx.(records := tx.records[k := Record(body, Acknowledged)]);
      return Ok(Acknowledged);
    }

    method Delete(who: AuthContext, m: Id, force: bool, key: Option<string>) returns (r: Result<Reply>)
      requires Valid()
      modifies this
      ensures (db, r) == DeleteMapping(old(db), who, m, force, key)
      ensures Valid()
    {
      DeleteMappingKeepsInv(db, who, m, force, key);
      var tx := db;
      var k := RecordKey(who.user, who.generation, DeleteMappingAt(m), KeyOf(key, tx.nextId));
      if k in tx.records { return Replay(tx.records[k], ForceBody(force)); }
      if !OwnsMapping(tx, who.user, m) { return Err(NotFound); }
      tx := tx.(mappings := tx.mappings[m := tx.mappings[m].(lifecycle := Deleting, enabled := false)]);
      tx := tx.(domains := map d | d in tx.domains ::
        if tx.domains[d].mapping == m && tx.domains[d].status != DeletedDomain
        then tx.domains[d].(status := DeletingDomain) else tx.domains[d]);
      if who.user !in tx.users { return Err(StorageError); }
      tx := tx.(users := BumpDesired(tx.users, who.user));
      r := Ok(OperationReply(tx.nextId + 1));
      tx := tx.(nextId := tx.nextId + 2);
      db := tx.(records := tx.records[k := Record(ForceBody(force), r.value)]);
    }

    // ---------- configuration ----------

    /** The transaction of an apply result: set-wise statements, each over all the rows
        it concerns. */
    method Apply(who: AuthContext, req: ApplyRequest) returns (r: Result<()>)
      requires Valid()
      modifies this
      ensures (db, r) == ApplyResult(old(db), who, req)
      ensures Valid()
    {
      ApplyResultKeepsInv(db, who, req);
      var tx := db;
      var refusal := ApplyRefusal(tx, who.user, req);
      if refusal.Some? { return Err(refusal.value); }
      if req.status == ApplySucceeded {
        SuccessRefinesValid(tx, who.user, req.version);
        tx := tx.(revisions := SupersedeReplaced(tx.mappings, tx.revisions, who.user));
        tx := tx.(revisions := ActivatePending(tx.mappings, tx.revisions, who.user));
        tx := tx.(mappings := PromoteMappings(tx.mappings, who.user));
        tx := tx.(leases := DropStaleLeases(tx.mappings, tx.revisions, tx.leases, who.user));
        tx := tx.(leases := RepointLeases(tx.mappings, tx.leases, who.user));
        tx := tx.(users := MarkApplied(tx.users, who.user, req.version));
      } else {
        FailureRefines(tx, who.user, req.version);
        tx := tx.(revisions := FailRevisions(tx.mappings, tx.revisions, who.user));
        tx := tx.(mappings := DemoteMappings(tx.mappings, who.user));
        tx := tx.(leases := DropPendingLeases(tx.mappings, tx.leases, who.user));
        tx := tx.(users := MarkFailed(tx.users, who.user, req.version));
      }
      db := tx;
      return Ok(());
    }

    /** The hostnames of each mapping that are not being removed. */
    method HostsByMapping(page: seq<Id>) returns (hosts: map<Id, seq<string>>)
      requires forall d :: d in page ==> d in db.domains
      ensures forall m :: HostsIn(hosts, m) == HostsOf(db.domains, page, m)
    {
      hosts := map[];
      var i := 0;
      while i < |page|
        invariant 0 <= i <= |page|
        invariant forall m :: HostsIn(hosts, m) == HostsOf(db.domains, page[..i], m)
      {
        var domain := db.domains[page[i]];
        HostsSnoc(db.domains, page[..i], page[i]);
        assert page[..i] + [page[i]] == page[..i + 1];
        if domain.status != DeletingDomain {
          hosts := hosts[domain.mapping := HostsIn(hosts, domain.mapping) + [domain.hostname]];
        }
        i := i + 1;
      }
      assert page[..i] == page;
    }

    /** The entries of the configuration; `rows` and `domainRows` are the two listings. */
    method FullConfig(user: Id, rows: seq<Id>, domainRows: seq<Id>) returns (entries: seq<Entry>)
      requires forall m :: m in rows ==> m in db.mappings
      requires forall d :: d in domainRows ==> d in db.domains
      ensures entries == Entries(db, Page(rows), Page(domainRows))
    {
      var page, domainPage := Page(rows), Page(domainRows);
      var hosts := HostsByMapping(domainPage);
      entries := [];
      var i := 0;
      while i < |page|
        invariant 0 <= i <= |page| && entries == Entries(db, page[..i], domainPage)
      {
        var m := page[i];
        EntriesSnoc(db, page[..i], m, domainPage);
        assert page[..i] + [m] == page[..i + 1];
        if db.mappings[m].lifecycle != Deleting && db.mappings[m].enabled {
          entries := entries + [EntryOf(db, m, HostsIn(hosts, m))];
        }
        i := i + 1;
      }
      assert page[..i] == page;
    }

    // ---------- domain bindings ----------

    method BindDomain(who: AuthContext, req: DomainRequest, otherQuota: bool, key: Option<string>)
      returns (r: Result<Reply>)
      requires Valid()
      modifies this
      ensures (db, r) == CreateDomain(old(db), who, req, otherQuota, key)
      ensures Valid()
    {
      CreateDomainKeepsInv(db, who, req, otherQuota, key);
      if !req.textValid { return Err(InvalidRequest); }
      var tx := db;
      var k := RecordKey(who.user, who.generation, CreateDomainAt, KeyOf(key, tx.nextId));
      if k in tx.records { return Replay(tx.records[k], DomainBody(req)); }
      var refusal := CreateDomainRefusal(tx, who.user, req, otherQuota);
      if refusal.Some? { return Err(refusal.value); }
      var d, row := tx.nextId + 1, tx.nextId + 2;
      tx := tx.(nextId := tx.nextId + 4);
      tx := tx.(domains := tx.domains[d := Domain(who.user, req.mapping, req.hostname, req.mode, PendingDns)]);
      tx := tx.(dns := tx.dns[row := DnsRow(who.user, Some(d), ExternalRef("", ""), req.spec, false, false, 0)]);
      tx := tx.(users := BumpDesired(tx.users, who.user));
      db := tx.(records := tx.records[k := Record(DomainBody(req), DomainReply(d))]);
      return Ok(DomainReply(d));
    }

    method UnbindDomain(who: AuthContext, d: Id, key: Option<string>) returns (r: Result<Reply>)
      requires Valid()
      modifies this
      ensures (db, r) == DeleteDomain(old(db), who, d, key)
      ensures Valid()
    {
      DeleteDomainKeepsInv(db, who, d, key);
      var tx := db;
      var k := RecordKey(who.user, who.generation, DeleteDomainAt(d), KeyOf(key, tx.nextId));
      if k in tx.records { return Replay(tx.records[k], EmptyBody); }
      if d !in tx.domains || tx.domains[d].owner != who.user || tx.domains[d].status == DeletedDomain {
        return Err(NotFound);
      }
      tx := tx.(domains := tx.domains[d := tx.domains[d].(status := DeletingDomain)]);
      if who.user !in tx.users { return Err(StorageError); }
      tx := tx.(users := BumpDesired(tx.users, who.user));
      r := Ok(OperationReply(tx.nextId + 1));
      tx := tx.(nextId := tx.nextId + 2);
      db := tx.(records := tx.records[k := Record(EmptyBody, r.value)]);
    }

    /** The first listed record that says what is wanted. */
    method SelectRecord(records: seq<Listed>, want: Listed, withTtl: bool) returns (found: Option<Listed>)
      ensures found == FirstMatch(records, want, withTtl)
    {
      var i := 0;
      while i < |records|
        invariant 0 <= i <= |records|
        invariant FirstMatch(records, want, withTtl) == FirstMatch(records[i..], want, withTtl)
      {
        FirstMatchFrom(records, want, withTtl, i);
        if Matches(records[i], want, withTtl) { return Some(records[i]); }
        i := i + 1;
      }
      return None;
    }

    /** Which record the domain gets, and whether it counts as the panel's own. */
    method ChooseRecord(zone: string, records: seq<Listed>, want: Listed, action: SyncAction, answer: Told<Listed>)
      returns (decision: Decision)
      ensures decision == Choose(zone, records, want, action, answer)
    {
      var managed, adopted := false, false;
      var selected := Listed("", "", "", false, 0);
      var found := SelectRecord(records, want, action == Resync);
      if found.Some? { selected, adopted := found.value, true; }
      if selected.id == "" && |records| > 0 && action != Adopt && action != Overwrite && action != Resync
          && action != CancelSync {
        return Unresolved;
      }
      if selected.id == "" && action == Adopt {
        if |records| == 0 { return Crashed; }
        selected, adopted := records[0], true;
      }
      if selected.id == "" || ((action == Overwrite || action == Resync) && Differs(selected, want)) {
        if answer.Denied? { return Unresolved; }
        if answer.Unavailable? { return Aborted; }
        selected, managed := answer.value, true;
      } else if action == Resync {
        managed, adopted := true, false;
      }
      if selected.id == "" { return Aborted; }
      return Save(zone, selected, managed, adopted);
    }

    method DecideDns(d: Id, fallback: DnsSpec, action: SyncAction, answers: Answers) returns (decision: Decision)
      requires Valid() && d in db.domains
      ensures decision == SyncDecision(db, d, fallback, action, answers)
    {
      if action == CancelSync { return Cancelled; }
      if answers.token == TokenMissing { return Unresolved; }
      if answers.token == TokenUnreadable { return Aborted; }
      if answers.zone.Denied? { return Unresolved; }
      if answers.zone.Unavailable? { return Aborted; }
      if answers.zone.value.None? { return Unresolved; }
      if answers.records.Denied? { return Unresolved; }
      if answers.records.Unavailable? { return Aborted; }
      var want := Listed("", fallback.kind, fallback.content, db.domains[d].mode == CloudflareProxy, fallback.ttl);
      var managed := false;
      OnlyRow(db, d);
      if r :| r in db.dns && db.dns[r].domain == Some(d) {
        var spec := db.dns[r].spec;
        want := want.(kind := spec.kind, content := spec.content, ttl := spec.ttl);
        managed := db.dns[r].managed;
      }
      if action == Resync && !managed { return Unresolved; }
      decision := ChooseRecord(answers.zone.value.value, answers.records.value, want, action, answers.upserted);
    }

    /** Separate statements, not a transaction. */
    method SyncDomainDns(d: Id, fallback: DnsSpec, action: SyncAction, answers: Answers, reach: nat, now: int)
      requires Valid()
      modifies this
      ensures db == SyncDns(old(db), d, fallback, action, answers, reach, now)
      ensures Valid()
    {
      SyncDnsKeepsInv(db, d, fallback, action, answers, reach, now);
      if d !in db.domains || db.domains[d].status == DeletedDomain || db.domains[d].status == DeletingDomain { return; }
      var decision := DecideDns(d, fallback, action, answers);
      match decision {
        case Cancelled => db := SetDomainStatus(db, d, PendingDns);
        case Unresolved => db := SetDomainStatus(db, d, DnsError);
        case Aborted => return;
        case Crashed => return;
        case Save(zone, record, managed, adopted) => StoreRecord(d, decision, reach, now);
      }
    }

    method StoreRecord(d: Id, save: Decision, reach: nat, now: int)
      requires d in db.domains && save.Save?
      modifies this
      ensures db == SaveDns(old(db), d, save, reach, now)
    {
      var domain := db.domains[d];
      if reach == 0 { return; }
      db := ClearDns(db, d);
      if reach == 1 { return; }
      var spec := DnsSpec(save.record.kind, save.record.content, save.record.ttl);
      var row := DnsRow(domain.owner, Some(d), ExternalRef(save.zone, save.record.id), spec, save.managed,
                        save.adopted, now);
      assert row == SavedRow(domain, d, save, now);
      db := AddDnsRow(db, row);
      if reach == 2 { return; }
      var status := if domain.mode == HttpOnly then PendingRouter else PendingCertificate;
      db := db.(domains := db.domains[d := domain.(status := status)]);
    }

    // ---------- users and sessions ----------

    method AddUser(who: AuthContext, username: string, password: string, stored: bool) returns (r: Result<()>)
      requires Valid()
      modifies this
      ensures (db, r) == CreateUser(old(db), who, username, password, stored)
      ensures Valid()
    {
      CreateUserKeepsInv(db, who, username, password, stored);
      if !who.admin { return Err(Forbidden); }
      var user, secret := db.nextId, db.nextId + 1;
      if exists u | u in db.users :: db.users[u].username == username { return Err(StorageError); }
      db := db.(nextId := db.nextId + 2);
      db := db.(users := db.users[user := NewUser(username, password)]);
      if !stored { return Err(StorageError); }
      db := db.(credentials := db.credentials[user := FrpCredential(secret, 1)]);
      return Ok(());
    }

    method IssueSession(user: Id, channel: Channel, now: int) returns (grant: Grant)
      requires user in db.users
      modifies this
      ensures db == LoggedIn(old(db), cfg, user, channel, now)
      ensures grant == Grant(old(db).nextId + 1, old(db).nextId,
                             if channel == ClientPanel then Some(old(db).nextId + 2) else None)
    {
      var tx := db;
      var generation := tx.users[user].generation;
      if channel == ClientPanel {
        tx := tx.(sessions := RevokeSessions(tx.sessions, user, true));
        generation := generation + 1;
        tx := tx.(users := tx.users[user := tx.users[user].(generation := generation)]);
      } else {
        UnchangedUser(tx.users, user);
      }
      var token, session, runtimeToken, runtime := tx.nextId, tx.nextId + 1, tx.nextId + 2, tx.nextId + 3;
      tx := tx.(nextId := tx.nextId + 4);
      var expires := now + cfg.sessionTtl;
      tx := tx.(sessions :=
        tx.sessions[session := Session(user, token, channel, generation, expires, now + IDLE_LIMIT, false)]);
      if channel == ClientPanel {
        tx := tx.(runtimes :=
          tx.runtimes[runtime := RuntimeCredential(user, session, generation, runtimeToken, expires, false)]);
      }
      db := tx;
      return Grant(session, token, if channel == ClientPanel then Some(runtimeToken) else None);
    }

    method LogIn(username: string, password: string, channel: Channel, now: int) returns (r: Result<Grant>)
      requires Valid()
      modifies this
      ensures (db, r) == Login(old(db), cfg, username, password, channel, now)
      ensures Valid()
    {
      LoginKeepsInv(db, cfg, username, password, channel, now);
      NamesAreDistinct(db);
      if username == "" || |password| < 12 { return Err(InvalidCredentials); }
      if user :| user in db.users && Named(db, username, user) {
        var refusal := LoginRefusal(db.users[user], password, channel, user in db.credentials);
        if refusal.Some? { return Err(refusal.value); }
        var grant := IssueSession(user, channel, now);
        return Ok(grant);
      }
      return Err(InvalidCredentials);
    }

    method AuthenticateToken(token: Id, now: int, touched: bool) returns (r: Result<Id>)
      requires Valid()
      modifies this
      ensures (db, r) == Authenticate(old(db), token, now, touched)
      ensures Valid()
    {
      AuthenticateKeepsInv(db, token, now, touched);
      TokensAreDistinct(db);
      if s :| s in db.sessions && HasToken(db, token, s) {
        var verdict := SessionVerdict(db, db.sessions[s], now);
        if verdict.Some? { return Err(verdict.value); }
        if touched { db := db.(sessions := db.sessions[s := db.sessions[s].(idle := now + IDLE_LIMIT)]); }
        return Ok(s);
      }
      return Err(SessionInvalid);
    }

    method SetStatus(who: AuthContext, user: Id, active: bool, ended: Ended) returns (r: Result<()>)
      requires Valid()
      modifies this
      ensures (db, r) == SetUserStatus(old(db), who, user, active, ended)
      ensures Valid()
    {
      SetUserStatusKeepsInv(db, who, user, active, ended);
      if !who.admin { return Err(Forbidden); }
      if user !in db.users || db.users[user].admin { return Err(NotFound); }
      var row := db.users[user];
      var status := if active then ActiveUser else DisabledUser;
      db := db.(users := db.users[user := row.(status := status, generation := row.generation + 1)]);
      if !active {
        if ended.sessions { db := db.(sessions := RevokeSessions(db.sessions, user, false)); }
        if ended.runtimes { db := db.(runtimes := RevokeRuntimes(db.runtimes, user)); }
      }
      return Ok(());
    }

    method ResetPassword(who: AuthContext, user: Id, password: string, ended: Ended) returns (r: Result<()>)
      requires Valid()
      modifies this
      ensures (db, r) == ResetUserPassword(old(db), who, user, password, ended)
      ensures Valid()
    {
      ResetUserPasswordKeepsInv(db, who, user, password, ended);
      if !who.admin { return Err(Forbidden); }
      if user !in db.users || db.users[user].admin { return Err(NotFound); }
      var row := db.users[user];
      db := db.(users := db.users[user := row.(password := password, generation := row.generation + 1)]);
      if ended.sessions { db := db.(sessions := RevokeSessions(db.sessions, user, false)); }
      if ended.runtimes { db := db.(runtimes := RevokeRuntimes(db.runtimes, user)); }
      return Ok(());
    }

    method LogOut(who: AuthContext, ended: Ended) returns (r: Result<()>)
      requires Valid()
      modifies this
      ensures db == Logout(old(db), who, ended) && (r.Ok? <==> ended.sessions)
      ensures Valid()
    {
      LogoutKeepsInv(db, who, ended);
      if !ended.sessions { return Err(StorageError); }
      if who.session in db.sessions {
        db := db.(sessions := db.sessions[who.session := db.sessions[who.session].(revoked := true)]);
      }
      if ended.runtimes {
        db := db.(runtimes := map r | r in db.runtimes ::
          if db.runtimes[r].session == who.session then db.runtimes[r].(revoked := true) else db.runtimes[r]);
      }
      assert db.sessions == Logout(old(db), who, ended).sessions;
      assert db.runtimes == Logout(old(db), who, ended).runtimes;
      return Ok(());
    }

    method ResetCredential(who: AuthContext, target: Option<Id>, proof: string, proven: bool, key: Option<string>)
      returns (r: Result<Reply>)
      requires Valid()
      modifies this
      ensures (db, r) == ResetFRPCredential(old(db), who, target, proof, proven, key)
      ensures Valid()
    {
      ResetFRPCredentialKeepsInv(db, who, target, proof, proven, key);
      var reset := ResetTarget(who, target);
      if reset.None? { return Err(Forbidden); }
      if proof == "" || !proven { return Err(InvalidCredentials); }
      var tx, user := db, reset.value;
      var k := RecordKey(who.user, who.generation, ResetEndpoint(who, user), KeyOf(key, tx.nextId));
      if k in tx.records { return Replay(tx.records[k], ResetBody(user, proof)); }
      if user !in tx.users || user !in tx.credentials { return Err(NotFound); }
      if tx.users[user].admin || tx.users[user].status == DeletedUser { return Err(Forbidden); }
      var version := tx.credentials[user].version + 1;
      tx := tx.(credentials := tx.credentials[user := FrpCredential(tx.nextId + 1, version)], nextId := tx.nextId + 2);
      var row := tx.users[user];
      tx := tx.(users := tx.users[user := row.(generation := row.generation + 1, desired := row.desired + 1)]);
      tx := tx.(sessions := RevokeSessions(tx.sessions, user, false));
      tx := tx.(runtimes := RevokeRuntimes(tx.runtimes, user));
      if who.user !in tx.users { return Err(StorageError); }
      r := Ok(SecretReply(version, row.generation + 1));
      db := tx.(records := tx.records[k := Record(ResetBody(user, proof), r.value)]);
    }

    // ---------- deletion of a user ----------

    method RequestUserDeletion(who: AuthContext, user: Id, force: bool, key: Option<string>) returns (r: Result<Reply>)
      requires Valid()
      modifies this
      ensures (db, r) == DeleteUser(old(db), who, user, force, key)
      ensures Valid()
    {
      DeleteUserKeepsInv(db, who, user, force, key);
      if !who.admin { return Err(Forbidden); }
      var tx := db;
      var k := RecordKey(who.user, who.generation, DeleteUserAt(user), KeyOf(key, tx.nextId));
      if k in tx.records { return Replay(tx.records[k], ForceBody(force)); }
      if user !in tx.users || tx.users[user].admin || tx.users[user].status == DeletedUser { return Err(NotFound); }
      if tx.users[user].status == DeletingUser {
        if who.user !in tx.users { return Err(StorageError); }
        if user !in tx.deletions { return Err(NotFound); }
        var open := tx.deletions[user];
        tx := tx.(deletions := tx.deletions[user := open.(forced := open.forced || force)], nextId := tx.nextId + 1);
        r := Ok(OperationReply(open.operation));
        db := tx.(records := tx.records[k := Record(ForceBody(force), r.value)]);
        return;
      }
      var row := tx.users[user];
      tx := tx.(users := tx.users[user := row.(status := DeletingUser, generation := row.generation + 1,
                                               desired := row.desired + 1)]);
      tx := tx.(sessions := RevokeSessions(tx.sessions, user, false));
      tx := tx.(runtimes := RevokeRuntimes(tx.runtimes, user));
      tx := tx.(domains := map d | d in tx.domains ::
        if tx.domains[d].owner == user && tx.domains[d].status != DeletedDomain
        then tx.domains[d].(status := DeletingDomain) else tx.domains[d]);
      tx := tx.(mappings := map m | m in tx.mappings ::
        if tx.mappings[m].owner == user && tx.mappings[m].lifecycle != Deleted
        then tx.mappings[m].(lifecycle := Deleting, enabled := false) else tx.mappings[m]);
      var operation := tx.nextId + 1;
      tx := tx.(deletions := tx.deletions[user := Deletion(operation, force)], nextId := tx.nextId + 2);
      if who.user !in tx.users { return Err(StorageError); }
      r := Ok(OperationReply(operation));
      db := tx.(records := tx.records[k := Record(ForceBody(force), r.value)]);
    }

    method FinalizeDeletedMapping(m: Id)
      modifies this
      ensures db == FinalizeMapping(old(db), m)
      ensures old(Valid()) ==> Valid()
    {
      if Valid() { FinalizeMappingKeepsInv(db, m); }
      if m in db.mappings && db.mappings[m].lifecycle == Deleting && !BlockedByDomain(db, m) {
        db := DropMapping(db, m);
      }
    }

    /** Separate statements, not a transaction: the ones before a failure stay done. */
    method FinalizeDeletedDomain(d: Id, reach: nat) returns (failed: bool)
      modifies this
      ensures (db, failed) == FinalizeDomain(old(db), d, reach)
      ensures old(Valid()) ==> Valid()
    {
      if Valid() { FinalizeDomainKeepsInv(db, d, reach); }
      var bound := d in db.domains;
      var m := if bound then db.domains[d].mapping else 0;
      if reach == 0 { return true; }
      db := ClearDns(db, d);
      if reach == 1 { return true; }
      db := DropDomain(db, d);
      if reach == 2 { return true; }
      if bound { FinalizeDeletedMapping(m); }
      return false;
    }

    method DeleteDomainExternal(d: Id, outcome: ProviderOutcome, reach: nat) returns (failed: bool)
      requires Valid()
      modifies this
      ensures (db, failed) == CleanUpDomain(old(db), d, outcome, reach)
      ensures Valid()
    {
      CleanUpDomainKeepsInv(db, d, outcome, reach);
      OnlyRow(db, d);
      if r :| r in db.dns && db.dns[r].domain == Some(d) {
        var row := db.dns[r];
        if PanelManaged(row) {
          if outcome == NoToken || outcome == PermissionDenied { return false; }
          if outcome != ProviderRemoved { return true; }
          db := db.(removed := db.removed + {row.external});
        }
      }
      failed := FinalizeDeletedDomain(d, reach);
    }

    /** One turn of the job's loop over the user's domains. */
    method DeleteOneDomain(operation: Id, force: bool, plan: DomainPlan) returns (stopped: bool)
      requires Valid()
      modifies this
      ensures (db, stopped) == DeleteDomainOfUser(old(db), operation, force, plan)
      ensures Valid()
    {
      DeleteDomainOfUserKeepsInv(db, operation, force, plan);
      var failed := DeleteDomainExternal(plan.domain, plan.outcome, plan.reach);
      if !failed && plan.domain !in db.domains { return false; }
      if !force { return true; }
      var identifier := ResidueIdentifier(plan.domain);
      if !plan.residueStored { return true; }
      db := AddResidue(db, Residue(operation, plan.domain, identifier));
      stopped := FinalizeDeletedDomain(plan.domain, plan.forcedReach);
    }

    method ResidueIdentifier(d: Id) returns (name: Option<ExternalRef>)
      requires Valid()
      ensures name == ResidueName(db, d)
    {
      OnlyRow(db, d);
      if r :| r in db.dns && db.dns[r].domain == Some(d) {
        if db.dns[r].external.zone == "" && db.dns[r].external.record == "" { return None; }
        return Some(db.dns[r].external);
      }
      return None;
    }

    method DeleteDomains(operation: Id, force: bool, work: seq<DomainPlan>) returns (stopped: bool)
      requires Valid()
      modifies this
      ensures (db, stopped) == DeleteDomainsOfUser(old(db), operation, force, work)
      ensures Valid()
    {
      var i := 0;
      while i < |work|
        invariant 0 <= i <= |work| && Valid()
        invariant DeleteDomainsOfUser(db, operation, force, work[i..])
                  == DeleteDomainsOfUser(old(db), operation, force, work)
      {
        DomainsFrom(db, operation, force, work, i);
        stopped := DeleteOneDomain(operation, force, work[i]);
        if stopped { return; }
        i := i + 1;
      }
      return false;
    }

    /** The user's deleting mappings that have no domain left. */
    method ListDeletedMappings(user: Id) returns (order: seq<Id>)
      ensures ListsMappings(db, user, order)
    {
      var rest := set m | m in db.mappings && AwaitsDrop(db, user, m);
      ghost var all := rest;
      order := [];
      while rest != {}
        invariant rest <= all && (forall m :: m in order <==> m in all - rest)
        invariant forall i, j :: 0 <= i < j < |order| ==> order[i] != order[j]
      {
        var m :| m in rest;
        assert m !in order;
        order, rest := order + [m], rest - {m};
      }
    }

    /** Finalizes them one by one, up to the first that fails: `reach` of them are to
        succeed. */
    method FinalizeDeletedMappings(user: Id, reach: nat) returns (failed: bool, order: seq<Id>)
      modifies this
      ensures ListsMappings(old(db), user, order) && (failed <==> reach < |order|)
      ensures db == FinalizeMappings(old(db), if reach < |order| then order[..reach] else order)
      ensures old(Valid()) ==> Valid()
    {
      order := ListDeletedMappings(user);
      failed := FinalizeListed(order, reach);
    }

    method FinalizeListed(order: seq<Id>, reach: nat) returns (failed: bool)
      modifies this
      ensures failed <==> reach < |order|
      ensures db == FinalizeMappings(old(db), if reach < |order| then order[..reach] else order)
      ensures old(Valid()) ==> Valid()
    {
      var i := 0;
      while i < |order|
        invariant 0 <= i <= |order| && i <= reach
        invariant db == FinalizeMappings(old(db), order[..i]) && (old(Valid()) ==> Valid())
      {
        if i == reach { return true; }
        FinalizedUpTo(old(db), order, i);
        FinalizeDeletedMapping(order[i]);
        i := i + 1;
      }
      assert order[..i] == order;
      return false;
    }

    /** The job that deletes a user: `work` is the list of the user's deleting domains with
        what the environment does to each; `reach` and `committed` say where its end fails. */
    method DeleteUserJob(user: Id, operation: Id, force: bool, work: seq<DomainPlan>, reach: nat, committed: bool)
      returns (r: Result<()>)
      requires Valid() && ListsDomains(db, user, work)
      modifies this
      ensures exists order ::
        (db, r) == DeleteUserExternal(old(db), user, operation, force, work, Finale(order, reach, committed))
      ensures Valid()
    {
      ghost var t, none := db, Finale([], reach, committed);
      if user !in db.users || db.users[user].admin {
        assert (db, Ok(())) == DeleteUserExternal(t, user, operation, force, work, none);
        return Ok(());
      }
      if db.users[user].status != DeletingUser {
        assert (db, Err(CleanupFailed)) == DeleteUserExternal(t, user, operation, force, work, none);
        return Err(CleanupFailed);
      }
      var stopped := DeleteDomains(operation, force, work);
      if stopped {
        assert (db, Err(CleanupFailed)) == DeleteUserExternal(t, user, operation, force, work, none);
        return Err(CleanupFailed);
      }
      ghost var t1 := db;
      var failed;
      var order;
      failed, order := FinalizeDeletedMappings(user, reach);
      ghost var rest := Finale(order, reach, committed);
      DeleteUserFrom(t, user, operation, force, work, rest, t1, db);
      if failed { return Err(CleanupFailed); }
      if !OwnsNothing(db, user) { return Err(Waiting); }
      if !committed { return Err(StorageError); }
      RemoveUserKeepsInv(db, user);
      db := RemoveUser(db, user);
      return Ok(());
    }
  }

  /** The end of the job, after its loop and its second one. */
  lemma DeleteUserFrom(t: Tables, user: Id, operation: Id, force: bool, work: seq<DomainPlan>, rest: Finale,
                       t1: Tables, t2: Tables)
    requires user in t.users && !t.users[user].admin && t.users[user].status == DeletingUser
             && ListsDomains(t, user, work)
    requires DeleteDomainsOfUser(t, operation, force, work) == (t1, false) && ListsMappings(t1, user, rest.mappings)
    requires t2 == FinalizeMappings(t1, Reached(rest))
    ensures DeleteUserExternal(t, user, operation, force, work, rest)
            == if rest.finalized < |rest.mappings| then (t2, Err(CleanupFailed))
               else if !OwnsNothing(t2, user) then (t2, Err(Waiting))
               else if !rest.committed then (t2, Err(StorageError))
               else (RemoveUser(t2, user), Ok(()))
  {
  }

  lemma FirstMatchFrom(records: seq<Listed>, want: Listed, withTtl: bool, i: nat)
    requires i < |records|
    ensures FirstMatch(records[i..], want, withTtl)
            == if Matches(records[i], want, withTtl) then Some(records[i])
               else FirstMatch(records[i + 1..], want, withTtl)
  {
    assert records[i..][0] == records[i] && records[i..][1..] == records[i + 1..];
  }

  lemma DomainsFrom(t: Tables, operation: Id, force: bool, work: seq<DomainPlan>, i: nat)
    requires i < |work|
    ensures var (t', stopped) := DeleteDomainOfUser(t, operation, force, work[i]);
            DeleteDomainsOfUser(t, operation, force, work[i..])
            == if stopped then (t', true) else DeleteDomainsOfUser(t', operation, force, work[i + 1..])
  {
    assert work[i..][0] == work[i] && work[i..][1..] == work[i + 1..];
  }

  lemma {:induction false} FinalizeMappingsSnoc(t: Tables, work: seq<Id>, m: Id)
    ensures FinalizeMappings(t, work + [m]) == FinalizeMapping(FinalizeMappings(t, work), m)
    decreases |work|
  {
    if work == [] {
      assert work + [m] == [m] && [m][1..] == [];
    } else {
      assert (work + [m])[0] == work[0] && (work + [m])[1..] == work[1..] + [m];
      FinalizeMappingsSnoc(FinalizeMapping(t, work[0]), work[1..], m);
    }
  }

  lemma NamesAreDistinct(t: Tables)
    requires Inv(t)
    ensures UsernamesDistinct(t.users)
  {
    InvMeans(t);
  }

  lemma FinalizedUpTo(t: Tables, order: seq<Id>, i: nat)
    requires i < |order|
    ensures FinalizeMappings(t, order[..i + 1]) == FinalizeMapping(FinalizeMappings(t, order[..i]), order[i])
  {
    FinalizeMappingsSnoc(t, order[..i], order[i]);
    assert order[..i] + [order[i]] == order[..i + 1];
  }

  lemma TokensAreDistinct(t: Tables)
    requires Inv(t)
    ensures TokensDistinct(t)
  {
    InvMeans(t);
  }

  lemma SuccessRefinesValid(t: Tables, user: Id, version: int)
    requires Inv(t)
    ensures SuccessStatements(t, user, version) == Settled(t, user, version)
  {
    InvMeans(t);
    SuccessRefines(t, user, version);
  }

  /** What the statements of an update add up to. */
  lemma IsUpdated(t: Tables, m: Id, req: MappingRequest, port: Option<int>, k: RecordKey, rev: Revision,
                  leases: map<Id, Lease>, reply: Reply, t': Tables)
    requires m in t.mappings && rev == NewRevision(m, Largest(Numbers(t.revisions, m)) + 1, req, port)
    requires var kept := DropPendingLease(t.leases, t.mappings[m].pending);
             leases == if !NeedsLease(t, t.mappings[m], port) then kept
                       else kept[t.nextId + 2 := Lease(m, t.nextId + 1, port.value, PendingRole)]
    requires reply == MappingReply(View(m, UpdatedRow(t.mappings[m], req, t.nextId + 1).(observed := ObservedOffline),
                                        rev))
    requires var row := t.mappings[m];
             t' == t.(nextId := t.nextId + 4, users := BumpDesired(t.users, row.owner), leases := leases,
                      mappings := t.mappings[m := UpdatedRow(row, req, t.nextId + 1)],
                      revisions := SupersedePending(t.revisions, row.pending)[t.nextId + 1 := rev],
                      records := t.records[k := Record(MappingBody(req), reply)])
    ensures t' == Updated(t, m, req, port, k) && reply == UpdateReply(t, m, req, port)
  {
  }

  lemma NothingToDrop(leases: map<Id, Lease>)
    ensures DropPendingLease(leases, None) == leases
  {
  }

  lemma UnchangedUser(users: map<Id, User>, u: Id)
    requires u in users
    ensures users == users[u := users[u].(generation := users[u].generation)]
  {
  }

  /** The one DNS row of a domain is what the query for the latest finds. */
  lemma OnlyRow(t: Tables, d: Id)
    requires Inv(t)
    ensures forall r :: r in t.dns && t.dns[r].domain == Some(d) ==> LatestDns(t.dns, d) == Some(r)
    ensures LatestDns(t.dns, d).None? <==> forall r :: r in t.dns ==> t.dns[r].domain != Some(d)
  {
    InvMeans(t);
    OnlyRowIn(t.domains, t.dns, d);
  }

  lemma OnlyRowIn(domains: map<Id, Domain>, dns: map<Id, DnsRow>, d: Id)
    requires DnsRules(domains, dns)
    ensures forall r :: r in dns && dns[r].domain == Some(d) ==> LatestDns(dns, d) == Some(r)
    ensures LatestDns(dns, d).None? <==> forall r :: r in dns ==> dns[r].domain != Some(d)
  {
    forall r | r in dns && dns[r].domain == Some(d) ensures LatestDns(dns, d) == Some(r) {
      forall q | q in dns && dns[q].domain == Some(d) ensures q == r {}
      assert IsLatestDns(dns, d, r);
    }
  }

  function HostsIn(hosts: map<Id, seq<string>>, m: Id): seq<string> { if m in hosts then hosts[m] else [] }

  lemma HostsSnoc(domains: map<Id, Domain>, page: seq<Id>, d: Id)
    requires d in domains && forall x :: x in page ==> x in domains
    ensures forall m :: HostsOf(domains, page + [d], m) == HostsOf(domains, page, m) + Host(domains[d], m)
  {
    forall m ensures HostsOf(domains, page + [d], m) == HostsOf(domains, page, m) + Host(domains[d], m) {
      HostsSnocOne(domains, page, d, m);
    }
  }

  lemma {:induction false} HostsSnocOne(domains: map<Id, Domain>, page: seq<Id>, d: Id, m: Id)
    requires d in domains && forall x :: x in page ==> x in domains
    ensures HostsOf(domains, page + [d], m) == HostsOf(domains, page, m) + Host(domains[d], m)
  {
    if page == [] {
      assert page + [d] == [d] && [d][1..] == [];
    } else {
      assert (page + [d])[0] == page[0] && (page + [d])[1..] == page[1..] + [d];
      HostsSnocOne(domains, page[1..], d, m);
    }
  }

  lemma {:induction false} EntriesSnoc(t: Tables, page: seq<Id>, m: Id, domainPage: seq<Id>)
    requires m in t.mappings && forall x :: x in page ==> x in t.mappings
    requires forall d :: d in domainPage ==> d in t.domains
    ensures Entries(t, page + [m], domainPage)
            == Entries(t, page, domainPage)
               + (if Emitted(t.mappings[m]) then [EntryOf(t, m, HostsOf(t.domains, domainPage, m))] else [])
  {
    if page == [] {
      assert page + [m] == [m];
      assert [m][1..] == [];
    } else {
      assert (page + [m])[0] == page[0] && (page + [m])[1..] == page[1..] + [m];
      EntriesSnoc(t, page[1..], m, domainPage);
    }
  }
}
