/** What each operation on mappings answers and stores, read off the tables and the request
    alone: when it is accepted, which fields it sets, and what it leaves as it was. */
module MappingEffects {
  import opened Wrappers
  import opened Schema
  import opened Mappings

  // ---------- reading the tables ----------

  predicate TcpOrUdp(p: ProxyType) { p == Tcp || p == Udp }

  predicate WellFormed(req: MappingRequest) {
    && req.textValid && (TcpOrUdp(req.proxyType) || req.proxyType == Http) && 0 < req.localPort < 65536
    && (req.remotePort == None || 0 <= req.remotePort.value < 65536)
  }

  function Find(revisions: map<Id, Revision>, r: Option<Id>): Option<Revision> {
    if r.Some? && r.value in revisions then Some(revisions[r.value]) else None
  }

  /** The pending revision of a mapping, else its active one. */
  function Latest(t: Tables, m: Id): Option<Revision>
    requires m in t.mappings
  {
    var row := t.mappings[m];
    match row.pending
    case Some(_) => Find(t.revisions, row.pending)
    case None => Find(t.revisions, row.active)
  }

  function LatestNumberOf(t: Tables, m: Id): int
    requires m in t.mappings
  {
    var r := Latest(t, m);
    if r == None then 0 else r.value.number
  }

  /** What is asked for; a TCP or UDP proxy that asks for no port, or for 0, keeps the one of
      its latest revision. */
  function PortToUse(t: Tables, m: Id, req: MappingRequest): Option<int>
    requires m in t.mappings
  {
    if req.proxyType != Tcp && req.proxyType != Udp then req.remotePort
    else if req.remotePort.Some? && req.remotePort.value != 0 then req.remotePort
    else if Latest(t, m).Some? then Latest(t, m).value.port
    else None
  }

  function HeldMappings(t: Tables, u: Id): set<Id> {
    set m | m in t.mappings && t.mappings[m].owner == u && t.mappings[m].lifecycle != Deleted
  }

  predicate WaitsForApply(row: Mapping) { row.lifecycle in {Reserved, PendingApply} }

  function WaitingMappings(t: Tables, u: Id): set<Id> {
    set m | m in t.mappings && t.mappings[m].owner == u && WaitsForApply(t.mappings[m])
  }

  function UnsettledLeases(t: Tables, u: Id): set<Id> {
    set l | l in t.leases && t.leases[l].mapping in t.mappings && t.mappings[t.leases[l].mapping].owner == u
            && (t.leases[l].role == PendingRole || WaitsForApply(t.mappings[t.leases[l].mapping]))
  }

  lemma CountsAgree(t: Tables, u: Id)
    ensures OwnMappings(t, u) == HeldMappings(t, u) && AwaitingMappings(t, u) == WaitingMappings(t, u)
    ensures PendingPortLeases(t, u) == UnsettledLeases(t, u)
  {
  }

  lemma LatestAgrees(t: Tables, m: Id)
    requires m in t.mappings
    ensures CurrentRevision(t, t.mappings[m]) == Latest(t, m) && CurrentNumber(t, t.mappings[m]) == LatestNumberOf(t, m)
  {
  }

  predicate Taken(leases: map<Id, Lease>, port: int) { exists l :: l in leases && leases[l].port == port }

  predicate LowestFree(leases: map<Id, Lease>, start: int, end: int, port: int) {
    start <= port <= end && !Taken(leases, port) && forall p :: start <= p < port ==> Taken(leases, p)
  }

  function WriteKey(t: Tables, who: AuthContext, at: Endpoint, key: Option<string>): RecordKey {
    RecordKey(who.user, who.generation, at, if key.Some? then Given(key.value) else Minted(t.nextId))
  }

  function Counted(u: User): User { u.(desired := u.desired + 1) }

  // ---------- create ----------

  /** The port of a create: what it asks for; the lowest free one of the range for a TCP or
      UDP proxy that asks for none, or for 0. */
  ghost predicate PortOfCreate(t: Tables, cfg: Config, req: MappingRequest, port: Option<int>) {
    if TcpOrUdp(req.proxyType) && (req.remotePort == None || req.remotePort == Some(0)) then
      if port.Some? then LowestFree(t.leases, cfg.portStart, cfg.portEnd, port.value)
      else forall p :: cfg.portStart <= p <= cfg.portEnd ==> Taken(t.leases, p)
    else port == req.remotePort
  }

  /** The checks of a create, in their order. */
  function CreateChecks(t: Tables, cfg: Config, user: Id, req: MappingRequest, port: Option<int>): Option<Error> {
    if !(user in t.users && t.users[user].status == ActiveUser) then Some(Forbidden)
    else
      var u := t.users[user];
      if req.expectedVersion.Some? && req.expectedVersion.value != u.desired then Some(ConfigConflict)
      else if u.maxMappings <= |HeldMappings(t, user)| then Some(MappingQuota)
      else if u.maxPendingMappings <= |WaitingMappings(t, user)| then Some(PendingMappingQuota)
      else if TcpOrUdp(req.proxyType) && u.maxPendingPorts <= |UnsettledLeases(t, user)| then Some(PendingPortQuota)
      else if TcpOrUdp(req.proxyType) && port == None then Some(NoFreePort)
      else if TcpOrUdp(req.proxyType) && !(cfg.portStart <= port.value <= cfg.portEnd && port.value != cfg.bindPort)
      then Some(PortNotAllowed)
      else if port.Some? && !(0 < port.value < 65536) then Some(StorageError)
      else if port.Some? && Taken(t.leases, port.value) then Some(PortReserved)
      else None
  }

  lemma PortOfCreateIs(t: Tables, cfg: Config, req: MappingRequest, port: Option<int>)
    requires PortOfCreate(t, cfg, req, port)
    ensures ChosenPort(t, cfg, req) == port
  {
    var chosen := ChosenPort(t, cfg, req);
    if Ranged(req.proxyType) && (req.remotePort.None? || req.remotePort.value == 0) {
      assert forall p :: Leased(t.leases, p) <==> Taken(t.leases, p);
      if chosen.Some? && port.Some? { assert !(chosen.value < port.value) && !(port.value < chosen.value); }
    }
  }

  predicate CreatePasses(t: Tables, cfg: Config, who: AuthContext, req: MappingRequest, key: Option<string>,
                         port: Option<int>)
  {
    && WellFormed(req) && WriteKey(t, who, CreateMappingAt, key) !in t.records
    && CreateChecks(t, cfg, who.user, req, port) == None
  }

  /** A refused write, or one whose key is recorded, changes nothing; and this it answers. */
  function Refused(t: Tables, wellFormed: bool, k: RecordKey, body: Body, checks: Option<Error>)
    : (Tables, Result<Reply>)
  {
    (t, if !wellFormed then Err(InvalidRequest)
        else if k in t.records then
          (if t.records[k].body == body then Ok(t.records[k].reply) else Err(IdempotencyReuse))
        else if checks.Some? then Err(checks.value) else Err(StorageError))
  }

  lemma CreateRefusalIs(t: Tables, cfg: Config, user: Id, req: MappingRequest, port: Option<int>)
    requires ChosenPort(t, cfg, req) == port
    ensures CreateRefusal(t, cfg, user, req).Some? ==>
      CreateChecks(t, cfg, user, req, port) == CreateRefusal(t, cfg, user, req)
    ensures CreateRefusal(t, cfg, user, req).None? ==>
      user in t.users
      && CreateChecks(t, cfg, user, req, port)
         == if port.Some? && !(0 < port.value < 65536) then Some(StorageError)
            else if port.Some? && Taken(t.leases, port.value) then Some(PortReserved)
            else None
  {
    CountsAgree(t, user);
  }

  lemma CreateIs(t: Tables, cfg: Config, who: AuthContext, req: MappingRequest, key: Option<string>, port: Option<int>)
    requires ChosenPort(t, cfg, req) == port
    ensures var k, checks := WriteKey(t, who, CreateMappingAt, key), CreateChecks(t, cfg, who.user, req, port);
            CreateMapping(t, cfg, who, req, key)
            == if CreatePasses(t, cfg, who, req, key, port)
               then (Created(t, who.user, req, port, k), Ok(CreateReply(t, who.user, req, port)))
               else Refused(t, WellFormed(req), k, MappingBody(req), checks)
  {
    CreateRefusalIs(t, cfg, who.user, req, port);
    if port.Some? { assert Leased(t.leases, port.value) <==> Taken(t.leases, port.value); }
  }

  /** A create takes effect iff it passes; otherwise it answers why. */
  lemma CreateDecides(t: Tables, cfg: Config, who: AuthContext, req: MappingRequest, key: Option<string>,
                      port: Option<int>)
    requires PortOfCreate(t, cfg, req, port)
    ensures var (t', r) := CreateMapping(t, cfg, who, req, key);
            if CreatePasses(t, cfg, who, req, key, port) then r.Ok? && t'.nextId == t.nextId + 5
            else (t', r) == Refused(t, WellFormed(req), WriteKey(t, who, CreateMappingAt, key), MappingBody(req),
                                    CreateChecks(t, cfg, who.user, req, port))
  {
    PortOfCreateIs(t, cfg, req, port);
    CreateIs(t, cfg, who, req, key, port);
  }

  /** What an accepted create stores and answers. */
  lemma CreateStores(t: Tables, cfg: Config, who: AuthContext, req: MappingRequest, key: Option<string>,
                     port: Option<int>)
    requires PortOfCreate(t, cfg, req, port) && CreatePasses(t, cfg, who, req, key, port)
    ensures var (t', r) := CreateMapping(t, cfg, who, req, key);
            var m, rev, l := t.nextId + 1, t.nextId + 2, t.nextId + 3;
            && who.user in t.users && t'.users == t.users[who.user := Counted(t.users[who.user])]
            && t'.mappings == t.mappings[m := Mapping(who.user, req.name, req.proxyType, PendingApply, true,
                                                      ObservedOffline, None, Some(rev))]
            && t'.revisions == t.revisions[rev := Revision(m, 1, req.localIp, req.localPort, port, Pending)]
            && t'.leases == (if port == None then t.leases else t.leases[l := Lease(m, rev, port.value, ActiveRole)])
            && r == Ok(MappingReply(MappingView(m, who.user, req.name, req.proxyType, PendingApply, true,
                                                ObservedOffline,
                                                1, req.localIp, req.localPort, port)))
            && t'.records == t.records[WriteKey(t, who, CreateMappingAt, key) := Record(MappingBody(req), r.value)]
            && t'.nextId == t.nextId + 5
            && t' == t.(nextId := t'.nextId, users := t'.users, mappings := t'.mappings, revisions := t'.revisions,
                        leases := t'.leases, records := t'.records)
  {
    PortOfCreateIs(t, cfg, req, port);
    CreateIs(t, cfg, who, req, key, port);
  }

  // ---------- update ----------

  predicate OwnPending(t: Tables, m: Id, l: Lease)
    requires m in t.mappings
  {
    l.role == PendingRole && t.mappings[m].pending.Some? && l.revision == t.mappings[m].pending.value
  }

  predicate PortIsNew(t: Tables, m: Id, port: Option<int>)
    requires m in t.mappings
  {
    port.Some? && !(Latest(t, m).Some? && Latest(t, m).value.port == port)
  }

  /** Another lease than the mapping's own pending one holds the port. */
  predicate TakenByOther(t: Tables, m: Id, port: int)
    requires m in t.mappings
  {
    exists l :: l in t.leases && t.leases[l].port == port && !OwnPending(t, m, t.leases[l])
  }

  /** The checks of an update, in their order. */
  function UpdateChecks(t: Tables, cfg: Config, user: Id, m: Id, req: MappingRequest): Option<Error> {
    if !(m in t.mappings && t.mappings[m].owner == user && t.mappings[m].lifecycle != Deleted) then Some(NotFound)
    else if user !in t.users then Some(StorageError)
    else
      var u, port := t.users[user], PortToUse(t, m, req);
      if req.expectedVersion.Some? && req.expectedVersion.value != u.desired then Some(ConfigConflict)
      else if req.expectedRevision.Some? && req.expectedRevision.value != LatestNumberOf(t, m)
      then Some(RevisionConflict)
      else if !WaitsForApply(t.mappings[m]) && u.maxPendingMappings <= |WaitingMappings(t, user)|
      then Some(PendingMappingQuota)
      else if TcpOrUdp(req.proxyType) && !(port.Some? && cfg.portStart <= port.value <= cfg.portEnd)
      then Some(PortNotAllowed)
      else if PortIsNew(t, m, port) && u.maxPendingPorts <= |UnsettledLeases(t, user)| then Some(PendingPortQuota)
      else if port.Some? && !(0 < port.value < 65536) then Some(StorageError)
      else if PortIsNew(t, m, port) && TakenByOther(t, m, port.value) then Some(PortReserved)
      else None
  }

  lemma PortToUseIs(t: Tables, m: Id, req: MappingRequest)
    requires m in t.mappings
    ensures RequestedPort(t, t.mappings[m], req) == PortToUse(t, m, req)
    ensures NeedsLease(t, t.mappings[m], PortToUse(t, m, req)) <==> PortIsNew(t, m, PortToUse(t, m, req))
  {
    LatestAgrees(t, m);
  }

  lemma OtherHolds(t: Tables, m: Id, port: int)
    requires m in t.mappings
    ensures Leased(DropPendingLease(t.leases, t.mappings[m].pending), port) <==> TakenByOther(t, m, port)
  {
    var kept := DropPendingLease(t.leases, t.mappings[m].pending);
    assert forall l :: l in kept <==> l in t.leases && !OwnPending(t, m, t.leases[l]);
    if l :| l in t.leases && t.leases[l].port == port && !OwnPending(t, m, t.leases[l]) { assert l in kept; }
  }

  lemma RefusalIs(t: Tables, cfg: Config, user: Id, m: Id, req: MappingRequest)
    ensures UpdateRefusal(t, cfg, user, m, req).Some? ==>
      UpdateChecks(t, cfg, user, m, req) == UpdateRefusal(t, cfg, user, m, req)
    ensures UpdateRefusal(t, cfg, user, m, req).None? ==>
      && m in t.mappings && t.mappings[m].owner == user && t.mappings[m].lifecycle != Deleted && user in t.users
      && UpdateChecks(t, cfg, user, m, req)
         == var port := PortToUse(t, m, req);
            if port.Some? && !(0 < port.value < 65536) then Some(StorageError)
            else if PortIsNew(t, m, port) && TakenByOther(t, m, port.value) then Some(PortReserved)
            else None
  {
    CountsAgree(t, user);
    if m in t.mappings {
      PortToUseIs(t, m, req);
      LatestAgrees(t, m);
    }
  }

  predicate UpdatePasses(t: Tables, cfg: Config, who: AuthContext, m: Id, req: MappingRequest, key: Option<string>) {
    && WellFormed(req) && WriteKey(t, who, UpdateMappingAt(m), key) !in t.records
    && UpdateChecks(t, cfg, who.user, m, req) == None
  }

  lemma UpdateIs(t: Tables, cfg: Config, who: AuthContext, m: Id, req: MappingRequest, key: Option<string>)
    ensures UpdatePasses(t, cfg, who, m, req, key) ==>
      m in t.mappings && t.mappings[m].owner == who.user && who.user in t.users
    ensures var k := WriteKey(t, who, UpdateMappingAt(m), key);
            UpdateMapping(t, cfg, who, m, req, key)
            == if UpdatePasses(t, cfg, who, m, req, key)
               then (Updated(t, m, req, PortToUse(t, m, req), k), Ok(UpdateReply(t, m, req, PortToUse(t, m, req))))
               else Refused(t, WellFormed(req), k, MappingBody(req), UpdateChecks(t, cfg, who.user, m, req))
  {
    RefusalIs(t, cfg, who.user, m, req);
    if m in t.mappings {
      PortToUseIs(t, m, req);
      if PortToUse(t, m, req).Some? { OtherHolds(t, m, PortToUse(t, m, req).value); }
    }
  }

  /** An update takes effect iff it passes; otherwise it answers why. */
  lemma UpdateDecides(t: Tables, cfg: Config, who: AuthContext, m: Id, req: MappingRequest, key: Option<string>)
    ensures var (t', r) := UpdateMapping(t, cfg, who, m, req, key);
            if UpdatePasses(t, cfg, who, m, req, key) then r.Ok? && t'.nextId == t.nextId + 4
            else (t', r) == Refused(t, WellFormed(req), WriteKey(t, who, UpdateMappingAt(m), key), MappingBody(req),
                                    UpdateChecks(t, cfg, who.user, m, req))
  {
    UpdateIs(t, cfg, who, m, req, key);
  }

  /** The number after the largest that the mapping's revisions have. */
  ghost predicate NextAfter(revisions: map<Id, Revision>, m: Id, n: int) {
    && (forall r :: r in revisions && revisions[r].mapping == m ==> revisions[r].number < n)
    && (n == 1 || exists r :: r in revisions && revisions[r].mapping == m && revisions[r].number == n - 1)
  }

  lemma NextNumberIs(revisions: map<Id, Revision>, m: Id)
    requires forall r :: r in revisions && revisions[r].mapping == m ==> revisions[r].number >= 1
    ensures NextAfter(revisions, m, NextNumber(revisions, m))
  {
    var numbers := Numbers(revisions, m);
    assert forall r :: r in revisions && revisions[r].mapping == m ==> revisions[r].number in numbers;
  }

  /** What an accepted update stores and answers: the row keeps what the request does not
      name, and its wish, observation and active revision. */
  lemma UpdateStores(t: Tables, cfg: Config, who: AuthContext, m: Id, req: MappingRequest, key: Option<string>, n: int)
    requires UpdatePasses(t, cfg, who, m, req, key)
    requires forall r :: r in t.revisions && t.revisions[r].mapping == m ==> t.revisions[r].number >= 1
    requires NextAfter(t.revisions, m, n)
    ensures var (t', r) := UpdateMapping(t, cfg, who, m, req, key);
            && m in t.mappings && who.user in t.users
            && (var row, rev, port := t.mappings[m], t.nextId + 1, PortToUse(t, m, req);
                && t'.users == t.users[who.user := Counted(t.users[who.user])]
                && t'.mappings == t.mappings[m := Mapping(row.owner, req.name, req.proxyType, PendingApply, row.enabled,
                                                          row.observed, row.active, Some(rev))]
                && rev in t'.revisions
                && t'.revisions[rev] == Revision(m, n, req.localIp, req.localPort, port, Pending)
                && r == Ok(MappingReply(MappingView(m, row.owner, req.name, req.proxyType, PendingApply, row.enabled,
                                                    ObservedOffline, n, req.localIp, req.localPort, port)))
                && t'.records == t.records[WriteKey(t, who, UpdateMappingAt(m), key) :=
                                             Record(MappingBody(req), r.value)]
                && t'.nextId == t.nextId + 4
                && t' == t.(nextId := t'.nextId, users := t'.users, mappings := t'.mappings, revisions := t'.revisions,
                            leases := t'.leases, records := t'.records))
  {
    UpdateIs(t, cfg, who, m, req, key);
    NextNumberIs(t.revisions, m);
  }

  /** What becomes of the other revisions and of the leases: the pending revision is
      superseded, its pending lease goes, and a new port gets a pending one. */
  lemma UpdateReplaces(t: Tables, cfg: Config, who: AuthContext, m: Id, req: MappingRequest, key: Option<string>)
    requires UpdatePasses(t, cfg, who, m, req, key) && t.nextId + 1 !in t.revisions && t.nextId + 2 !in t.leases
    ensures var t' := UpdateMapping(t, cfg, who, m, req, key).0;
            && m in t.mappings
            && (var rev, l, port := t.nextId + 1, t.nextId + 2, PortToUse(t, m, req);
                && t'.revisions.Keys == t.revisions.Keys + {rev}
                && (forall q :: q in t.revisions ==>
                      t'.revisions[q]
                      == if t.mappings[m].pending == Some(q) && t.revisions[q].status in {Pending, Applying}
                         then t.revisions[q].(status := Superseded) else t.revisions[q])
                && (forall q :: q in t.leases ==>
                      && (q in t'.leases <==> !OwnPending(t, m, t.leases[q]))
                      && (q in t'.leases ==> t'.leases[q] == t.leases[q]))
                && (forall q :: q in t'.leases && q !in t.leases ==> q == l)
                && (l in t'.leases <==> PortIsNew(t, m, port))
                && (l in t'.leases ==> t'.leases[l] == Lease(m, rev, port.value, PendingRole)))
  {
    UpdateIs(t, cfg, who, m, req, key);
    PortToUseIs(t, m, req);
  }

  /** An accepted update of a TCP or UDP mapping without a port, or with port 0, keeps the
      port of the revision that was current before. */
  lemma UpdateKeepsPort(t: Tables, cfg: Config, who: AuthContext, m: Id, req: MappingRequest, key: Option<string>,
                        c: Id)
    requires UpdatePasses(t, cfg, who, m, req, key) && m in t.mappings && c in t.revisions
    requires t.mappings[m].pending == Some(c) || (t.mappings[m].pending == None && t.mappings[m].active == Some(c))
    requires (req.proxyType == Tcp || req.proxyType == Udp) && (req.remotePort == None || req.remotePort == Some(0))
    ensures var t' := UpdateMapping(t, cfg, who, m, req, key).0;
            t.nextId + 1 in t'.revisions && t'.revisions[t.nextId + 1].port == t.revisions[c].port
  {
    UpdateIs(t, cfg, who, m, req, key);
  }

  // ---------- toggle and delete ----------

  predicate TogglePasses(t: Tables, who: AuthContext, m: Id, expectedVersion: Option<int>,
                         expectedRevision: Option<int>,
                         key: Option<string>)
  {
    WriteKey(t, who, ToggleMappingAt(m), key) !in t.records
    && ToggleChecks(t, who.user, m, expectedVersion, expectedRevision) == None
  }

  function ToggleChecks(t: Tables, user: Id, m: Id, expectedVersion: Option<int>, expectedRevision: Option<int>)
    : Option<Error>
  {
    if !(m in t.mappings && t.mappings[m].owner == user && t.mappings[m].lifecycle != Deleted) then Some(NotFound)
    else if user !in t.users then Some(NotFound)
    else if expectedVersion.Some? && expectedVersion.value != t.users[user].desired then Some(ConfigConflict)
    else if expectedRevision.Some? && expectedRevision.value != LatestNumberOf(t, m) then Some(RevisionConflict)
    else None
  }

  lemma ToggleRefuses(t: Tables, who: AuthContext, m: Id, enabled: bool, expectedVersion: Option<int>,
                      expectedRevision: Option<int>, key: Option<string>)
    requires !TogglePasses(t, who, m, expectedVersion, expectedRevision, key)
    ensures ToggleMapping(t, who, m, enabled, expectedVersion, expectedRevision, key)
            == Refused(t, true, WriteKey(t, who, ToggleMappingAt(m), key),
                       ToggleBody(enabled, expectedVersion, expectedRevision),
                       ToggleChecks(t, who.user, m, expectedVersion, expectedRevision))
  {
    if m in t.mappings { LatestAgrees(t, m); }
  }

  lemma ToggleStores(t: Tables, who: AuthContext, m: Id, enabled: bool, expectedVersion: Option<int>,
                     expectedRevision: Option<int>, key: Option<string>)
    requires TogglePasses(t, who, m, expectedVersion, expectedRevision, key)
    ensures var (t', r) := ToggleMapping(t, who, m, enabled, expectedVersion, expectedRevision, key);
            var k := WriteKey(t, who, ToggleMappingAt(m), key);
            var body := ToggleBody(enabled, expectedVersion, expectedRevision);
            && m in t.mappings && who.user in t.users && r == Ok(Acknowledged)
            && (var row := t.mappings[m];
                t'.mappings == t.mappings[m := Mapping(row.owner, row.name, row.proxyType,
                                                       if enabled then PendingApply else Disabled, enabled,
                                                       row.observed, row.active, row.pending)])
            && t' == t.(nextId := t.nextId + 1, users := t.users[who.user := Counted(t.users[who.user])],
                        mappings := t'.mappings, records := t.records[k := Record(body, Acknowledged)])
  {
    LatestAgrees(t, m);
  }

  /** A toggle takes effect iff it passes: the mapping waits for an apply, or is disabled. */
  lemma ToggleDecides(t: Tables, who: AuthContext, m: Id, enabled: bool, expectedVersion: Option<int>,
                      expectedRevision: Option<int>, key: Option<string>)
    ensures var (t', r) := ToggleMapping(t, who, m, enabled, expectedVersion, expectedRevision, key);
            if TogglePasses(t, who, m, expectedVersion, expectedRevision, key) then
              && r == Ok(Acknowledged) && m in t'.mappings && t'.mappings[m].enabled == enabled
              && t'.mappings[m].lifecycle == (if enabled then PendingApply else Disabled)
            else t' == t
  {
    if TogglePasses(t, who, m, expectedVersion, expectedRevision, key) {
      ToggleStores(t, who, m, enabled, expectedVersion, expectedRevision, key);
    } else {
      ToggleRefuses(t, who, m, enabled, expectedVersion, expectedRevision, key);
    }
  }

  predicate Marked(d: Domain, d': Domain) { d'.status == DeletingDomain && d == d'.(status := d.status) }

  predicate DeletePasses(t: Tables, who: AuthContext, m: Id, key: Option<string>) {
    && WriteKey(t, who, DeleteMappingAt(m), key) !in t.records && DeleteChecks(t, who.user, m) == None
  }

  function DeleteChecks(t: Tables, user: Id, m: Id): Option<Error> {
    if m in t.mappings && t.mappings[m].owner == user && t.mappings[m].lifecycle != Deleted then
      (if user in t.users then None else Some(StorageError))
    else Some(NotFound)
  }

  /** A deletion takes effect iff it passes: the mapping and all domains bound to it are
      marked, the mapping is no longer wanted, and nothing is removed. */
  lemma DeleteDecides(t: Tables, who: AuthContext, m: Id, force: bool, key: Option<string>)
    ensures var (t', r) := DeleteMapping(t, who, m, force, key);
            var k := WriteKey(t, who, DeleteMappingAt(m), key);
            if DeletePasses(t, who, m, key) then
              && m in t.mappings && who.user in t.users && r == Ok(OperationReply(t.nextId + 1))
              && (var row := t.mappings[m];
                  t'.mappings == t.mappings[m := Mapping(row.owner, row.name, row.proxyType, Deleting, false,
                                                         row.observed, row.active, row.pending)])
              && t'.domains.Keys == t.domains.Keys
              && (forall d :: d in t.domains ==>
                    if t.domains[d].mapping == m && t.domains[d].status != DeletedDomain
                    then Marked(t.domains[d], t'.domains[d]) else t'.domains[d] == t.domains[d])
              && t' == t.(nextId := t.nextId + 2, users := t.users[who.user := Counted(t.users[who.user])],
                          mappings := t'.mappings, domains := t'.domains,
                          records := t.records[k := Record(ForceBody(force), r.value)])
            else (t', r) == Refused(t, true, k, ForceBody(force), DeleteChecks(t, who.user, m))
  {
  }

  // ---------- apply result ----------

  function ApplyChecks(t: Tables, user: Id, req: ApplyRequest): Option<Error> {
    if req.status != ApplySucceeded && req.status != ApplyFailed then Some(InvalidRequest)
    else if !(user in t.users && t.users[user].status == ActiveUser) then Some(NotFound)
    else if t.users[user].desired != req.version then Some(ConfigConflict)
    else if req.hash.Some?
            && ((user, req.version) !in t.snapshots || t.snapshots[(user, req.version)] != req.hash.value)
    then Some(ConfigConflict)
    else None
  }

  /** A report is believed iff it is about the current version of an active user, and, if it
      gives a hash, about the snapshot that was handed out; otherwise it changes nothing. */
  lemma ApplyDecides(t: Tables, who: AuthContext, req: ApplyRequest)
    ensures var (t', r) := ApplyResult(t, who, req);
            match ApplyChecks(t, who.user, req)
            case None => r == Ok(())
            case Some(e) => t' == t && r == Err(e)
  {
  }

  /** Mapping rows after the user's successful apply. */
  ghost predicate RunsNow(row: Mapping, row': Mapping) {
    && row'.owner == row.owner && row'.name == row.name && row'.proxyType == row.proxyType
    && row'.enabled == row.enabled
    && (row.lifecycle == Deleted ==> row' == row)
    && (row.lifecycle != Deleted ==>
          && row'.pending == None && row'.observed == ObservedRunning
          && row'.active == (if row.pending == None then row.active else row.pending)
          && (row.lifecycle == Deleting ==> row'.lifecycle == Deleting)
          && (row.lifecycle != Deleting && row.enabled ==> row'.lifecycle == Running)
          && (row.lifecycle != Deleting && !row.enabled ==> row'.lifecycle == Disabled))
  }

  /** And after a failed one. */
  ghost predicate FellBack(row: Mapping, row': Mapping) {
    && row'.owner == row.owner && row'.name == row.name && row'.proxyType == row.proxyType
    && row'.enabled == row.enabled
    && row'.active == row.active && row'.pending == None
    && (row.lifecycle in {Deleted, Disabled, Deleting} ==>
          row'.lifecycle == row.lifecycle && row'.observed == row.observed)
    && (row.lifecycle !in {Deleted, Disabled, Deleting} ==>
          row'.lifecycle == ConfigError && row'.observed == ObservedOffline)
  }

  predicate Of(t: Tables, m: Id, user: Id) { m in t.mappings && t.mappings[m].owner == user }

  /** An accepted success, row by row. */
  lemma SuccessStores(t: Tables, who: AuthContext, req: ApplyRequest)
    requires ApplyChecks(t, who.user, req) == None && req.status == ApplySucceeded
    ensures var t' := ApplyResult(t, who, req).0;
            && t'.mappings.Keys == t.mappings.Keys
            && (forall m :: m in t.mappings ==>
                  if t.mappings[m].owner == who.user then RunsNow(t.mappings[m], t'.mappings[m])
                  else t'.mappings[m] == t.mappings[m])
            && t' == t.(users := t.users[who.user := t.users[who.user].(applied := req.version, lastFailed := None)],
                        mappings := t'.mappings, revisions := t'.revisions, leases := t'.leases)
  {
  }

  lemma SuccessRevisions(t: Tables, who: AuthContext, req: ApplyRequest)
    requires ApplyChecks(t, who.user, req) == None && req.status == ApplySucceeded
    ensures var t' := ApplyResult(t, who, req).0;
            && t'.revisions.Keys == t.revisions.Keys
            && forall r :: r in t.revisions ==>
                 var rev, rev' := t.revisions[r], t'.revisions[r];
                 && rev' == rev.(status := rev'.status)
                 && (!Of(t, rev.mapping, who.user) ==> rev'.status == rev.status)
                 && (Of(t, rev.mapping, who.user) ==>
                       var row := t.mappings[rev.mapping];
                       && (row.pending == Some(r) ==> rev'.status == Active)
                       && (row.pending != Some(r) && row.pending != None && row.active == Some(r) ==>
                             rev'.status == Superseded)
                       && (row.pending != Some(r) && (row.pending == None || row.active != Some(r)) ==>
                             rev'.status == rev.status))
  {
  }

  /** The leases of the user's ports that are now active stay, as active leases of the active
      revisions; its other leases go. */
  lemma SuccessLeases(t: Tables, who: AuthContext, req: ApplyRequest)
    requires ApplyChecks(t, who.user, req) == None && req.status == ApplySucceeded
    ensures var t' := ApplyResult(t, who, req).0;
            && (forall l :: l in t'.leases ==> l in t.leases)
            && forall l :: l in t.leases ==>
                 var lease := t.leases[l];
                 if Of(t, lease.mapping, who.user) then
                   var now := Latest(t, lease.mapping);
                   && (l in t'.leases <==> now.Some? && now.value.port == Some(lease.port))
                   && (l in t'.leases ==>
                         && t'.leases[l].role == ActiveRole && t'.leases[l].port == lease.port
                         && t'.leases[l].mapping == lease.mapping
                         && Some(t'.leases[l].revision)
                            == if t.mappings[lease.mapping].pending == None then t.mappings[lease.mapping].active
                               else t.mappings[lease.mapping].pending)
                 else l in t'.leases && t'.leases[l] == lease
  {
  }

  /** An accepted failure, row by row. */
  lemma FailureStores(t: Tables, who: AuthContext, req: ApplyRequest)
    requires ApplyChecks(t, who.user, req) == None && req.status == ApplyFailed
    ensures var t' := ApplyResult(t, who, req).0;
            && t'.mappings.Keys == t.mappings.Keys
            && (forall m :: m in t.mappings ==>
                  if t.mappings[m].owner == who.user then FellBack(t.mappings[m], t'.mappings[m])
                  else t'.mappings[m] == t.mappings[m])
            && t' == t.(users := t.users[who.user := t.users[who.user].(lastFailed := Some(req.version))],
                        mappings := t'.mappings, revisions := t'.revisions, leases := t'.leases)
  {
  }

  lemma FailureRevisions(t: Tables, who: AuthContext, req: ApplyRequest)
    requires ApplyChecks(t, who.user, req) == None && req.status == ApplyFailed
    ensures var t' := ApplyResult(t, who, req).0;
            && t'.revisions.Keys == t.revisions.Keys
            && (forall r :: r in t.revisions ==>
                  var rev, rev' := t.revisions[r], t'.revisions[r];
                  && rev' == rev.(status := rev'.status)
                  && rev'.status == (if Of(t, rev.mapping, who.user) && rev.status in {Pending, Applying} then Failed
                                     else rev.status))
            && (forall l :: l in t'.leases <==>
                  l in t.leases && !(Of(t, t.leases[l].mapping, who.user) && t.leases[l].role == PendingRole))
            && (forall l :: l in t'.leases ==> t'.leases[l] == t.leases[l])
  {
  }

  // ---------- removal ----------

  predicate BoundTo(t: Tables, d: Id, m: Id) { d in t.domains && t.domains[d].mapping == m }

  /** A mapping is finalized iff it is being deleted and no domain is bound to it that is not
      deleted. */
  lemma FinalizeMappingDecides(t: Tables, m: Id)
    ensures FinalizeMapping(t, m)
            == if m in t.mappings && t.mappings[m].lifecycle == Deleting
                  && (forall d :: BoundTo(t, d, m) ==> t.domains[d].status == DeletedDomain)
               then DropMapping(t, m) else t
  {
    if d :| BoundTo(t, d, m) && t.domains[d].status != DeletedDomain { assert BlockedByDomain(t, m); }
  }

  /** Its revisions, leases and domains go with it, and their DNS rows lose their domain. */
  lemma DropMappingStores(t: Tables, m: Id)
    ensures var t' := DropMapping(t, m);
            && t'.mappings == t.mappings - {m}
            && (forall r :: r in t'.revisions <==> r in t.revisions && t.revisions[r].mapping != m)
            && (forall r :: r in t'.revisions ==> t'.revisions[r] == t.revisions[r])
            && (forall l :: l in t'.leases <==> l in t.leases && t.leases[l].mapping != m)
            && (forall l :: l in t'.leases ==> t'.leases[l] == t.leases[l])
            && (forall d :: d in t'.domains <==> d in t.domains && !BoundTo(t, d, m))
            && (forall d :: d in t'.domains ==> t'.domains[d] == t.domains[d])
            && t'.dns.Keys == t.dns.Keys
            && (forall r :: r in t.dns ==>
                  t'.dns[r] == if t.dns[r].domain.Some? && BoundTo(t, t.dns[r].domain.value, m)
                               then t.dns[r].(domain := None) else t.dns[r])
            && t' == t.(mappings := t'.mappings, revisions := t'.revisions, leases := t'.leases, domains := t'.domains,
                        dns := t'.dns)
  {
  }
}
