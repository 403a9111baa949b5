/** What each mapping operation of the service does to the tables
    (server/internal/service/service.go). Every operation is one transaction: a
    refusal returns the tables it was given. */
module Mappings {
  import opened Wrappers
  import opened Schema

  // ---------- queries ----------

  predicate Ranged(p: ProxyType) { p == Tcp || p == Udp }

  predicate ValidRequest(req: MappingRequest) {
    && req.textValid
    && req.proxyType != UnsupportedProxy
    && 1 <= req.localPort <= 65535
    && (req.remotePort.Some? ==> 0 <= req.remotePort.value <= 65535)
  }

  /** The pending revision if there is one, else the active one. */
  function CurrentId(m: Mapping): Option<Id> {
    if m.pending.Some? then m.pending else m.active
  }

  /** A mapping without a current revision is listed too. */
  function CurrentRevision(t: Tables, m: Mapping): Option<Revision> {
    var c := CurrentId(m);
    if c.Some? && c.value in t.revisions then Some(t.revisions[c.value]) else None
  }

  function CurrentNumber(t: Tables, m: Mapping): int {
    match CurrentRevision(t, m)
    case Some(r) => r.number
    case None => 0
  }

  function CurrentPort(t: Tables, m: Mapping): Option<int> {
    match CurrentRevision(t, m)
    case Some(r) => r.port
    case None => None
  }

  predicate OwnsMapping(t: Tables, user: Id, m: Id) {
    m in t.mappings && t.mappings[m].owner == user && t.mappings[m].lifecycle != Deleted
  }

  predicate AwaitsApply(m: Mapping) { m.lifecycle == Reserved || m.lifecycle == PendingApply }

  function OwnMappings(t: Tables, user: Id): set<Id> {
    set m | m in t.mappings && OwnsMapping(t, user, m)
  }

  function AwaitingMappings(t: Tables, user: Id): set<Id> {
    set m | m in t.mappings && t.mappings[m].owner == user && AwaitsApply(t.mappings[m])
  }

  function PendingPortLeases(t: Tables, user: Id): set<Id> {
    set l | l in t.leases && t.leases[l].mapping in t.mappings
            && t.mappings[t.leases[l].mapping].owner == user
            && (t.leases[l].role == PendingRole || AwaitsApply(t.mappings[t.leases[l].mapping]))
  }

  predicate Leased(leases: map<Id, Lease>, port: int) {
    exists l | l in leases :: leases[l].port == port
  }

  function FirstFree(leases: map<Id, Lease>, from: int, end: int): (port: Option<int>)
    ensures port.Some? ==> from <= port.value <= end && !Leased(leases, port.value)
    ensures forall p :: from <= p <= end && (port.Some? ==> p < port.value) ==> Leased(leases, p)
    decreases end - from
  {
    if from > end then None
    else if !Leased(leases, from) then Some(from)
    else FirstFree(leases, from + 1, end)
  }

  function Numbers(revisions: map<Id, Revision>, m: Id): set<int> {
    set r | r in revisions && revisions[r].mapping == m :: revisions[r].number
  }

  /** The maximum, or 0 of the empty set. */
  ghost function Largest(s: set<int>): (n: int)
    ensures forall x :: x in s ==> x <= n && n in s
    ensures n == 0 || n in s
  {
    if exists x :: x in s then
      var x :| x in s;
      var rest := Largest(s - {x});
      assert forall y :: y in s ==> y == x || y in s - {x};
      if rest in s - {x} && x < rest then rest else x
    else 0
  }

  /** The CHECK constraint on mapping_revisions.remote_port. */
  predicate Storable(port: Option<int>) { port.Some? ==> 1 <= port.value <= 65535 }

  function View(id: Id, m: Mapping, r: Revision): MappingView {
    MappingView(id, m.owner, m.name, m.proxyType, m.lifecycle, m.enabled, m.observed,
                r.number, r.localIp, r.localPort, r.port)
  }

  function BumpDesired(users: map<Id, User>, u: Id): map<Id, User> {
    if u in users then users[u := users[u].(desired := users[u].desired + 1)] else users
  }

  predicate VersionAgrees(expected: Option<int>, actual: int) {
    expected.Some? ==> expected.value == actual
  }

  // ---------- create ----------

  function ChosenPort(t: Tables, cfg: Config, req: MappingRequest): Option<int> {
    if Ranged(req.proxyType) && (req.remotePort.None? || req.remotePort.value == 0)
    then FirstFree(t.leases, cfg.portStart, cfg.portEnd)
    else req.remotePort
  }

  function CreateRefusal(t: Tables, cfg: Config, user: Id, req: MappingRequest): Option<Error> {
    if user !in t.users || t.users[user].status != ActiveUser then Some(Forbidden)
    else
      var u := t.users[user];
      if !VersionAgrees(req.expectedVersion, u.desired) then Some(ConfigConflict)
      else if |OwnMappings(t, user)| >= u.maxMappings then Some(MappingQuota)
      else if |AwaitingMappings(t, user)| >= u.maxPendingMappings then Some(PendingMappingQuota)
      else if !Ranged(req.proxyType) then None
      else if |PendingPortLeases(t, user)| >= u.maxPendingPorts then Some(PendingPortQuota)
      else
        match ChosenPort(t, cfg, req)
        case None => Some(NoFreePort)
        case Some(p) =>
          if p < cfg.portStart || p > cfg.portEnd || p == cfg.bindPort then Some(PortNotAllowed) else None
  }

  function NewMapping(user: Id, req: MappingRequest, revision: Id): Mapping {
    Mapping(user, req.name, req.proxyType, PendingApply, true, ObservedOffline, None, Some(revision))
  }

  function NewRevision(m: Id, number: int, req: MappingRequest, port: Option<int>): Revision {
    Revision(m, number, req.localIp, req.localPort, port, Pending)
  }

  /** Row ids in the order they are drawn: key, mapping, revision, lease, operation. */
  function Created(t: Tables, user: Id, req: MappingRequest, port: Option<int>, k: RecordKey): Tables {
    var m, r := t.nextId + 1, t.nextId + 2;
    var row, rev := NewMapping(user, req, r), NewRevision(m, 1, req, port);
    t.(nextId := t.nextId + 5,
       users := BumpDesired(t.users, user),
       mappings := t.mappings[m := row],
       revisions := t.revisions[r := rev],
       leases := if port.Some? then t.leases[t.nextId + 3 := Lease(m, r, port.value, ActiveRole)] else t.leases,
       records := t.records[k := Record(MappingBody(req), CreateReply(t, user, req, port))])
  }

  /** The answer describes the pending first revision. */
  function CreateReply(t: Tables, user: Id, req: MappingRequest, port: Option<int>): Reply {
    var m, r := t.nextId + 1, t.nextId + 2;
    MappingReply(View(m, NewMapping(user, req, r), NewRevision(m, 1, req, port)))
  }

  function CreateMapping(t: Tables, cfg: Config, who: AuthContext, req: MappingRequest, key: Option<string>)
    : (Tables, Result<Reply>)
  {
    var k := RecordKey(who.user, who.generation, CreateMappingAt, KeyOf(key, t.nextId));
    if !ValidRequest(req) then (t, Err(InvalidRequest))
    else if k in t.records then (t, Replay(t.records[k], MappingBody(req)))
    else
      match CreateRefusal(t, cfg, who.user, req)
      case Some(e) => (t, Err(e))
      case None =>
        var port := ChosenPort(t, cfg, req);
        if !Storable(port) then (t, Err(StorageError))
        else if port.Some? && Leased(t.leases, port.value) then (t, Err(PortReserved))
        else (Created(t, who.user, req, port, k), Ok(CreateReply(t, who.user, req, port)))
  }

  // ---------- update ----------

  /** A ranged proxy without a port keeps the one it has. */
  function RequestedPort(t: Tables, m: Mapping, req: MappingRequest): Option<int> {
    if Ranged(req.proxyType) && (req.remotePort.None? || req.remotePort.value == 0)
    then CurrentPort(t, m)
    else req.remotePort
  }

  predicate NeedsLease(t: Tables, m: Mapping, port: Option<int>) {
    port.Some? && CurrentPort(t, m) != port
  }

  function UpdateRefusal(t: Tables, cfg: Config, user: Id, m: Id, req: MappingRequest): Option<Error> {
    if !OwnsMapping(t, user, m) then Some(NotFound)
    else if user !in t.users then Some(StorageError)
    else
      var u, row := t.users[user], t.mappings[m];
      var port := RequestedPort(t, row, req);
      if !VersionAgrees(req.expectedVersion, u.desired) then Some(ConfigConflict)
      else if !VersionAgrees(req.expectedRevision, CurrentNumber(t, row)) then Some(RevisionConflict)
      else if !AwaitsApply(row) && |AwaitingMappings(t, user)| >= u.maxPendingMappings then Some(PendingMappingQuota)
      else if Ranged(req.proxyType) && (port.None? || port.value < cfg.portStart || port.value > cfg.portEnd)
      then Some(PortNotAllowed)
      else if NeedsLease(t, row, port) && |PendingPortLeases(t, user)| >= u.maxPendingPorts then Some(PendingPortQuota)
      else None
  }

  function SupersedePending(revisions: map<Id, Revision>, pending: Option<Id>): map<Id, Revision> {
    if pending.Some? && pending.value in revisions
       && (revisions[pending.value].status == Pending || revisions[pending.value].status == Applying)
    then revisions[pending.value := revisions[pending.value].(status := Superseded)]
    else revisions
  }

  function DropPendingLease(leases: map<Id, Lease>, pending: Option<Id>): map<Id, Lease> {
    map l | l in leases && !(pending == Some(leases[l].revision) && leases[l].role == PendingRole) :: leases[l]
  }

  function UpdatedRow(m: Mapping, req: MappingRequest, revision: Id): Mapping {
    m.(name := req.name, proxyType := req.proxyType, lifecycle := PendingApply, pending := Some(revision))
  }

  ghost function NextNumber(revisions: map<Id, Revision>, m: Id): int { Largest(Numbers(revisions, m)) + 1 }

  /** Row ids in the order they are drawn: key, revision, lease, operation. */
  ghost function Updated(t: Tables, m: Id, req: MappingRequest, port: Option<int>, k: RecordKey): Tables
    requires m in t.mappings
  {
    var r, before := t.nextId + 1, t.mappings[m];
    var row := UpdatedRow(before, req, r);
    var rev := NewRevision(m, NextNumber(t.revisions, m), req, port);
    var kept := DropPendingLease(t.leases, before.pending);
    t.(nextId := t.nextId + 4,
       users := BumpDesired(t.users, before.owner),
       mappings := t.mappings[m := row],
       revisions := SupersedePending(t.revisions, before.pending)[r := rev],
       leases := if NeedsLease(t, before, port)
                 then kept[t.nextId + 2 := Lease(m, r, port.value, PendingRole)] else kept,
       records := t.records[k := Record(MappingBody(req), UpdateReply(t, m, req, port))])
  }

  /** The answer describes the new pending revision. */
  ghost function UpdateReply(t: Tables, m: Id, req: MappingRequest, port: Option<int>): Reply
    requires m in t.mappings
  {
    var row := UpdatedRow(t.mappings[m], req, t.nextId + 1);
    MappingReply(View(m, row.(observed := ObservedOffline), NewRevision(m, NextNumber(t.revisions, m), req, port)))
  }

  ghost function UpdateMapping(t: Tables, cfg: Config, who: AuthContext, m: Id, req: MappingRequest,
                               key: Option<string>)
    : (Tables, Result<Reply>)
  {
    var k := RecordKey(who.user, who.generation, UpdateMappingAt(m), KeyOf(key, t.nextId));
    if !ValidRequest(req) then (t, Err(InvalidRequest))
    else if k in t.records then (t, Replay(t.records[k], MappingBody(req)))
    else
      match UpdateRefusal(t, cfg, who.user, m, req)
      case Some(e) => (t, Err(e))
      case None =>
        var row := t.mappings[m];
        var port := RequestedPort(t, row, req);
        if !Storable(port) then (t, Err(StorageError))
        else if NeedsLease(t, row, port) && Leased(DropPendingLease(t.leases, row.pending), port.value)
        then (t, Err(PortReserved))
        else (Updated(t, m, req, port, k), Ok(UpdateReply(t, m, req, port)))
  }

  // ---------- toggle and delete ----------

  function ToggleMapping(t: Tables, who: AuthContext, m: Id, enabled: bool,
                         expectedVersion: Option<int>, expectedRevision: Option<int>, key: Option<string>)
    : (Tables, Result<Reply>)
  {
    var k := RecordKey(who.user, who.generation, ToggleMappingAt(m), KeyOf(key, t.nextId));
    var body := ToggleBody(enabled, expectedVersion, expectedRevision);
    if k in t.records then (t, Replay(t.records[k], body))
    else if !OwnsMapping(t, who.user, m) || who.user !in t.users then (t, Err(NotFound))
    else
      var row := t.mappings[m];
      if !VersionAgrees(expectedVersion, t.users[who.user].desired) then (t, Err(ConfigConflict))
      else if !VersionAgrees(expectedRevision, CurrentNumber(t, row)) then (t, Err(RevisionConflict))
      else
        (t.(nextId := t.nextId + 1,
            users := BumpDesired(t.users, who.user),
            mappings := t.mappings[m := row.(enabled := enabled,
                                             lifecycle := if enabled then PendingApply else Disabled)],
            records := t.records[k := Record(body, Acknowledged)]),
         Ok(Acknowledged))
  }

  /** Row ids in the order they are drawn: key, operation. */
  function DeleteMapping(t: Tables, who: AuthContext, m: Id, force: bool, key: Option<string>)
    : (Tables, Result<Reply>)
  {
    var k := RecordKey(who.user, who.generation, DeleteMappingAt(m), KeyOf(key, t.nextId));
    if k in t.records then (t, Replay(t.records[k], ForceBody(force)))
    else if !OwnsMapping(t, who.user, m) then (t, Err(NotFound))
    else if who.user !in t.users then (t, Err(StorageError))
    else
      var reply := OperationReply(t.nextId + 1);
      (t.(nextId := t.nextId + 2,
          users := BumpDesired(t.users, who.user),
          mappings := t.mappings[m := t.mappings[m].(lifecycle := Deleting, enabled := false)],
          domains := map d | d in t.domains ::
            if t.domains[d].mapping == m && t.domains[d].status != DeletedDomain
            then t.domains[d].(status := DeletingDomain) else t.domains[d],
          records := t.records[k := Record(ForceBody(force), reply)]),
       Ok(reply))
  }

  // ---------- apply result ----------

  function ApplyRefusal(t: Tables, user: Id, req: ApplyRequest): Option<Error> {
    if req.status == UnknownStatus then Some(InvalidRequest)
    else if user !in t.users || t.users[user].status != ActiveUser then Some(NotFound)
    else if req.version != t.users[user].desired then Some(ConfigConflict)
    else if req.hash.Some?
            && !((user, req.version) in t.snapshots && t.snapshots[(user, req.version)] == req.hash.value)
    then Some(ConfigConflict)
    else None
  }

  /** One mapping after its owner's successful apply: what was pending, if anything,
      is active. */
  function SettleMapping(m: Mapping): Mapping {
    if m.lifecycle == Deleted then m
    else m.(active := CurrentId(m), pending := None, observed := ObservedRunning,
            lifecycle := if m.lifecycle == Deleting then Deleting else if m.enabled then Running else Disabled)
  }

  /** One revision `id` of mapping `m` after that apply. */
  function SettleRevision(m: Mapping, id: Id, r: Revision): Revision {
    if m.pending == Some(id) then r.(status := Active)
    else if m.active == Some(id) && m.pending.Some? then r.(status := Superseded)
    else r
  }

  /** A lease of mapping `m` survives iff it holds the port of the revision that is
      now active. */
  predicate SurvivesApply(m: Mapping, revisions: map<Id, Revision>, l: Lease) {
    var c := CurrentId(m);
    c.Some? && c.value in revisions && revisions[c.value].port == Some(l.port)
  }

  predicate BelongsTo(mappings: map<Id, Mapping>, m: Id, user: Id) {
    m in mappings && mappings[m].owner == user
  }

  function Settled(t: Tables, user: Id, version: int): Tables {
    t.(users := if user in t.users
                then t.users[user := t.users[user].(applied := version, lastFailed := None)] else t.users,
       mappings := map m | m in t.mappings ::
         if t.mappings[m].owner == user then SettleMapping(t.mappings[m]) else t.mappings[m],
       revisions := map r | r in t.revisions ::
         if BelongsTo(t.mappings, t.revisions[r].mapping, user)
         then SettleRevision(t.mappings[t.revisions[r].mapping], r, t.revisions[r]) else t.revisions[r],
       leases := map l | l in t.leases
                         && (BelongsTo(t.mappings, t.leases[l].mapping, user) ==>
                               SurvivesApply(t.mappings[t.leases[l].mapping], t.revisions, t.leases[l])) ::
         if BelongsTo(t.mappings, t.leases[l].mapping, user)
         then t.leases[l].(role := ActiveRole, revision := CurrentId(t.mappings[t.leases[l].mapping]).value)
         else t.leases[l])
  }

  predicate Sticky(s: Lifecycle) { s == Deleted || s == Disabled || s == Deleting }

  /** One mapping after its owner's failed apply: nothing is pending any more. */
  function RollBackMapping(m: Mapping): Mapping {
    if Sticky(m.lifecycle) then m.(pending := None)
    else m.(pending := None, lifecycle := ConfigError, observed := ObservedOffline)
  }

  function Abandoned(t: Tables, user: Id, version: int): Tables {
    t.(users := if user in t.users then t.users[user := t.users[user].(lastFailed := Some(version))] else t.users,
       mappings := map m | m in t.mappings ::
         if t.mappings[m].owner == user then RollBackMapping(t.mappings[m]) else t.mappings[m],
       revisions := map r | r in t.revisions ::
         if BelongsTo(t.mappings, t.revisions[r].mapping, user)
            && (t.revisions[r].status == Pending || t.revisions[r].status == Applying)
         then t.revisions[r].(status := Failed) else t.revisions[r],
       leases := map l | l in t.leases
                         && !(BelongsTo(t.mappings, t.leases[l].mapping, user) && t.leases[l].role == PendingRole) ::
         t.leases[l])
  }

  function ApplyResult(t: Tables, who: AuthContext, req: ApplyRequest): (Tables, Result<()>) {
    match ApplyRefusal(t, who.user, req)
    case Some(e) => (t, Err(e))
    case None =>
      (if req.status == ApplySucceeded then Settled(t, who.user, req.version)
       else Abandoned(t, who.user, req.version),
       Ok(()))
  }

  // ---------- removing rows ----------

  predicate BlockedByDomain(t: Tables, m: Id) {
    exists d | d in t.domains :: t.domains[d].mapping == m && t.domains[d].status != DeletedDomain
  }

  /** Deleting a mapping row cascades to its revisions, leases and domain bindings. */
  function DropMapping(t: Tables, m: Id): Tables {
    t.(mappings := t.mappings - {m},
       revisions := map r | r in t.revisions && t.revisions[r].mapping != m :: t.revisions[r],
       leases := map l | l in t.leases && t.leases[l].mapping != m :: t.leases[l],
       domains := map d | d in t.domains && t.domains[d].mapping != m :: t.domains[d],
       dns := map r | r in t.dns ::
         if t.dns[r].domain.Some? && t.dns[r].domain.value in t.domains
            && t.domains[t.dns[r].domain.value].mapping == m
         then t.dns[r].(domain := None) else t.dns[r])
  }

  function FinalizeMapping(t: Tables, m: Id): Tables {
    if m in t.mappings && t.mappings[m].lifecycle == Deleting && !BlockedByDomain(t, m)
    then DropMapping(t, m) else t
  }
}
