/** When users stay within their quotas: the number of mappings always does; the number of
    mappings that wait for an apply, and of ports leased for what is pending, exactly as
    long as no step of a listed kind takes place. */
module Quotas {
  import opened Wrappers
  import opened Sets
  import opened Schema
  import opened Mappings
  import opened MappingInvariants
  import opened Identity
  import opened DnsSync
  import opened Domains
  import opened Service
  import opened Invariants
  import opened DomainInvariants
  import opened Decay
  import opened Growth
  import opened Leasing
  import opened Admission

  predicate MappingsWithin(t: Tables, u: Id) { u in t.users ==> |OwnMappings(t, u)| <= t.users[u].maxMappings }

  predicate AwaitingWithin(t: Tables, u: Id) {
    u in t.users ==> |AwaitingMappings(t, u)| <= t.users[u].maxPendingMappings
  }

  predicate PortsWithin(t: Tables, u: Id) {
    u in t.users ==> |PendingPortLeases(t, u)| <= t.users[u].maxPendingPorts
  }

  // ---------- steps that add nothing ----------

  ghost predicate HoldsNoMore(t: Tables, t': Tables, u: Id) {
    && OwnMappings(t', u) <= OwnMappings(t, u) && AwaitingMappings(t', u) <= AwaitingMappings(t, u)
    && PendingPortLeases(t', u) <= PendingPortLeases(t, u)
  }

  /** The user keeps its quotas; a new one has some. */
  ghost predicate QuotasKept(t: Tables, t': Tables, u: Id) {
    u in t'.users ==> if u in t.users then SameQuotas(t.users[u], t'.users[u]) else NoDebt(t'.users[u])
  }

  ghost predicate NewcomersHoldNothing(t: Tables) {
    forall u :: u !in t.users ==>
      OwnMappings(t, u) == {} && AwaitingMappings(t, u) == {} && PendingPortLeases(t, u) == {}
  }

  lemma NewcomersHold(t: Tables)
    requires Owned(t.users, t.mappings)
    ensures NewcomersHoldNothing(t)
  {
  }

  lemma NoMoreKeeps(t: Tables, t': Tables, u: Id)
    requires HoldsNoMore(t, t', u) && QuotasKept(t, t', u) && NewcomersHoldNothing(t)
    ensures MappingsWithin(t, u) ==> MappingsWithin(t', u)
    ensures AwaitingWithin(t, u) ==> AwaitingWithin(t', u)
    ensures PortsWithin(t, u) ==> PortsWithin(t', u)
  {
    SubsetSize(OwnMappings(t', u), OwnMappings(t, u));
    SubsetSize(AwaitingMappings(t', u), AwaitingMappings(t, u));
    SubsetSize(PendingPortLeases(t', u), PendingPortLeases(t, u));
  }

  lemma SameTablesNoMore(t: Tables, t': Tables, u: Id)
    requires SameMappingTables(t, t')
    ensures HoldsNoMore(t, t', u)
  {
  }

  lemma DecayNoMore(t: Tables, t': Tables, u: Id)
    requires RowsDecay(t, t')
    ensures HoldsNoMore(t, t', u)
  {
  }

  /** Rows may start to leave, but nothing starts to wait. */
  ghost predicate OnlyLeaves(mappings: map<Id, Mapping>, mappings': map<Id, Mapping>) {
    && mappings'.Keys == mappings.Keys
    && forall m :: m in mappings ==>
         || mappings'[m] == mappings[m]
         || (mappings'[m].lifecycle == Deleting && mappings'[m].owner == mappings[m].owner
             && mappings[m].lifecycle != Deleted)
  }

  lemma LeavingNoMore(t: Tables, t': Tables, u: Id)
    requires OnlyLeaves(t.mappings, t'.mappings) && t'.leases == t.leases
    ensures HoldsNoMore(t, t', u)
  {
  }

  lemma SettledNoMore(t: Tables, user: Id, version: int, u: Id)
    ensures HoldsNoMore(t, Settled(t, user, version), u)
  {
  }

  lemma AbandonedNoMore(t: Tables, user: Id, version: int, u: Id)
    ensures HoldsNoMore(t, Abandoned(t, user, version), u)
  {
  }

  lemma ApplyNoMore(t: Tables, who: AuthContext, req: ApplyRequest, u: Id)
    ensures HoldsNoMore(t, ApplyResult(t, who, req).0, u)
  {
    SettledNoMore(t, who.user, req.version, u);
    AbandonedNoMore(t, who.user, req.version, u);
  }

  lemma DeleteMappingNoMore(t: Tables, who: AuthContext, m: Id, force: bool, key: Option<string>, u: Id)
    ensures HoldsNoMore(t, DeleteMapping(t, who, m, force, key).0, u)
  {
    var t' := DeleteMapping(t, who, m, force, key).0;
    DeleteMappingLeaves(t, who, m, force, key);
    if t' != t { LeavingNoMore(t, t', u); }
  }

  lemma DeleteMappingLeaves(t: Tables, who: AuthContext, m: Id, force: bool, key: Option<string>)
    ensures var t' := DeleteMapping(t, who, m, force, key).0;
            t' == t || (OnlyLeaves(t.mappings, t'.mappings) && t'.leases == t.leases)
  {
  }

  lemma DeleteUserNoMore(t: Tables, who: AuthContext, user: Id, force: bool, key: Option<string>, u: Id)
    ensures HoldsNoMore(t, DeleteUser(t, who, user, force, key).0, u)
  {
    DeleteUserIs(t, who, user, force, key);
    if user in t.users { DoomedNoMore(t, user, force, DeleteUser(t, who, user, force, key).0, u); }
  }

  lemma DoomedNoMore(t: Tables, user: Id, force: bool, t': Tables, u: Id)
    requires user in t.users
    ensures t'.mappings == Doomed(t, user, force).mappings && t'.leases == t.leases ==> HoldsNoMore(t, t', u)
  {
    if t'.mappings == Doomed(t, user, force).mappings && t'.leases == t.leases { LeavingNoMore(t, t', u); }
  }

  predicate AddsHoldings(op: Op) { op.CreateMappingOp? || op.UpdateMappingOp? || op.ToggleMappingOp? }

  lemma OtherStepNoMore(t: Tables, cfg: Config, op: Op, u: Id)
    requires Inv(t) && !AddsHoldings(op)
    ensures HoldsNoMore(t, Exec(t, cfg, op).0, u)
  {
    var t' := Exec(t, cfg, op).0;
    InvUsers(t);
    if IsCleanup(op) {
      CleanupDecays(t, cfg, op);
      DecayNoMore(t, t', u);
    } else if op.ApplyOp? {
      ApplyNoMore(t, op.who, op.applyReq, u);
    } else if op.DeleteMappingOp? {
      DeleteMappingNoMore(t, op.who, op.mapping, op.force, op.key, u);
    } else if op.DeleteUserOp? {
      DeleteUserNoMore(t, op.who, op.user, op.force, op.key, u);
    } else {
      if IsIdentityOp(op) { IdentityOpsLeaveMappings(t, cfg, op); } else { BindingOpsLeaveMappings(t, cfg, op); }
      SameTablesNoMore(t, t', u);
    }
  }

  lemma StepKeepsQuotas(t: Tables, cfg: Config, op: Op, u: Id)
    requires Inv(t)
    ensures QuotasKept(t, Exec(t, cfg, op).0, u)
  {
    InvUsers(t);
    if IsCleanup(op) { CleanupDecays(t, cfg, op); } else { StepGrows(t, cfg, op); }
  }

  // ---------- create ----------

  /** Everything that a create checks. */
  predicate CreateTakesEffect(t: Tables, cfg: Config, who: AuthContext, req: MappingRequest, key: Option<string>) {
    && ValidRequest(req) && RecordKey(who.user, who.generation, CreateMappingAt, KeyOf(key, t.nextId)) !in t.records
    && CreateRefusal(t, cfg, who.user, req).None? && Storable(ChosenPort(t, cfg, req))
    && (ChosenPort(t, cfg, req).Some? ==> !Leased(t.leases, ChosenPort(t, cfg, req).value))
  }

  /** A proxy that is neither TCP nor UDP is asked for no port quota, and leases its port
      all the same. */
  predicate CreateOverdraws(t: Tables, cfg: Config, who: AuthContext, req: MappingRequest, key: Option<string>) {
    && CreateTakesEffect(t, cfg, who, req, key) && !Ranged(req.proxyType) && req.remotePort.Some?
    && |PendingPortLeases(t, who.user)| >= t.users[who.user].maxPendingPorts
  }

  lemma CreateEffect(t: Tables, cfg: Config, who: AuthContext, req: MappingRequest, key: Option<string>)
    ensures var k := RecordKey(who.user, who.generation, CreateMappingAt, KeyOf(key, t.nextId));
            CreateMapping(t, cfg, who, req, key).0
            == if CreateTakesEffect(t, cfg, who, req, key)
               then Created(t, who.user, req, ChosenPort(t, cfg, req), k) else t
    ensures CreateTakesEffect(t, cfg, who, req, key) ==> CreateMapping(t, cfg, who, req, key).1.Ok?
  {
  }

  lemma CreatedElsewhere(t: Tables, user: Id, req: MappingRequest, port: Option<int>, k: RecordKey, u: Id)
    requires u != user && MappingIdsBelow(t) && LeasesAnchored(t.mappings, t.revisions, t.leases)
    ensures HoldsNoMore(t, Created(t, user, req, port, k), u)
  {
  }

  lemma CreatedWithoutPort(t: Tables, user: Id, req: MappingRequest, k: RecordKey)
    requires MappingIdsBelow(t) && LeasesAnchored(t.mappings, t.revisions, t.leases)
    ensures PendingPortLeases(Created(t, user, req, None, k), user) == PendingPortLeases(t, user)
  {
  }

  lemma CreatedKeepsIff(t: Tables, cfg: Config, who: AuthContext, req: MappingRequest, key: Option<string>,
                        k: RecordKey)
    requires MappingIdsBelow(t) && LeasesAnchored(t.mappings, t.revisions, t.leases)
    requires CreateTakesEffect(t, cfg, who, req, key) && PortsWithin(t, who.user)
    ensures var t' := Created(t, who.user, req, ChosenPort(t, cfg, req), k);
            && MappingsWithin(t', who.user) && AwaitingWithin(t', who.user)
            && (PortsWithin(t', who.user) <==> !CreateOverdraws(t, cfg, who, req, key))
  {
    CountsAfterCreate(t, who.user, req, ChosenPort(t, cfg, req), k);
    if ChosenPort(t, cfg, req).None? { CreatedWithoutPort(t, who.user, req, k); }
  }

  /** A create leases the port that FRPS itself listens on iff it is for such a proxy and
      asks for that port. */
  lemma LeasesBindPortIff(t: Tables, cfg: Config, who: AuthContext, req: MappingRequest, key: Option<string>)
    requires CreateTakesEffect(t, cfg, who, req, key) && !Leased(t.leases, cfg.bindPort)
    ensures Leased(CreateMapping(t, cfg, who, req, key).0.leases, cfg.bindPort)
            <==> !Ranged(req.proxyType) && req.remotePort == Some(cfg.bindPort)
  {
    var port := ChosenPort(t, cfg, req);
    var t' := CreateMapping(t, cfg, who, req, key).0;
    if port.Some? {
      assert t'.leases[t.nextId + 3].port == port.value;
      assert forall l :: l in t'.leases && l != t.nextId + 3 ==> l in t.leases && t'.leases[l] == t.leases[l];
    }
  }

  // ---------- update ----------

  function ActiveLeasesOf(t: Tables, m: Id): set<Id> {
    set l | l in t.leases && t.leases[l].mapping == m && t.leases[l].role == ActiveRole
  }

  function PendingLeasesOf(t: Tables, m: Id): set<Id> {
    set l | l in t.leases && t.leases[l].mapping == m && t.leases[l].role == PendingRole
  }

  predicate UpdateTakesEffect(t: Tables, cfg: Config, who: AuthContext, m: Id, req: MappingRequest,
                              key: Option<string>)
  {
    UpdateAccepted(t, cfg, who, m, req, key) && PortFree(t, m, RequestedPort(t, t.mappings[m], req))
  }

  /** The mapping was running on a leased port, so that with the update its active lease
      counts too, and it had no pending lease to give up. */
  predicate UpdateOverdraws(t: Tables, cfg: Config, who: AuthContext, m: Id, req: MappingRequest, key: Option<string>) {
    && UpdateTakesEffect(t, cfg, who, m, req, key) && !AwaitsApply(t.mappings[m])
    && ActiveLeasesOf(t, m) != {} && PendingLeasesOf(t, m) == {}
    && var more := if NeedsLease(t, t.mappings[m], RequestedPort(t, t.mappings[m], req)) then 1 else 0;
       |PendingPortLeases(t, who.user)| + more >= t.users[who.user].maxPendingPorts
  }

  lemma UpdateEffect(t: Tables, cfg: Config, who: AuthContext, m: Id, req: MappingRequest, key: Option<string>)
    ensures UpdateMapping(t, cfg, who, m, req, key).0
            == if UpdateTakesEffect(t, cfg, who, m, req, key)
               then Updated(t, m, req, RequestedPort(t, t.mappings[m], req),
                            RecordKey(who.user, who.generation, UpdateMappingAt(m), KeyOf(key, t.nextId)))
               else t
    ensures UpdateTakesEffect(t, cfg, who, m, req, key) ==> UpdateMapping(t, cfg, who, m, req, key).1.Ok?
  {
  }

  ghost predicate LeaseFacts(t: Tables) {
    && Pointers(t.mappings, t.revisions) && LeaseRules(t.mappings, t.revisions, t.leases) && MappingIdsBelow(t)
  }

  lemma FewLeases(t: Tables, m: Id)
    requires LeasesDistinct(t.leases)
    ensures |ActiveLeasesOf(t, m)| <= 1 && |PendingLeasesOf(t, m)| <= 1
  {
    AtMostOne(ActiveLeasesOf(t, m));
    AtMostOne(PendingLeasesOf(t, m));
  }

  /** Exactly the mapping's own pending leases are dropped. */
  lemma DroppedAreOwn(t: Tables, m: Id)
    requires LeaseFacts(t) && m in t.mappings
    ensures var kept := DropPendingLease(t.leases, t.mappings[m].pending);
            kept.Keys == t.leases.Keys - PendingLeasesOf(t, m) && forall l :: l in kept ==> kept[l] == t.leases[l]
  {
    forall l | l in t.leases
      ensures l in PendingLeasesOf(t, m) <==>
              t.mappings[m].pending == Some(t.leases[l].revision) && t.leases[l].role == PendingRole
    {
    }
  }

  function NewLease(t: Tables, m: Id, port: Option<int>): set<Id>
    requires m in t.mappings
  {
    if NeedsLease(t, t.mappings[m], port) then {t.nextId + 2} else {}
  }

  /** Mapping m starts to wait, its leases in `own` go, and those in `added` come. */
  ghost predicate Relets(t: Tables, t': Tables, m: Id, own: set<Id>, added: set<Id>) {
    && m in t.mappings && m in t'.mappings && t'.mappings == t.mappings[m := t'.mappings[m]]
    && t'.mappings[m].owner == t.mappings[m].owner && AwaitsApply(t'.mappings[m])
    && t'.leases.Keys == (t.leases.Keys - own) + added && added !! t.leases.Keys
    && (forall l :: l in t.leases && l !in own ==> t'.leases[l] == t.leases[l])
    && (forall l :: l in added ==> t'.leases[l].mapping == m)
  }

  lemma UpdateRelets(t: Tables, m: Id, req: MappingRequest, port: Option<int>, k: RecordKey)
    requires LeaseFacts(t) && m in t.mappings
    ensures Relets(t, Updated(t, m, req, port, k), m, PendingLeasesOf(t, m), NewLease(t, m, port))
  {
    DroppedAreOwn(t, m);
    var t', kept := Updated(t, m, req, port, k), DropPendingLease(t.leases, t.mappings[m].pending);
    assert t'.leases.Keys == kept.Keys + NewLease(t, m, port);
  }

  lemma PortsAfterRelet(t: Tables, t': Tables, m: Id, added: set<Id>)
    requires Relets(t, t', m, PendingLeasesOf(t, m), added)
    ensures var owner := t.mappings[m].owner;
            PendingPortLeases(t', owner)
            == (PendingPortLeases(t, owner) - PendingLeasesOf(t, m)) + ActiveLeasesOf(t, m) + added
  {
  }

  lemma CountSets(before: set<Id>, own: set<Id>, active: set<Id>, added: set<Id>, waits: bool)
    requires own <= before && added !! before && added !! active && own !! active
    requires if waits then active <= before else active !! before
    ensures |(before - own) + active + added| == |before| - |own| + (if waits then 0 else |active|) + |added|
  {
    RemovedSize(before, own);
    if waits { assert (before - own) + active == before - own; } else { DisjointSize(before - own, active); }
    DisjointSize((before - own) + active, added);
  }

  /** With an update the mapping's pending lease goes, its active lease counts from now on,
      and a new port adds one. */
  lemma CountAfterUpdate(t: Tables, m: Id, req: MappingRequest, port: Option<int>, k: RecordKey)
    requires LeaseFacts(t) && m in t.mappings
    ensures var owner := t.mappings[m].owner;
            |PendingPortLeases(Updated(t, m, req, port, k), owner)|
            == |PendingPortLeases(t, owner)| - |PendingLeasesOf(t, m)|
               + (if AwaitsApply(t.mappings[m]) then 0 else |ActiveLeasesOf(t, m)|) + |NewLease(t, m, port)|
  {
    UpdateRelets(t, m, req, port, k);
    PortsAfterRelet(t, Updated(t, m, req, port, k), m, NewLease(t, m, port));
    CountSets(PendingPortLeases(t, t.mappings[m].owner), PendingLeasesOf(t, m), ActiveLeasesOf(t, m),
              NewLease(t, m, port), AwaitsApply(t.mappings[m]));
  }

  lemma UpdatedElsewhere(t: Tables, m: Id, req: MappingRequest, port: Option<int>, k: RecordKey, u: Id)
    requires LeaseFacts(t) && m in t.mappings && u != t.mappings[m].owner
    ensures HoldsNoMore(t, Updated(t, m, req, port, k), u)
  {
  }

  lemma UpdatedOwnsNoMore(t: Tables, m: Id, req: MappingRequest, port: Option<int>, k: RecordKey)
    requires m in t.mappings
    ensures var t' := Updated(t, m, req, port, k);
            t.mappings[m].lifecycle != Deleted ==>
              OwnMappings(t', t.mappings[m].owner) == OwnMappings(t, t.mappings[m].owner)
  {
  }

  lemma LeaseFactsHold(t: Tables)
    requires Inv(t)
    ensures LeaseFacts(t) && Owned(t.users, t.mappings)
  {
    InvMeans(t);
  }

  lemma UpdatedPortsIff(t: Tables, cfg: Config, who: AuthContext, m: Id, req: MappingRequest, key: Option<string>,
                        k: RecordKey)
    requires LeaseFacts(t) && UpdateTakesEffect(t, cfg, who, m, req, key) && PortsWithin(t, who.user)
    ensures PortsWithin(Updated(t, m, req, RequestedPort(t, t.mappings[m], req), k), who.user)
            <==> !UpdateOverdraws(t, cfg, who, m, req, key)
  {
    var port := RequestedPort(t, t.mappings[m], req);
    CountAfterUpdate(t, m, req, port, k);
    FewLeases(t, m);
    NewLeaseFits(t, cfg, who, m, req, key);
    SizeIff(|PendingLeasesOf(t, m)|, PendingLeasesOf(t, m));
    SizeIff(|ActiveLeasesOf(t, m)|, ActiveLeasesOf(t, m));
    assert Updated(t, m, req, port, k).users[who.user].maxPendingPorts == t.users[who.user].maxPendingPorts;
  }

  lemma SizeIff(n: nat, s: set<Id>)
    requires n == |s| <= 1
    ensures n == if s == {} then 0 else 1
  {
  }

  lemma NewLeaseFits(t: Tables, cfg: Config, who: AuthContext, m: Id, req: MappingRequest, key: Option<string>)
    requires UpdateTakesEffect(t, cfg, who, m, req, key)
    ensures var added := |NewLease(t, m, RequestedPort(t, t.mappings[m], req))|;
            && added == (if NeedsLease(t, t.mappings[m], RequestedPort(t, t.mappings[m], req)) then 1 else 0)
            && (added == 1 ==> |PendingPortLeases(t, who.user)| < t.users[who.user].maxPendingPorts)
            && t.mappings[m].owner == who.user && who.user in t.users
  {
  }

  lemma UpdatedWithin(t: Tables, cfg: Config, who: AuthContext, m: Id, req: MappingRequest, key: Option<string>,
                      k: RecordKey)
    requires UpdateTakesEffect(t, cfg, who, m, req, key)
    ensures var t' := Updated(t, m, req, RequestedPort(t, t.mappings[m], req), k);
            && (MappingsWithin(t, who.user) ==> MappingsWithin(t', who.user))
            && (AwaitingWithin(t, who.user) ==> AwaitingWithin(t', who.user))
  {
    var port := RequestedPort(t, t.mappings[m], req);
    UpdatedOwnsNoMore(t, m, req, port, k);
    AwaitingAfterUpdate(t, m, req, port, k);
    if AwaitsApply(t.mappings[m]) { assert AwaitingMappings(t, who.user) + {m} == AwaitingMappings(t, who.user); }
  }

  // ---------- toggle: no quota is checked ----------

  predicate ToggleTakesEffect(t: Tables, who: AuthContext, m: Id, expectedVersion: Option<int>,
                              expectedRevision: Option<int>, key: Option<string>) {
    && RecordKey(who.user, who.generation, ToggleMappingAt(m), KeyOf(key, t.nextId)) !in t.records
    && OwnsMapping(t, who.user, m) && who.user in t.users && VersionAgrees(expectedVersion, t.users[who.user].desired)
    && VersionAgrees(expectedRevision, CurrentNumber(t, t.mappings[m]))
  }

  /** A mapping that did not wait is enabled. */
  predicate StartsToWait(t: Tables, op: Op) {
    && op.ToggleMappingOp? && op.enabled
    && ToggleTakesEffect(t, op.who, op.mapping, op.expectedVersion, op.expectedRevision, op.key)
    && !AwaitsApply(t.mappings[op.mapping])
  }

  function Toggled(t: Tables, m: Id, enabled: bool): Mapping
    requires m in t.mappings
  {
    t.mappings[m].(enabled := enabled, lifecycle := if enabled then PendingApply else Disabled)
  }

  lemma ToggleEffect(t: Tables, who: AuthContext, m: Id, enabled: bool, expectedVersion: Option<int>,
                     expectedRevision: Option<int>, key: Option<string>)
    ensures var t' := ToggleMapping(t, who, m, enabled, expectedVersion, expectedRevision, key).0;
            if ToggleTakesEffect(t, who, m, expectedVersion, expectedRevision, key)
            then t'.mappings == t.mappings[m := Toggled(t, m, enabled)] && t'.leases == t.leases
            else t' == t
  {
  }

  ghost predicate Replaces(t: Tables, t': Tables, m: Id, row: Mapping) {
    && m in t.mappings && t'.mappings == t.mappings[m := row] && t'.leases == t.leases
    && row.owner == t.mappings[m].owner && (row.lifecycle != Deleted ==> t.mappings[m].lifecycle != Deleted)
  }

  lemma NotWaitingNoMore(t: Tables, t': Tables, m: Id, row: Mapping, u: Id)
    requires Replaces(t, t', m, row) && (AwaitsApply(row) ==> AwaitsApply(t.mappings[m]) || u != row.owner)
    ensures HoldsNoMore(t, t', u)
  {
  }

  lemma WaitingAdds(t: Tables, t': Tables, m: Id, row: Mapping)
    requires Replaces(t, t', m, row) && AwaitsApply(row) && !AwaitsApply(t.mappings[m])
    ensures OwnMappings(t', row.owner) <= OwnMappings(t, row.owner)
    ensures AwaitingMappings(t', row.owner) == AwaitingMappings(t, row.owner) + {m}
            && m !in AwaitingMappings(t, row.owner)
    ensures PendingPortLeases(t', row.owner) == PendingPortLeases(t, row.owner) + ActiveLeasesOf(t, m)
    ensures PendingPortLeases(t, row.owner) !! ActiveLeasesOf(t, m)
  {
  }

  /** One more waits, and its active lease, if any, counts. */
  lemma WaitingCounts(t: Tables, t': Tables, m: Id, row: Mapping)
    requires Replaces(t, t', m, row) && AwaitsApply(row) && !AwaitsApply(t.mappings[m]) && LeasesDistinct(t.leases)
    ensures |OwnMappings(t', row.owner)| <= |OwnMappings(t, row.owner)|
    ensures |AwaitingMappings(t', row.owner)| == |AwaitingMappings(t, row.owner)| + 1
    ensures |PendingPortLeases(t', row.owner)|
            == |PendingPortLeases(t, row.owner)| + (if ActiveLeasesOf(t, m) == {} then 0 else 1)
  {
    WaitingAdds(t, t', m, row);
    SubsetSize(OwnMappings(t', row.owner), OwnMappings(t, row.owner));
    FewLeases(t, m);
    DisjointSize(PendingPortLeases(t, row.owner), ActiveLeasesOf(t, m));
  }

  // ---------- every step ----------

  /** The step lets the user exceed the quota on mappings that wait. */
  predicate Overwaits(t: Tables, op: Op, u: Id) {
    StartsToWait(t, op) && op.who.user == u && |AwaitingMappings(t, u)| >= t.users[u].maxPendingMappings
  }

  /** The step lets the user exceed the quota on ports leased for what is pending. */
  predicate Overdraws(t: Tables, cfg: Config, op: Op, u: Id) {
    match op
    case CreateMappingOp(who, req, key) => who.user == u && CreateOverdraws(t, cfg, who, req, key)
    case UpdateMappingOp(who, m, req, key) => who.user == u && UpdateOverdraws(t, cfg, who, m, req, key)
    case ToggleMappingOp(who, m, _, _, _, _) =>
      who.user == u && StartsToWait(t, op) && ActiveLeasesOf(t, m) != {}
      && |PendingPortLeases(t, u)| >= t.users[u].maxPendingPorts
    case _ => false
  }

  /** What one step keeps of the three quotas of a user. */
  ghost predicate Judged(t: Tables, t': Tables, u: Id, overwaits: bool, overdraws: bool) {
    && (MappingsWithin(t, u) ==> MappingsWithin(t', u))
    && (AwaitingWithin(t, u) ==> (AwaitingWithin(t', u) <==> !overwaits))
    && (PortsWithin(t, u) ==> (PortsWithin(t', u) <==> !overdraws))
  }

  lemma NoMoreJudged(t: Tables, t': Tables, u: Id)
    requires HoldsNoMore(t, t', u) && QuotasKept(t, t', u) && NewcomersHoldNothing(t)
    ensures Judged(t, t', u, false, false)
  {
    NoMoreKeeps(t, t', u);
  }

  lemma NothingJudged(t: Tables, u: Id)
    ensures Judged(t, t, u, false, false)
  {
  }

  lemma CreateJudged(t: Tables, cfg: Config, who: AuthContext, req: MappingRequest, key: Option<string>, u: Id)
    requires LeaseFacts(t) && NewcomersHoldNothing(t) && QuotasKept(t, CreateMapping(t, cfg, who, req, key).0, u)
    ensures Judged(t, CreateMapping(t, cfg, who, req, key).0, u, false,
                   who.user == u && CreateOverdraws(t, cfg, who, req, key))
  {
    var k := RecordKey(who.user, who.generation, CreateMappingAt, KeyOf(key, t.nextId));
    CreateEffect(t, cfg, who, req, key);
    if !CreateTakesEffect(t, cfg, who, req, key) {
      NothingJudged(t, u);
    } else if who.user == u {
      if PortsWithin(t, u) { CreatedKeepsIff(t, cfg, who, req, key, k); }
      CreatedWithin(t, cfg, who, req, key, k);
    } else {
      CreatedElsewhere(t, who.user, req, ChosenPort(t, cfg, req), k, u);
      NoMoreJudged(t, Created(t, who.user, req, ChosenPort(t, cfg, req), k), u);
    }
  }

  lemma CreatedWithin(t: Tables, cfg: Config, who: AuthContext, req: MappingRequest, key: Option<string>, k: RecordKey)
    requires MappingIdsBelow(t) && LeasesAnchored(t.mappings, t.revisions, t.leases)
    requires CreateTakesEffect(t, cfg, who, req, key)
    ensures var t' := Created(t, who.user, req, ChosenPort(t, cfg, req), k);
            MappingsWithin(t', who.user) && AwaitingWithin(t', who.user)
  {
    CountsAfterCreate(t, who.user, req, ChosenPort(t, cfg, req), k);
  }

  lemma UpdateJudged(t: Tables, cfg: Config, who: AuthContext, m: Id, req: MappingRequest, key: Option<string>, u: Id)
    requires LeaseFacts(t) && NewcomersHoldNothing(t) && QuotasKept(t, UpdateMapping(t, cfg, who, m, req, key).0, u)
    ensures Judged(t, UpdateMapping(t, cfg, who, m, req, key).0, u, false,
                   who.user == u && UpdateOverdraws(t, cfg, who, m, req, key))
  {
    var k := RecordKey(who.user, who.generation, UpdateMappingAt(m), KeyOf(key, t.nextId));
    UpdateEffect(t, cfg, who, m, req, key);
    if !UpdateTakesEffect(t, cfg, who, m, req, key) {
      NothingJudged(t, u);
    } else if who.user == u {
      if PortsWithin(t, u) { UpdatedPortsIff(t, cfg, who, m, req, key, k); }
      UpdatedWithin(t, cfg, who, m, req, key, k);
    } else {
      UpdatedElsewhere(t, m, req, RequestedPort(t, t.mappings[m], req), k, u);
      NoMoreJudged(t, Updated(t, m, req, RequestedPort(t, t.mappings[m], req), k), u);
    }
  }

  lemma StartedJudged(t: Tables, t': Tables, m: Id, row: Mapping)
    requires Replaces(t, t', m, row) && AwaitsApply(row) && !AwaitsApply(t.mappings[m]) && LeasesDistinct(t.leases)
    requires row.owner in t.users && row.owner in t'.users && QuotasKept(t, t', row.owner)
    ensures var u := t.users[row.owner];
            Judged(t, t', row.owner, |AwaitingMappings(t, row.owner)| >= u.maxPendingMappings,
                   ActiveLeasesOf(t, m) != {} && |PendingPortLeases(t, row.owner)| >= u.maxPendingPorts)
  {
    WaitingCounts(t, t', m, row);
  }

  lemma ToggleJudged(t: Tables, op: Op, t': Tables, u: Id)
    requires op.ToggleMappingOp? && LeaseFacts(t) && NewcomersHoldNothing(t) && QuotasKept(t, t', u)
    requires t' == ToggleMapping(t, op.who, op.mapping, op.enabled, op.expectedVersion, op.expectedRevision, op.key).0
    requires u in t.users ==> u in t'.users
    ensures Judged(t, t', u, Overwaits(t, op, u),
                   op.who.user == u && StartsToWait(t, op) && ActiveLeasesOf(t, op.mapping) != {}
                   && |PendingPortLeases(t, u)| >= t.users[u].maxPendingPorts)
  {
    var m := op.mapping;
    ToggleEffect(t, op.who, m, op.enabled, op.expectedVersion, op.expectedRevision, op.key);
    if !ToggleTakesEffect(t, op.who, m, op.expectedVersion, op.expectedRevision, op.key) {
      NothingJudged(t, u);
    } else if StartsToWait(t, op) && op.who.user == u {
      StartedJudged(t, t', m, Toggled(t, m, op.enabled));
    } else {
      NotWaitingNoMore(t, t', m, Toggled(t, m, op.enabled), u);
      NoMoreJudged(t, t', u);
    }
  }

  lemma UserStays(t: Tables, cfg: Config, op: Op, u: Id)
    requires Inv(t) && !IsCleanup(op)
    ensures u in t.users ==> u in Exec(t, cfg, op).0.users
  {
    InvUsers(t);
    StepGrows(t, cfg, op);
  }

  lemma AddingStepJudged(t: Tables, cfg: Config, op: Op, u: Id)
    requires Inv(t) && AddsHoldings(op)
    ensures Judged(t, Exec(t, cfg, op).0, u, Overwaits(t, op, u), Overdraws(t, cfg, op, u))
  {
    LeaseFactsHold(t);
    NewcomersHold(t);
    StepKeepsQuotas(t, cfg, op, u);
    UserStays(t, cfg, op, u);
    match op
    case CreateMappingOp(who, req, key) => CreateJudged(t, cfg, who, req, key, u);
    case UpdateMappingOp(who, m, req, key) => UpdateJudged(t, cfg, who, m, req, key, u);
    case ToggleMappingOp(_, _, _, _, _, _) => ToggleJudged(t, op, Exec(t, cfg, op).0, u);
  }

  /** Every step, by anyone, keeps a user within the quota on mappings; within the quota on
      waiting mappings iff it does not enable one at the limit; and within the quota on
      pending ports iff it is none of three kinds that take effect. */
  lemma StepJudged(t: Tables, cfg: Config, op: Op, u: Id)
    requires Inv(t)
    ensures Judged(t, Exec(t, cfg, op).0, u, Overwaits(t, op, u), Overdraws(t, cfg, op, u))
  {
    if AddsHoldings(op) {
      AddingStepJudged(t, cfg, op, u);
    } else {
      LeaseFactsHold(t);
      NewcomersHold(t);
      StepKeepsQuotas(t, cfg, op, u);
      OtherStepNoMore(t, cfg, op, u);
      NoMoreJudged(t, Exec(t, cfg, op).0, u);
    }
  }

  // ---------- runs ----------

  ghost predicate MappingsWithinThroughout(t: Tables, cfg: Config, ops: seq<Op>, u: Id)
    decreases |ops|
  {
    MappingsWithin(t, u) && (ops == [] || MappingsWithinThroughout(Exec(t, cfg, ops[0]).0, cfg, ops[1..], u))
  }

  ghost predicate AwaitingWithinThroughout(t: Tables, cfg: Config, ops: seq<Op>, u: Id)
    decreases |ops|
  {
    AwaitingWithin(t, u) && (ops == [] || AwaitingWithinThroughout(Exec(t, cfg, ops[0]).0, cfg, ops[1..], u))
  }

  ghost predicate PortsWithinThroughout(t: Tables, cfg: Config, ops: seq<Op>, u: Id)
    decreases |ops|
  {
    PortsWithin(t, u) && (ops == [] || PortsWithinThroughout(Exec(t, cfg, ops[0]).0, cfg, ops[1..], u))
  }

  ghost predicate NeverOverwaits(t: Tables, cfg: Config, ops: seq<Op>, u: Id)
    decreases |ops|
  {
    ops == [] || (!Overwaits(t, ops[0], u) && NeverOverwaits(Exec(t, cfg, ops[0]).0, cfg, ops[1..], u))
  }

  ghost predicate NeverOverdraws(t: Tables, cfg: Config, ops: seq<Op>, u: Id)
    decreases |ops|
  {
    ops == [] || (!Overdraws(t, cfg, ops[0], u) && NeverOverdraws(Exec(t, cfg, ops[0]).0, cfg, ops[1..], u))
  }

  /** Over any run a user is always within the quota on mappings. */
  lemma {:induction false} MappingsAlwaysWithin(t: Tables, cfg: Config, ops: seq<Op>, u: Id)
    requires Inv(t) && MappingsWithin(t, u)
    ensures MappingsWithinThroughout(t, cfg, ops, u)
    decreases |ops|
  {
    if ops != [] {
      StepJudged(t, cfg, ops[0], u);
      ExecKeepsInv(t, cfg, ops[0]);
      MappingsAlwaysWithin(Exec(t, cfg, ops[0]).0, cfg, ops[1..], u);
    }
  }

  /** Over a run a user is always within the quota on waiting mappings iff no step enables
      a mapping at the limit. */
  lemma {:induction false} AwaitingThroughoutIff(t: Tables, cfg: Config, ops: seq<Op>, u: Id)
    requires Inv(t) && AwaitingWithin(t, u)
    ensures AwaitingWithinThroughout(t, cfg, ops, u) <==> NeverOverwaits(t, cfg, ops, u)
    decreases |ops|
  {
    if ops != [] {
      var t1 := Exec(t, cfg, ops[0]).0;
      StepJudged(t, cfg, ops[0], u);
      ExecKeepsInv(t, cfg, ops[0]);
      if AwaitingWithin(t1, u) { AwaitingThroughoutIff(t1, cfg, ops[1..], u); }
    }
  }

  /** Over a run a user is always within the quota on pending ports iff no step overdraws. */
  lemma {:induction false} PortsThroughoutIff(t: Tables, cfg: Config, ops: seq<Op>, u: Id)
    requires Inv(t) && PortsWithin(t, u)
    ensures PortsWithinThroughout(t, cfg, ops, u) <==> NeverOverdraws(t, cfg, ops, u)
    decreases |ops|
  {
    if ops != [] {
      var t1 := Exec(t, cfg, ops[0]).0;
      StepJudged(t, cfg, ops[0], u);
      ExecKeepsInv(t, cfg, ops[0]);
      if PortsWithin(t1, u) { PortsThroughoutIff(t1, cfg, ops[1..], u); }
    }
  }

  /** From the fresh database everyone starts within all quotas. */
  lemma InitiallyWithin(password: string, u: Id)
    ensures var t := Initial(password); Inv(t) && MappingsWithin(t, u) && AwaitingWithin(t, u) && PortsWithin(t, u)
  {
    InitialInv(password);
    assert OwnMappings(Initial(password), u) == {} && AwaitingMappings(Initial(password), u) == {};
    assert PendingPortLeases(Initial(password), u) == {};
  }
}
