/** When active and pending revisions hold their ports: in every run except those in
    which an update asks again for the port of the mapping's own pending lease. Such
    an update deletes that lease and does not insert it again. */
module Leasing {
  import opened Wrappers
  import opened Schema
  import opened Mappings
  import opened MappingInvariants
  import opened Identity
  import opened DnsSync
  import opened Domains
  import opened Service
  import opened Invariants
  import opened DomainInvariants
  import opened Decay
  import opened Growth

  // ---------- what is leased ----------

  ghost predicate HoldsPort(leases: map<Id, Lease>, m: Id, port: int, activeOnly: bool) {
    exists l :: l in leases && leases[l].mapping == m && leases[l].port == port
                && (activeOnly ==> leases[l].role == ActiveRole)
  }

  /** The mapping's active revision holds its port with an active lease. */
  ghost predicate ActiveLeased(revisions: map<Id, Revision>, leases: map<Id, Lease>, m: Id, row: Mapping) {
    row.active.Some? && row.active.value in revisions && revisions[row.active.value].port.Some? ==>
      HoldsPort(leases, m, revisions[row.active.value].port.value, true)
  }

  /** The mapping's pending revision holds its port with a lease of either role. */
  ghost predicate PendingLeased(revisions: map<Id, Revision>, leases: map<Id, Lease>, m: Id, row: Mapping) {
    row.pending.Some? && row.pending.value in revisions && revisions[row.pending.value].port.Some? ==>
      HoldsPort(leases, m, revisions[row.pending.value].port.value, false)
  }

  ghost predicate RowLeased(t: Tables, m: Id)
    requires m in t.mappings
  {
    ActiveLeased(t.revisions, t.leases, m, t.mappings[m]) && PendingLeased(t.revisions, t.leases, m, t.mappings[m])
  }

  ghost predicate AllLeased(t: Tables) { forall m :: m in t.mappings ==> RowLeased(t, m) }

  /** The part of the invariant that the ports depend on. */
  ghost predicate PortRules(t: Tables) {
    Pointers(t.mappings, t.revisions) && LeaseRules(t.mappings, t.revisions, t.leases) && MappingIdsBelow(t)
  }

  // ---------- updates: exactly when ----------

  predicate OwnPendingLease(t: Tables, m: Id, l: Id) {
    && l in t.leases && t.leases[l].mapping == m && t.leases[l].role == PendingRole
    && m in t.mappings && t.mappings[m].pending == Some(t.leases[l].revision)
  }

  /** The update asks for the port that the mapping's own pending lease holds. */
  predicate Rerequests(t: Tables, m: Id, port: Option<int>) {
    port.Some? && exists l | l in t.leases :: OwnPendingLease(t, m, l) && t.leases[l].port == port.value
  }

  lemma HeldAfterUpdate(t: Tables, m: Id, req: MappingRequest, port: Option<int>, k: RecordKey, x: Id, p: int,
                        activeOnly: bool)
    requires m in t.mappings && HoldsPort(t.leases, x, p, activeOnly) && MappingIdsBelow(t)
    requires activeOnly || x != m
    requires forall l :: l in t.leases && t.mappings[m].pending == Some(t.leases[l].revision) ==>
               t.leases[l].mapping == m
    ensures HoldsPort(Updated(t, m, req, port, k).leases, x, p, activeOnly)
  {
    var t' := Updated(t, m, req, port, k);
    var l :| l in t.leases && t.leases[l].mapping == x && t.leases[l].port == p
        && (activeOnly ==> t.leases[l].role == ActiveRole);
    assert l in t'.leases && t'.leases[l] == t.leases[l];
  }

  /** A pending revision is named only by leases of its own mapping. */
  lemma PendingLeasesAreOwn(t: Tables, m: Id)
    requires PortRules(t) && m in t.mappings
    ensures forall l :: l in t.leases && t.mappings[m].pending == Some(t.leases[l].revision) ==>
              t.leases[l].mapping == m
  {
  }

  lemma RevisionsAfterUpdate(t: Tables, m: Id, req: MappingRequest, port: Option<int>, k: RecordKey)
    requires m in t.mappings && MappingIdsBelow(t)
    ensures var t' := Updated(t, m, req, port, k);
            && (forall r :: r in t.revisions ==> r in t'.revisions && t'.revisions[r].port == t.revisions[r].port)
            && t.nextId + 1 in t'.revisions && t'.revisions[t.nextId + 1].port == port
            && t'.mappings == t.mappings[m := t'.mappings[m]]
            && t'.mappings[m].active == t.mappings[m].active && t'.mappings[m].pending == Some(t.nextId + 1)
  {
  }

  lemma UpdateKeepsOthersLeased(t: Tables, m: Id, req: MappingRequest, port: Option<int>, k: RecordKey, x: Id)
    requires PortRules(t) && m in t.mappings && x in t.mappings && x != m && RowLeased(t, x)
    ensures RowLeased(Updated(t, m, req, port, k), x)
  {
    PendingLeasesAreOwn(t, m);
    RevisionsAfterUpdate(t, m, req, port, k);
    var row := t.mappings[x];
    if row.active.Some? && t.revisions[row.active.value].port.Some? {
      HeldAfterUpdate(t, m, req, port, k, x, t.revisions[row.active.value].port.value, true);
    }
    if row.pending.Some? && t.revisions[row.pending.value].port.Some? {
      HeldAfterUpdate(t, m, req, port, k, x, t.revisions[row.pending.value].port.value, false);
    }
  }

  lemma UpdateKeepsActiveLeased(t: Tables, m: Id, req: MappingRequest, port: Option<int>, k: RecordKey)
    requires PortRules(t) && m in t.mappings && RowLeased(t, m)
    ensures var t' := Updated(t, m, req, port, k); ActiveLeased(t'.revisions, t'.leases, m, t'.mappings[m])
  {
    PendingLeasesAreOwn(t, m);
    RevisionsAfterUpdate(t, m, req, port, k);
    var row := t.mappings[m];
    if row.active.Some? && t.revisions[row.active.value].port.Some? {
      HeldAfterUpdate(t, m, req, port, k, m, t.revisions[row.active.value].port.value, true);
    }
  }

  /** Another port gets a lease of its own. */
  lemma NewPortHeld(t: Tables, m: Id, req: MappingRequest, p: int, k: RecordKey)
    requires PortRules(t) && m in t.mappings && NeedsLease(t, t.mappings[m], Some(p))
    ensures HoldsPort(Updated(t, m, req, Some(p), k).leases, m, p, false)
  {
    assert Updated(t, m, req, Some(p), k).leases[t.nextId + 2] == Lease(m, t.nextId + 1, p, PendingRole);
  }

  /** The current port stays held unless the lease that held it was the pending one. */
  lemma SamePortHeldIff(t: Tables, m: Id, req: MappingRequest, p: int, k: RecordKey)
    requires PortRules(t) && m in t.mappings && RowLeased(t, m) && !NeedsLease(t, t.mappings[m], Some(p))
    ensures HoldsPort(Updated(t, m, req, Some(p), k).leases, m, p, false) <==> !Rerequests(t, m, Some(p))
  {
    CurrentPortHeld(t, m, p);
    DroppedHoldsIff(t, m, p);
    assert Updated(t, m, req, Some(p), k).leases == DropPendingLease(t.leases, t.mappings[m].pending);
  }

  lemma CurrentPortHeld(t: Tables, m: Id, p: int)
    requires PortRules(t) && m in t.mappings && RowLeased(t, m) && CurrentPort(t, t.mappings[m]) == Some(p)
    ensures HoldsPort(t.leases, m, p, false)
  {
  }

  lemma DroppedHoldsIff(t: Tables, m: Id, p: int)
    requires PortRules(t) && m in t.mappings && HoldsPort(t.leases, m, p, false)
    ensures HoldsPort(DropPendingLease(t.leases, t.mappings[m].pending), m, p, false) <==> !Rerequests(t, m, Some(p))
  {
    var kept := DropPendingLease(t.leases, t.mappings[m].pending);
    var l :| l in t.leases && t.leases[l].mapping == m && t.leases[l].port == p;
    assert l in kept <==> !OwnPendingLease(t, m, l);
    assert forall q :: q in kept ==> q in t.leases && kept[q] == t.leases[q];
  }

  /** The heart of the matter: the new pending revision's port is held exactly if the
      request did not repeat the port of the mapping's own pending lease. */
  lemma NewPendingHeld(t: Tables, m: Id, req: MappingRequest, p: int, k: RecordKey)
    requires PortRules(t) && m in t.mappings && RowLeased(t, m)
    ensures HoldsPort(Updated(t, m, req, Some(p), k).leases, m, p, false) <==> !Rerequests(t, m, Some(p))
  {
    if NeedsLease(t, t.mappings[m], Some(p)) {
      NewPortHeld(t, m, req, p, k);
      PendingLeaseIsCurrent(t, m, p);
    } else {
      SamePortHeldIff(t, m, req, p, k);
    }
  }

  /** A pending lease holds the current port. */
  lemma PendingLeaseIsCurrent(t: Tables, m: Id, p: int)
    requires PortRules(t) && m in t.mappings && NeedsLease(t, t.mappings[m], Some(p))
    ensures !Rerequests(t, m, Some(p))
  {
  }

  /** One update keeps every mapping's ports leased iff it does not repeat the port of
      the mapping's own pending lease. */
  lemma UpdateKeepsLeasedIff(t: Tables, m: Id, req: MappingRequest, port: Option<int>, k: RecordKey)
    requires PortRules(t) && AllLeased(t) && m in t.mappings
    ensures AllLeased(Updated(t, m, req, port, k)) <==> !Rerequests(t, m, port)
  {
    var t' := Updated(t, m, req, port, k);
    RevisionsAfterUpdate(t, m, req, port, k);
    UpdateKeepsActiveLeased(t, m, req, port, k);
    forall x | x in t.mappings && x != m ensures RowLeased(t', x) {
      UpdateKeepsOthersLeased(t, m, req, port, k, x);
    }
    if port.Some? {
      NewPendingHeld(t, m, req, port.value, k);
      assert PendingLeased(t'.revisions, t'.leases, m, t'.mappings[m]) <==> !Rerequests(t, m, port);
    }
    assert RowLeased(t', m) <==> !Rerequests(t, m, port);
  }

  /** Such an update leaves the port free for anyone. */
  lemma RerequestFreesPort(t: Tables, m: Id, req: MappingRequest, port: Option<int>, k: RecordKey)
    requires PortRules(t) && m in t.mappings && Rerequests(t, m, port)
    ensures !Leased(Updated(t, m, req, port, k).leases, port.value)
  {
    var t' := Updated(t, m, req, port, k);
    var l :| l in t.leases && OwnPendingLease(t, m, l) && t.leases[l].port == port.value;
    assert l !in t'.leases;
    assert !NeedsLease(t, t.mappings[m], port);
    assert forall q :: q in t'.leases ==> q in t.leases && t'.leases[q] == t.leases[q];
  }

  // ---------- creates ----------

  lemma RowStaysLeased(t: Tables, t': Tables, m: Id)
    requires m in t.mappings && Pointers(t.mappings, t.revisions) && RowLeased(t, m)
    requires m in t'.mappings && t'.mappings[m].active == t.mappings[m].active
             && t'.mappings[m].pending == t.mappings[m].pending
    requires forall r :: r in t.revisions && t.revisions[r].mapping == m ==>
               r in t'.revisions && t'.revisions[r].port == t.revisions[r].port
    requires forall l :: l in t.leases && t.leases[l].mapping == m ==> l in t'.leases && t'.leases[l] == t.leases[l]
    ensures RowLeased(t', m)
  {
    var row := t.mappings[m];
    if row.active.Some? && t.revisions[row.active.value].port.Some? {
      KeepsHolding(t.leases, t'.leases, m, t.revisions[row.active.value].port.value, true);
    }
    if row.pending.Some? && t.revisions[row.pending.value].port.Some? {
      KeepsHolding(t.leases, t'.leases, m, t.revisions[row.pending.value].port.value, false);
    }
  }

  lemma KeepsHolding(leases: map<Id, Lease>, leases': map<Id, Lease>, m: Id, port: int, activeOnly: bool)
    requires HoldsPort(leases, m, port, activeOnly)
    requires forall l :: l in leases && leases[l].mapping == m ==> l in leases' && leases'[l] == leases[l]
    ensures HoldsPort(leases', m, port, activeOnly)
  {
  }

  lemma CreateKeepsLeased(t: Tables, user: Id, req: MappingRequest, port: Option<int>, k: RecordKey)
    requires PortRules(t) && AllLeased(t)
    ensures AllLeased(Created(t, user, req, port, k))
  {
    var t' := Created(t, user, req, port, k);
    forall x | x in t.mappings ensures RowLeased(t', x) { RowStaysLeased(t, t', x); }
    if port.Some? { assert t'.leases[t.nextId + 3] == Lease(t.nextId + 1, t.nextId + 2, port.value, ActiveRole); }
  }

  // ---------- apply results ----------

  lemma SettledOtherLeased(t: Tables, user: Id, version: int, m: Id)
    requires PortRules(t) && m in t.mappings && t.mappings[m].owner != user && RowLeased(t, m)
    ensures RowLeased(Settled(t, user, version), m)
  {
    RowStaysLeased(t, Settled(t, user, version), m);
  }

  /** What was pending held its port, so it still does as the active revision. */
  lemma SettledOwnLeased(t: Tables, user: Id, version: int, m: Id)
    requires PortRules(t) && m in t.mappings && t.mappings[m].owner == user && RowLeased(t, m)
    requires t.mappings[m].lifecycle != Deleted
    ensures RowLeased(Settled(t, user, version), m)
  {
    var t' := Settled(t, user, version);
    var c := CurrentId(t.mappings[m]);
    if c.Some? && t.revisions[c.value].port.Some? {
      var p := t.revisions[c.value].port.value;
      assert HoldsPort(t.leases, m, p, false);
      var l :| l in t.leases && t.leases[l].mapping == m && t.leases[l].port == p;
      assert SurvivesApply(t.mappings[m], t.revisions, t.leases[l]);
      assert l in t'.leases && t'.leases[l].role == ActiveRole;
    }
  }

  lemma SettledKeepsLeased(t: Tables, user: Id, version: int)
    requires PortRules(t) && Lifecycles(t.mappings) && AllLeased(t)
    ensures AllLeased(Settled(t, user, version))
  {
    forall m | m in t.mappings ensures RowLeased(Settled(t, user, version), m) {
      if t.mappings[m].owner == user { SettledOwnLeased(t, user, version, m); }
      else { SettledOtherLeased(t, user, version, m); }
    }
  }

  lemma AbandonedRowLeased(t: Tables, user: Id, version: int, m: Id)
    requires PortRules(t) && m in t.mappings && RowLeased(t, m)
    ensures RowLeased(Abandoned(t, user, version), m)
  {
    var t' := Abandoned(t, user, version);
    var row := t.mappings[m];
    if row.owner != user {
      RowStaysLeased(t, t', m);
    } else {
      AbandonedKeepsActiveLeases(t, user, version, m);
      assert t'.mappings[m].active == row.active && t'.mappings[m].pending.None?;
    }
  }

  lemma AbandonedKeepsActiveLeases(t: Tables, user: Id, version: int, m: Id)
    requires PortRules(t) && m in t.mappings && ActiveLeased(t.revisions, t.leases, m, t.mappings[m])
    ensures var t' := Abandoned(t, user, version); ActiveLeased(t'.revisions, t'.leases, m, t.mappings[m])
  {
    var t', row := Abandoned(t, user, version), t.mappings[m];
    if row.active.Some? && t.revisions[row.active.value].port.Some? {
      var p := t.revisions[row.active.value].port.value;
      var l :| l in t.leases && t.leases[l].mapping == m && t.leases[l].port == p && t.leases[l].role == ActiveRole;
      assert l in t'.leases && t'.leases[l] == t.leases[l];
    }
  }

  lemma AbandonedKeepsLeased(t: Tables, user: Id, version: int)
    requires PortRules(t) && AllLeased(t)
    ensures AllLeased(Abandoned(t, user, version))
  {
    forall m | m in t.mappings ensures RowLeased(Abandoned(t, user, version), m) {
      AbandonedRowLeased(t, user, version, m);
    }
  }

  lemma ApplyKeepsLeased(t: Tables, who: AuthContext, req: ApplyRequest)
    requires PortRules(t) && Lifecycles(t.mappings) && AllLeased(t)
    ensures AllLeased(ApplyResult(t, who, req).0)
  {
    if req.status == ApplySucceeded { SettledKeepsLeased(t, who.user, req.version); }
    else { AbandonedKeepsLeased(t, who.user, req.version); }
  }

  // ---------- everything else ----------

  lemma QuietKeepsLeased(t: Tables, t': Tables)
    requires QuietStep(t, t') && Pointers(t.mappings, t.revisions) && AllLeased(t)
    ensures AllLeased(t')
  {
    forall m | m in t'.mappings ensures RowLeased(t', m) { RowStaysLeased(t, t', m); }
  }

  lemma DecayKeepsLeased(t: Tables, t': Tables)
    requires RowsDecay(t, t') && Pointers(t.mappings, t.revisions) && AllLeased(t)
    ensures AllLeased(t')
  {
    forall m | m in t'.mappings ensures RowLeased(t', m) { RowStaysLeased(t, t', m); }
  }

  /** What an update that needs no new lease has to pass to take effect. */
  predicate UpdateAccepted(t: Tables, cfg: Config, who: AuthContext, m: Id, req: MappingRequest, key: Option<string>) {
    && ValidRequest(req)
    && RecordKey(who.user, who.generation, UpdateMappingAt(m), KeyOf(key, t.nextId)) !in t.records
    && UpdateRefusal(t, cfg, who.user, m, req).None? && m in t.mappings
    && Storable(RequestedPort(t, t.mappings[m], req))
  }

  /** The step is an update that is accepted and asks again for its own pending port. */
  predicate RerequestsOwnPort(t: Tables, cfg: Config, op: Op) {
    && op.UpdateMappingOp? && UpdateAccepted(t, cfg, op.who, op.mapping, op.mappingReq, op.key)
    && Rerequests(t, op.mapping, RequestedPort(t, t.mappings[op.mapping], op.mappingReq))
  }

  lemma PortRulesHold(t: Tables)
    requires Inv(t)
    ensures PortRules(t) && Lifecycles(t.mappings)
  {
    InvMeans(t);
  }

  /** A request that repeats the pending port takes effect iff it is accepted. */
  lemma RerequestTakesEffectIff(t: Tables, cfg: Config, who: AuthContext, m: Id, req: MappingRequest,
                                key: Option<string>)
    requires PortRules(t) && m in t.mappings && Rerequests(t, m, RequestedPort(t, t.mappings[m], req))
    ensures UpdateMapping(t, cfg, who, m, req, key).0 != t <==> UpdateAccepted(t, cfg, who, m, req, key)
    ensures UpdateAccepted(t, cfg, who, m, req, key) ==> UpdateMapping(t, cfg, who, m, req, key).1.Ok?
  {
    var port := RequestedPort(t, t.mappings[m], req);
    if NeedsLease(t, t.mappings[m], port) { PendingLeaseIsCurrent(t, m, port.value); }
  }

  lemma UpdateOpKeepsLeasedIff(t: Tables, cfg: Config, op: Op)
    requires PortRules(t) && AllLeased(t) && op.UpdateMappingOp?
    ensures AllLeased(Exec(t, cfg, op).0) <==> !RerequestsOwnPort(t, cfg, op)
  {
    var m, req := op.mapping, op.mappingReq;
    assert Exec(t, cfg, op).0 == UpdateMapping(t, cfg, op.who, m, req, op.key).0;
    UpdateKeepsAllIff(t, cfg, op.who, m, req, op.key);
  }

  lemma UpdateKeepsAllIff(t: Tables, cfg: Config, who: AuthContext, m: Id, req: MappingRequest, key: Option<string>)
    requires PortRules(t) && AllLeased(t)
    ensures AllLeased(UpdateMapping(t, cfg, who, m, req, key).0)
            <==> !(UpdateAccepted(t, cfg, who, m, req, key) && Rerequests(t, m, RequestedPort(t, t.mappings[m], req)))
  {
    var k := RecordKey(who.user, who.generation, UpdateMappingAt(m), KeyOf(key, t.nextId));
    if m in t.mappings {
      var port := RequestedPort(t, t.mappings[m], req);
      UpdateKeepsLeasedIff(t, m, req, port, k);
      if Rerequests(t, m, port) { RerequestTakesEffectIff(t, cfg, who, m, req, key); }
    }
  }

  lemma CreateOpKeepsLeased(t: Tables, cfg: Config, op: Op)
    requires PortRules(t) && AllLeased(t) && op.CreateMappingOp?
    ensures AllLeased(Exec(t, cfg, op).0)
  {
    if Exec(t, cfg, op).0 != t {
      CreateKeepsLeased(t, op.who.user, op.mappingReq, ChosenPort(t, cfg, op.mappingReq),
                        RecordKey(op.who.user, op.who.generation, CreateMappingAt, KeyOf(op.key, t.nextId)));
    }
  }

  /** One step keeps all ports leased iff it is no such update. */
  lemma StepKeepsLeasedIff(t: Tables, cfg: Config, op: Op)
    requires Inv(t) && AllLeased(t)
    ensures AllLeased(Exec(t, cfg, op).0) <==> !RerequestsOwnPort(t, cfg, op)
  {
    PortRulesHold(t);
    if op.UpdateMappingOp? { UpdateOpKeepsLeasedIff(t, cfg, op); }
    else if op.CreateMappingOp? { CreateOpKeepsLeased(t, cfg, op); }
    else if op.ApplyOp? { ApplyKeepsLeased(t, op.who, op.applyReq); }
    else if IsCleanup(op) {
      CleanupDecays(t, cfg, op);
      DecayKeepsLeased(t, Exec(t, cfg, op).0);
    } else {
      InvUsers(t);
      OtherOpsAreQuiet(t, cfg, op);
      if Exec(t, cfg, op).0 != t { QuietKeepsLeased(t, Exec(t, cfg, op).0); }
    }
  }

  // ---------- runs ----------

  ghost predicate LeasedThroughout(t: Tables, cfg: Config, ops: seq<Op>)
    decreases |ops|
  {
    AllLeased(t) && (ops == [] || LeasedThroughout(Exec(t, cfg, ops[0]).0, cfg, ops[1..]))
  }

  ghost predicate NeverRerequests(t: Tables, cfg: Config, ops: seq<Op>)
    decreases |ops|
  {
    ops == [] || (!RerequestsOwnPort(t, cfg, ops[0]) && NeverRerequests(Exec(t, cfg, ops[0]).0, cfg, ops[1..]))
  }

  /** All ports stay leased in every state of a run iff no step of it is such an update. */
  lemma {:induction false} LeasedThroughoutIff(t: Tables, cfg: Config, ops: seq<Op>)
    requires Inv(t) && AllLeased(t)
    ensures LeasedThroughout(t, cfg, ops) <==> NeverRerequests(t, cfg, ops)
    ensures LeasedThroughout(t, cfg, ops) ==> AllLeased(Run(t, cfg, ops))
    decreases |ops|
  {
    if ops != [] {
      StepKeepsLeasedIff(t, cfg, ops[0]);
      if AllLeased(Exec(t, cfg, ops[0]).0) {
        ExecKeepsInv(t, cfg, ops[0]);
        LeasedThroughoutIff(Exec(t, cfg, ops[0]).0, cfg, ops[1..]);
      }
    }
  }

  /** r is the active or the pending revision of m, and has port p. */
  predicate Uses(t: Tables, m: Id, p: int) {
    && m in t.mappings
    && ((t.mappings[m].active.Some? && t.mappings[m].active.value in t.revisions
         && t.revisions[t.mappings[m].active.value].port == Some(p))
        || (t.mappings[m].pending.Some? && t.mappings[m].pending.value in t.revisions
            && t.revisions[t.mappings[m].pending.value].port == Some(p)))
  }

  lemma UsersHoldPorts(t: Tables, m: Id, p: int)
    requires AllLeased(t) && Uses(t, m, p)
    ensures HoldsPort(t.leases, m, p, false)
  {
    assert RowLeased(t, m);
  }

  /** From the initial state, in every run without such an update, no two mappings of
      any users have the same active or pending port. */
  lemma NoSharedPorts(password: string, cfg: Config, ops: seq<Op>, m: Id, n: Id, p: int)
    requires NeverRerequests(Initial(password), cfg, ops)
    requires var t := Run(Initial(password), cfg, ops); Uses(t, m, p) && Uses(t, n, p)
    ensures m == n
  {
    var t := Run(Initial(password), cfg, ops);
    InitialInv(password);
    RunKeepsInv(Initial(password), cfg, ops);
    PortRulesHold(t);
    LeasedThroughoutIff(Initial(password), cfg, ops);
    UsersHoldPorts(t, m, p);
    UsersHoldPorts(t, n, p);
  }
}
