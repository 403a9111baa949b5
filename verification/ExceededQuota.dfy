/** Three ways in which users come to exceed a quota, and two in which a mapping comes to the
    port that FRPS itself listens on. */
module ExceededQuota {
  import opened Wrappers
  import opened Schema
  import opened Mappings
  import opened MappingInvariants
  import opened Identity
  import opened Service
  import opened Invariants
  import opened Witnesses
  import opened Leasing
  import opened Quotas

  /** The range includes the port that FRPS listens on. */
  const CONFIG := Config(7000, 7100, 7000, 3600)

  /** User 1 may lease one port for what is pending, and user 2 none. Mapping 3 of user 1
      runs on port 7001. */
  function AtLimit(waiting: int): Tables {
    Initial("").(
      nextId := 100,
      users := People(Ann().(maxPendingMappings := waiting, maxPendingPorts := 1), Bob().(maxPendingPorts := 0)),
      mappings := map[3 := Mapping(1, "web", Tcp, Running, true, ObservedRunning, Some(4), None)],
      revisions := map[4 := Revision(3, 1, "127.0.0.1", 80, Some(7001), Active)],
      leases := map[5 := Lease(3, 4, 7001, ActiveRole)])
  }

  const ANN := AuthContext(1, false, 1, 0)
  const BOB := AuthContext(2, false, 1, 0)

  function PortOf(proxyType: ProxyType, port: int): MappingRequest {
    MappingRequest("web", proxyType, "127.0.0.1", 80, Some(port), true, None, None)
  }

  lemma AtLimitLeases(t: Tables, waiting: int)
    requires t == AtLimit(waiting)
    ensures LeaseRules(t.mappings, t.revisions, t.leases)
  {
    assert forall l :: l in t.leases.Keys <==> l == 5;
  }

  lemma AtLimitInv(t: Tables, waiting: int)
    requires t == AtLimit(waiting)
    ensures Inv(t)
  {
    var ann, bob := Ann().(maxPendingMappings := waiting, maxPendingPorts := 1), Bob().(maxPendingPorts := 0);
    OneRunning(t.mappings, t.revisions, 3, 4);
    AtLimitLeases(t, waiting);
    SidesOfOne(t, ann, bob, 3, 4);
    PeopleDiffer(ann, bob);
    NobodyLoggedIn(t);
    NothingBound(t);
    MakeInv(t);
  }

  lemma AtLimitHolds(t: Tables, waiting: int)
    requires t == AtLimit(waiting)
    ensures forall u :: PendingPortLeases(t, u) == {} && AwaitingMappings(t, u) == {}
    ensures OwnMappings(t, 2) == {} && ActiveLeasesOf(t, 3) == {5} && PendingLeasesOf(t, 3) == {}
  {
    assert t.leases[5].role == ActiveRole && t.leases[5].mapping == 3;
  }

  lemma HttpPortOverdraws(t: Tables)
    requires t == AtLimit(10)
    ensures CreateOverdraws(t, CONFIG, BOB, PortOf(Http, 7000), None) && !Leased(t.leases, 7000)
  {
    AtLimitHolds(t, 10);
  }

  lemma WithinAtFirst(t: Tables, waiting: int, u: Id)
    requires t == AtLimit(waiting) && waiting >= 0 && (u == 1 || u == 2)
    ensures PortsWithin(t, u) && AwaitingWithin(t, u)
  {
    AtLimitHolds(t, waiting);
  }

  /** An HTTP mapping that asks for a port gets it beyond the quota, out of the port that
      FRPS listens on. */
  lemma HttpPortExample(t: Tables)
    requires t == AtLimit(10)
    ensures var (t', r) := CreateMapping(t, CONFIG, BOB, PortOf(Http, 7000), None);
            && Inv(t) && PortsWithin(t, 2) && r.Ok? && !PortsWithin(t', 2) && Leased(t'.leases, CONFIG.bindPort)
  {
    AtLimitInv(t, 10);
    WithinAtFirst(t, 10, 2);
    HttpPortOverdraws(t);
    CreatePassesQuota(t, CONFIG, BOB, PortOf(Http, 7000), None);
    LeasesBindPortIff(t, CONFIG, BOB, PortOf(Http, 7000), None);
  }

  lemma CreatePassesQuota(t: Tables, cfg: Config, who: AuthContext, req: MappingRequest, key: Option<string>)
    requires Inv(t) && PortsWithin(t, who.user) && CreateOverdraws(t, cfg, who, req, key)
    ensures var (t', r) := CreateMapping(t, cfg, who, req, key); r.Ok? && !PortsWithin(t', who.user)
  {
    LeaseFactsHold(t);
    CreateEffect(t, cfg, who, req, key);
    CreatedKeepsIff(t, cfg, who, req, key, RecordKey(who.user, who.generation, CreateMappingAt, KeyOf(key, t.nextId)));
  }

  lemma UpdatePassesQuota(t: Tables, cfg: Config, who: AuthContext, m: Id, req: MappingRequest, key: Option<string>)
    requires Inv(t) && PortsWithin(t, who.user) && UpdateOverdraws(t, cfg, who, m, req, key)
    ensures var (t', r) := UpdateMapping(t, cfg, who, m, req, key); r.Ok? && !PortsWithin(t', who.user)
  {
    LeaseFactsHold(t);
    UpdateEffect(t, cfg, who, m, req, key);
    UpdatedPortsIff(t, cfg, who, m, req, key,
                    RecordKey(who.user, who.generation, UpdateMappingAt(m), KeyOf(key, t.nextId)));
  }

  lemma UpdateLeasesNewPort(t: Tables, cfg: Config, who: AuthContext, m: Id, req: MappingRequest, key: Option<string>)
    requires UpdateTakesEffect(t, cfg, who, m, req, key)
    requires var port := RequestedPort(t, t.mappings[m], req); NeedsLease(t, t.mappings[m], port)
    ensures Leased(UpdateMapping(t, cfg, who, m, req, key).0.leases, RequestedPort(t, t.mappings[m], req).value)
  {
    var t', port := UpdateMapping(t, cfg, who, m, req, key).0, RequestedPort(t, t.mappings[m], req);
    UpdateEffect(t, cfg, who, m, req, key);
    assert t'.leases[t.nextId + 2].port == port.value;
  }

  lemma MoveOverdraws(t: Tables, req: MappingRequest)
    requires t == AtLimit(10) && req == PortOf(Tcp, 7000)
    ensures UpdateOverdraws(t, CONFIG, ANN, 3, req, None) && UpdateTakesEffect(t, CONFIG, ANN, 3, req, None)
    ensures RequestedPort(t, t.mappings[3], req) == Some(7000) && NeedsLease(t, t.mappings[3], Some(7000))
  {
    AtLimitHolds(t, 10);
  }

  lemma CreateRefused(t: Tables)
    requires t == AtLimit(10)
    ensures CreateRefusal(t, CONFIG, 1, PortOf(Tcp, 7000)) == Some(PortNotAllowed)
  {
    AtLimitHolds(t, 10);
    assert OwnMappings(t, 1) == {3};
  }

  /** Moving a running mapping to a new port takes two leases where the quota allows one;
      and the new port may be the one that FRPS listens on, which no TCP create may have. */
  lemma MoveExample(t: Tables, req: MappingRequest)
    requires t == AtLimit(10) && req == PortOf(Tcp, 7000)
    ensures var (t', r) := UpdateMapping(t, CONFIG, ANN, 3, req, None);
            && Inv(t) && PortsWithin(t, 1) && r.Ok? && !PortsWithin(t', 1) && Leased(t'.leases, CONFIG.bindPort)
            && CreateRefusal(t, CONFIG, 1, req) == Some(PortNotAllowed)
  {
    AtLimitInv(t, 10);
    WithinAtFirst(t, 10, 1);
    MoveOverdraws(t, req);
    UpdatePassesQuota(t, CONFIG, ANN, 3, req, None);
    UpdateLeasesNewPort(t, CONFIG, ANN, 3, req, None);
    CreateRefused(t);
  }

  lemma EnableOverwaits(t: Tables, enable: Op)
    requires t == AtLimit(0) && enable == ToggleMappingOp(ANN, 3, true, None, None, None)
    ensures Overwaits(t, enable, 1)
  {
    AtLimitHolds(t, 0);
  }

  lemma EnableIsAcknowledged(t: Tables, cfg: Config, enable: Op)
    requires StartsToWait(t, enable)
    ensures Exec(t, cfg, enable).1 == Wrote(Ok(Acknowledged))
  {
  }

  /** Enabling a running mapping again makes it wait, whatever the quota on those. */
  lemma EnableExample(t: Tables, cfg: Config, enable: Op)
    requires t == AtLimit(0) && enable == ToggleMappingOp(ANN, 3, true, None, None, None)
    ensures Inv(t) && AwaitingWithin(t, 1) && Exec(t, cfg, enable).1 == Wrote(Ok(Acknowledged))
    ensures !AwaitingWithin(Exec(t, cfg, enable).0, 1)
  {
    AtLimitInv(t, 0);
    WithinAtFirst(t, 0, 1);
    EnableOverwaits(t, enable);
    EnableIsAcknowledged(t, cfg, enable);
    StepJudged(t, cfg, enable, 1);
  }
}
