/** How two mappings come to share a port: one repeats the port it is waiting for, and the
    port is then free for the other. */
module SharedPort {
  import opened Wrappers
  import opened Schema
  import opened Mappings
  import opened MappingInvariants
  import opened Identity
  import opened Service
  import opened Invariants
  import opened Leasing
  import opened Witnesses

  // ---------- in general ----------

  /** Everything that a create checks but the lease. */
  predicate CreateAccepted(t: Tables, cfg: Config, who: AuthContext, req: MappingRequest, key: Option<string>) {
    && ValidRequest(req) && RecordKey(who.user, who.generation, CreateMappingAt, KeyOf(key, t.nextId)) !in t.records
    && CreateRefusal(t, cfg, who.user, req).None? && Storable(ChosenPort(t, cfg, req))
  }

  lemma CreateKeepsUses(t: Tables, user: Id, req: MappingRequest, p: int, k: RecordKey, m: Id)
    requires Uses(t, m, p) && m != t.nextId + 1 && t.nextId + 2 !in t.revisions
    ensures var t' := Created(t, user, req, Some(p), k); Uses(t', m, p) && Uses(t', t.nextId + 1, p)
  {
  }

  lemma FreePortIsTaken(t: Tables, cfg: Config, who: AuthContext, req: MappingRequest, key: Option<string>, p: int,
                        m: Id)
    requires CreateAccepted(t, cfg, who, req, key) && ChosenPort(t, cfg, req) == Some(p) && !Leased(t.leases, p)
    requires Uses(t, m, p) && m != t.nextId + 1 && t.nextId + 2 !in t.revisions
    ensures var (t', r) := CreateMapping(t, cfg, who, req, key); r.Ok? && Uses(t', m, p) && Uses(t', t.nextId + 1, p)
  {
    CreateKeepsUses(t, who.user, req, p, RecordKey(who.user, who.generation, CreateMappingAt, KeyOf(key, t.nextId)), m);
  }

  lemma RerequestLeaves(t: Tables, m: Id, req: MappingRequest, p: int, k: RecordKey)
    requires PortRules(t) && m in t.mappings && Rerequests(t, m, Some(p))
    ensures var t1 := Updated(t, m, req, Some(p), k);
            !Leased(t1.leases, p) && Uses(t1, m, p) && m != t1.nextId + 1 && t1.nextId + 2 !in t1.revisions
  {
    RerequestFreesPort(t, m, req, Some(p), k);
    RevisionsAfterUpdate(t, m, req, Some(p), k);
  }

  lemma AcceptedRerequestIs(t: Tables, cfg: Config, who: AuthContext, m: Id, req: MappingRequest, key: Option<string>)
    requires PortRules(t) && UpdateAccepted(t, cfg, who, m, req, key)
    requires Rerequests(t, m, RequestedPort(t, t.mappings[m], req))
    ensures UpdateMapping(t, cfg, who, m, req, key).0
            == Updated(t, m, req, RequestedPort(t, t.mappings[m], req),
                       RecordKey(who.user, who.generation, UpdateMappingAt(m), KeyOf(key, t.nextId)))
  {
    RerequestTakesEffectIff(t, cfg, who, m, req, key);
  }

  /** After an accepted update that repeats its own pending port, a create of anyone who is
      within the quotas gets that port, and two mappings use it. */
  lemma RerequestSharesPort(t: Tables, cfg: Config, who: AuthContext, m: Id, req: MappingRequest, key: Option<string>,
                            t1: Tables, other: AuthContext, created: MappingRequest, otherKey: Option<string>, p: int)
    requires t1 == UpdateMapping(t, cfg, who, m, req, key).0
    requires PortRules(t) && UpdateAccepted(t, cfg, who, m, req, key)
    requires RequestedPort(t, t.mappings[m], req) == Some(p) && Rerequests(t, m, Some(p))
    requires CreateAccepted(t1, cfg, other, created, otherKey) && ChosenPort(t1, cfg, created) == Some(p)
    ensures var (t2, r) := CreateMapping(t1, cfg, other, created, otherKey);
            r.Ok? && m != t1.nextId + 1 && Uses(t2, m, p) && Uses(t2, t1.nextId + 1, p)
  {
    var k := RecordKey(who.user, who.generation, UpdateMappingAt(m), KeyOf(key, t.nextId));
    AcceptedRerequestIs(t, cfg, who, m, req, key);
    RerequestLeavesFree(t, m, req, p, k, t1);
    FreePortIsTaken(t1, cfg, other, created, otherKey, p, m);
  }

  lemma RerequestLeavesFree(t: Tables, m: Id, req: MappingRequest, p: int, k: RecordKey, t1: Tables)
    requires PortRules(t) && m in t.mappings && Rerequests(t, m, Some(p)) && t1 == Updated(t, m, req, Some(p), k)
    ensures !Leased(t1.leases, p) && Uses(t1, m, p) && m != t1.nextId + 1 && t1.nextId + 2 !in t1.revisions
  {
    RerequestLeaves(t, m, req, p, k);
  }

  // ---------- in particular ----------

  const EXAMPLE_CONFIG := Config(20000, 20100, 7000, 3600)

  /** User 1 has mapping 3 running on port 20000 and waiting to move to port 20001;
      user 2 has nothing. */
  function BeforeRerequest(): Tables {
    Initial("").(
      nextId := 100,
      users := People(Ann().(desired := 2, applied := 1), Bob()),
      mappings := map[3 := Mapping(1, "web", Tcp, PendingApply, true, ObservedRunning, Some(4), Some(5))],
      revisions := map[4 := Revision(3, 1, "127.0.0.1", 80, Some(20000), Active),
                       5 := Revision(3, 2, "127.0.0.1", 80, Some(20001), Pending)],
      leases := map[6 := Lease(3, 4, 20000, ActiveRole), 7 := Lease(3, 5, 20001, PendingRole)])
  }

  function PortRequest(port: int): MappingRequest {
    MappingRequest("web", Tcp, "127.0.0.1", 81, Some(port), true, None, None)
  }

  lemma ExampleLeaseRules()
    ensures var t := BeforeRerequest(); LeaseRules(t.mappings, t.revisions, t.leases)
  {
    var t := BeforeRerequest();
    assert LeasesDistinct(t.leases) by {
      assert t.leases[6].port != t.leases[7].port && t.leases[6].role != t.leases[7].role;
      assert forall l :: l in t.leases ==> l == 6 || l == 7;
    }
    assert LeasesAnchored(t.mappings, t.revisions, t.leases);
  }

  lemma ExampleNumbered()
    ensures var t := BeforeRerequest(); Numbered(t.mappings, t.revisions) && DistinctNumbers(t.revisions)
  {
    var t := BeforeRerequest();
    assert Numbers(t.revisions, 3) == {1, 2} by {
      assert t.revisions[4].number == 1 && t.revisions[5].number == 2;
      assert forall r :: r in t.revisions ==> r == 4 || r == 5;
    }
    assert UpTo(2) == {1, 2} && Largest({1, 2}) == 2;
    assert NumberedFromOne(t.revisions, 3, Some(5));
  }

  lemma ExampleStatuses()
    ensures var t := BeforeRerequest();
            Pointers(t.mappings, t.revisions) && Statuses(t.mappings, t.revisions) && Parents(t.mappings, t.revisions)
  {
  }

  lemma ExampleSides()
    ensures SideRules(BeforeRerequest())
  {
  }

  lemma ExampleAccounts()
    ensures AuthInv(BeforeRerequest()) && DomainInv(BeforeRerequest())
  {
    PeopleDiffer(Ann().(desired := 2, applied := 1), Bob());
    NobodyLoggedIn(BeforeRerequest());
    NothingBound(BeforeRerequest());
  }

  lemma ExampleInv(t: Tables)
    requires t == BeforeRerequest()
    ensures Inv(t) && PortRules(t)
  {
    ExampleLeaseRules();
    ExampleNumbered();
    ExampleStatuses();
    ExampleSides();
    ExampleAccounts();
    MakeInv(t);
  }

  lemma ExampleLeased()
    ensures AllLeased(BeforeRerequest())
  {
    var t := BeforeRerequest();
    assert HoldsPort(t.leases, 3, 20000, true) by { assert t.leases[6].port == 20000; }
    assert HoldsPort(t.leases, 3, 20001, false) by { assert t.leases[7].port == 20001; }
  }

  lemma ExampleAccepted(t: Tables)
    requires t == BeforeRerequest()
    ensures UpdateAccepted(t, EXAMPLE_CONFIG, AuthContext(1, false, 1, 0), 3, PortRequest(20001), None)
    ensures RequestedPort(t, t.mappings[3], PortRequest(20001)) == Some(20001) && Rerequests(t, 3, Some(20001))
  {
    assert OwnPendingLease(t, 3, 7) && t.leases[7].port == 20001;
  }

  /** A sound state and an accepted update of one user, after which a pending port has no
      lease. */
  lemma RerequestExample(t: Tables)
    requires t == BeforeRerequest()
    ensures var (t', r) := UpdateMapping(t, EXAMPLE_CONFIG, AuthContext(1, false, 1, 0), 3, PortRequest(20001), None);
            Inv(t) && AllLeased(t) && r.Ok? && !AllLeased(t')
  {
    ExampleInv(t);
    ExampleLeased();
    ExampleAccepted(t);
    RerequestTakesEffectIff(t, EXAMPLE_CONFIG, AuthContext(1, false, 1, 0), 3, PortRequest(20001), None);
    UpdateKeepsAllIff(t, EXAMPLE_CONFIG, AuthContext(1, false, 1, 0), 3, PortRequest(20001), None);
  }

  lemma NewcomerAccepted(t: Tables, cfg: Config, who: AuthContext, req: MappingRequest)
    requires who.user in t.users && t.users[who.user].status == ActiveUser
    requires forall m :: m in t.mappings ==> t.mappings[m].owner != who.user
    requires var u := t.users[who.user]; u.maxMappings > 0 && u.maxPendingMappings > 0 && u.maxPendingPorts > 0
    requires ValidRequest(req) && req.proxyType == Tcp && req.expectedVersion.None? && req.remotePort.Some?
    requires cfg.portStart <= req.remotePort.value <= cfg.portEnd && req.remotePort.value != cfg.bindPort
    requires req.remotePort.value != 0 && forall k :: k in t.records ==> k.user != who.user
    ensures CreateAccepted(t, cfg, who, req, None) && ChosenPort(t, cfg, req) == req.remotePort
  {
    assert OwnMappings(t, who.user) == {} && AwaitingMappings(t, who.user) == {}
           && PendingPortLeases(t, who.user) == {};
  }

  lemma BobAccepted(t: Tables, t1: Tables, k: RecordKey)
    requires t == BeforeRerequest() && k.user == 1 && t1 == Updated(t, 3, PortRequest(20001), Some(20001), k)
    ensures CreateAccepted(t1, EXAMPLE_CONFIG, AuthContext(2, false, 1, 0), PortRequest(20001), None)
    ensures ChosenPort(t1, EXAMPLE_CONFIG, PortRequest(20001)) == Some(20001)
  {
    assert t1.users[2] == t.users[2];
    assert forall m :: m in t1.mappings ==> m == 3 && t1.mappings[m].owner == 1;
    assert forall q :: q in t1.records ==> q == k;
    NewcomerAccepted(t1, EXAMPLE_CONFIG, AuthContext(2, false, 1, 0), PortRequest(20001));
  }

  /** There Bob asks for the port that Ann waits for, and gets it. */
  lemma SharedPortExample(t: Tables, t1: Tables)
    requires t == BeforeRerequest()
    requires t1 == UpdateMapping(t, EXAMPLE_CONFIG, AuthContext(1, false, 1, 0), 3, PortRequest(20001), None).0
    ensures var (t2, r) := CreateMapping(t1, EXAMPLE_CONFIG, AuthContext(2, false, 1, 0), PortRequest(20001), None);
            r.Ok? && t1.nextId + 1 != 3 && Uses(t2, 3, 20001) && Uses(t2, t1.nextId + 1, 20001)
  {
    var ann, bob, req := AuthContext(1, false, 1, 0), AuthContext(2, false, 1, 0), PortRequest(20001);
    ExampleInv(t);
    ExampleAccepted(t);
    AcceptedRerequestIs(t, EXAMPLE_CONFIG, ann, 3, req, None);
    BobAccepted(t, t1, RecordKey(1, 1, UpdateMappingAt(3), Minted(100)));
    RerequestSharesPort(t, EXAMPLE_CONFIG, ann, 3, req, None, t1, bob, req, None, 20001);
  }
}
