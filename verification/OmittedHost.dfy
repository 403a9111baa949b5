/** Where the proxies that FRPS accepts and the configuration disagree: the hostname of a
    domain that is being deleted stays authorised, although no configuration lists it. */
module OmittedHost {
  import opened Wrappers
  import opened Schema
  import opened Mappings
  import opened MappingInvariants
  import opened Identity
  import opened Domains
  import opened Service
  import opened Invariants
  import opened ConfigAgreement
  import opened Witnesses

  // ---------- in general ----------

  ghost predicate DeletionTakesEffect(t: Tables, who: AuthContext, d: Id, key: Option<string>) {
    && d in t.domains && t.domains[d].owner == who.user && t.domains[d].status != DeletedDomain && who.user in t.users
    && RecordKey(who.user, who.generation, DeleteDomainAt(d), KeyOf(key, t.nextId)) !in t.records
  }

  lemma HostsAfterDeletion(t: Tables, t': Tables, d: Id, user: Id, m: Id, h: string)
    requires d in t.domains && t.domains[d].status != DeletedDomain
    requires t'.domains == t.domains[d := t.domains[d].(status := DeletingDomain)]
    ensures Hosts(t', user, m, h) <==> Hosts(t, user, m, h)
  {
    if Hosts(t, user, m, h) {
      var e :| e in t.domains && t.domains[e].hostname == h && t.domains[e].owner == user
               && t.domains[e].mapping == m && t.domains[e].status != DeletedDomain;
      assert e in t'.domains && t'.domains[e].status != DeletedDomain;
    }
  }

  /** Asking for a domain's deletion changes no verdict on any proxy. */
  lemma DeletionKeepsVerdicts(t: Tables, who: AuthContext, d: Id, key: Option<string>, req: FrpRequest)
    requires DeletionTakesEffect(t, who, d, key)
    ensures ProxyVerdict(DeleteDomain(t, who, d, key).0, req) == ProxyVerdict(t, req)
  {
    var t' := DeleteDomain(t, who, d, key).0;
    HostsAfterDeletion(t, t', d, req.user, req.mapping, req.hostname);
    SameVerdict(t, t', req);
  }

  lemma SameVerdict(t: Tables, t': Tables, req: FrpRequest)
    requires t'.mappings == t.mappings && t'.revisions == t.revisions
    requires Hosts(t', req.user, req.mapping, req.hostname) <==> Hosts(t, req.user, req.mapping, req.hostname)
    ensures ProxyVerdict(t', req) == ProxyVerdict(t, req)
  {
  }

  /** But it takes the hostname out of every configuration. */
  lemma DeletionHidesHost(t: Tables, who: AuthContext, d: Id, key: Option<string>, page: seq<Id>, m: Id)
    requires DomainInv(t) && DeletionTakesEffect(t, who, d, key)
    requires forall e :: e in page ==> e in t.domains
    ensures t.domains[d].hostname !in HostsOf(DeleteDomain(t, who, d, key).0.domains, page, m)
  {
    HostsOfExactly(DeleteDomain(t, who, d, key).0.domains, page, m, t.domains[d].hostname);
  }

  /** In every sound state, no configuration names the hostname of an accepted request iff
      its domain is leaving or beyond the listed page. */
  lemma OmittedIff(t: Tables, domainPage: seq<Id>, req: FrpRequest)
    requires Inv(t) && ProxyVerdict(t, req) == Accepted && req.hostname != ""
             && (forall d :: d in domainPage ==> d in t.domains)
    ensures req.hostname !in HostsOf(t.domains, domainPage, req.mapping)
            <==> HiddenHost(t, req.user, domainPage, req.mapping, req.hostname)
  {
    FactsOnRow(t, domainPage, req);
    if HiddenHost(t, req.user, domainPage, req.mapping, req.hostname) { HiddenIsOmitted(t, domainPage, req); }
  }

  /** Hostnames are unique. */
  lemma HiddenIsOmitted(t: Tables, domainPage: seq<Id>, req: FrpRequest)
    requires Inv(t) && forall d :: d in domainPage ==> d in t.domains
    requires HiddenHost(t, req.user, domainPage, req.mapping, req.hostname)
    ensures req.hostname !in HostsOf(t.domains, domainPage, req.mapping)
  {
    InvMeans(t);
    HostsOfExactly(t.domains, domainPage, req.mapping, req.hostname);
  }

  // ---------- in particular ----------

  /** User 1 is logged in with a client; its domain 4 is on the running mapping 2. */
  function Serving(): Tables {
    Initial("").(
      nextId := 100,
      users := People(Ann(), Bob()),
      sessions := map[10 := Session(1, 11, ClientPanel, 1, 3600, 3600, false)],
      credentials := Initial("").credentials[1 := FrpCredential(12, 1)],
      runtimes := map[13 := RuntimeCredential(1, 10, 1, 14, 3600, false)],
      mappings := map[2 := Mapping(1, "web", Http, Running, true, ObservedRunning, Some(3), None)],
      revisions := map[3 := Revision(2, 1, "127.0.0.1", 80, None, Active)],
      domains := map[4 := Domain(1, 2, "www.example.com", HttpOnly, ActiveDomain)])
  }

  const REQUEST := FrpRequest(NewProxy, 1, 14, Some(12), 1, 2, 1, 0, Some(Http), "www.example.com")

  lemma ServingRevisions()
    ensures RevisionRules(Serving().mappings, Serving().revisions)
  {
    OneRunning(Serving().mappings, Serving().revisions, 2, 3);
  }

  lemma ServingSides()
    ensures LeaseRules(Serving().mappings, Serving().revisions, Serving().leases) && SideRules(Serving())
  {
    NothingLeased(Serving());
    SidesOfOne(Serving(), Ann(), Bob(), 2, 3);
  }

  lemma ServingAccounts(t: Tables)
    requires t == Serving()
    ensures AuthInv(t)
  {
    PeopleDiffer(Ann(), Bob());
    OneOfEach(t, 1, 10, 13);
  }

  lemma OneOfEach(t: Tables, u: Id, s: Id, r: Id)
    requires UsernamesDistinct(t.users) && u in t.users && t.sessions.Keys == {s} && t.runtimes.Keys == {r}
    requires s < t.nextId && r < t.nextId && t.sessions[s].token < t.nextId && t.runtimes[r].token < t.nextId
    requires t.sessions[s].user == u && t.sessions[s].channel == ClientPanel && t.runtimes[r].user == u
    requires t.runtimes[r].session == s && t.sessions[s].generation == t.runtimes[r].generation <= t.users[u].generation
    ensures AuthInv(t)
  {
    assert forall q :: q in t.sessions.Keys <==> q == s;
    assert forall q :: q in t.runtimes.Keys <==> q == r;
  }

  lemma ServingDomains(t: Tables)
    requires t == Serving()
    ensures DomainInv(t)
  {
  }

  lemma ServingInv()
    ensures Inv(Serving())
  {
    ServingRevisions();
    ServingSides();
    ServingAccounts(Serving());
    ServingDomains(Serving());
    MakeInv(Serving());
  }

  lemma OnlyRuntime(t: Tables, req: FrpRequest, r: Id)
    requires LiveRuntime(t, req, r) && forall q :: q in t.runtimes ==> q == r
    requires CredentialVerdict(t, req, r, 0) == Accepted && req.operation == NewProxy
    ensures AuthorizeFRP(t, req, 0) == ProxyVerdict(t, req)
  {
  }

  lemma ServingAccepts(t: Tables)
    requires t == Serving()
    ensures ProxyVerdict(t, REQUEST) == Accepted
  {
    assert t.domains[4].hostname == "www.example.com";
  }

  lemma StillLoggedIn(t: Tables, t': Tables)
    requires t == Serving() && t' == DeleteDomain(t, AuthContext(1, false, 1, 10), 4, None).0
    ensures LiveRuntime(t', REQUEST, 13) && CredentialVerdict(t', REQUEST, 13, 0) == Accepted
    ensures t'.runtimes == t.runtimes
  {
  }

  /** After the owner has asked for the deletion of the domain, its proxy is still let
      open; no configuration of that state tells the client to. */
  lemma OmittedHostExample(t: Tables, t': Tables, domainRows: seq<Id>)
    requires t == Serving() && t' == DeleteDomain(t, AuthContext(1, false, 1, 10), 4, None).0
    requires Lists(domainRows, OwnDomains(t', 1))
    ensures Inv(t) && (forall d :: d in Page(domainRows) ==> d in t'.domains)
    ensures AuthorizeFRP(t', REQUEST, 0) == Accepted
    ensures "www.example.com" !in HostsOf(t'.domains, Page(domainRows), 2)
  {
    var who := AuthContext(1, false, 1, 10);
    ServingInv();
    ServingAccepts(t);
    DeletionKeepsVerdicts(t, who, 4, None, REQUEST);
    StillLoggedIn(t, t');
    OnlyRuntime(t', REQUEST, 13);
    assert forall d :: d in Page(domainRows) ==> d in domainRows;
    ServingDomains(t);
    DeletionHidesHost(t, who, 4, None, Page(domainRows), 2);
  }
}
