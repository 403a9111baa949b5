/** The configuration a client is given and the proxies FRPS lets it open: FullConfig and
    authorizeFRP read the same tables through different filters, and agree. */
module ConfigAgreement {
  import opened Wrappers
  import opened Schema
  import opened Mappings
  import opened MappingInvariants
  import opened Identity
  import opened DnsSync
  import opened Domains
  import opened Invariants
  import opened MappingEffects

  datatype Entry = Entry(
    mapping: Id, name: string, proxyType: ProxyType, localIp: string, localPort: int,
    remotePort: Option<int>, revision: int, customDomains: seq<string>)

  // ---------- the configuration ----------

  /** normalizePage: an unlimited listing is cut at 200 rows. */
  const PAGE_SIZE := 200

  function Page(rows: seq<Id>): (page: seq<Id>) {
    if |rows| <= PAGE_SIZE then rows else rows[..PAGE_SIZE]
  }

  ghost predicate Lists(rows: seq<Id>, ids: set<Id>) {
    && (forall i, j :: 0 <= i < j < |rows| ==> rows[i] != rows[j])
    && (forall x :: x in rows <==> x in ids)
  }

  function OwnDomains(t: Tables, user: Id): set<Id> {
    set d | d in t.domains && t.domains[d].owner == user && t.domains[d].status != DeletedDomain
  }

  /** The hostnames of one mapping, in listing order. */
  function HostsOf(domains: map<Id, Domain>, page: seq<Id>, m: Id): (hosts: seq<string>)
    requires forall d :: d in page ==> d in domains
  {
    if page == [] then [] else Host(domains[page[0]], m) + HostsOf(domains, page[1..], m)
  }

  function Host(domain: Domain, m: Id): seq<string> {
    if domain.mapping == m && domain.status != DeletingDomain then [domain.hostname] else []
  }

  predicate Emitted(m: Mapping) { m.lifecycle != Deleting && m.enabled }

  function EntryOf(t: Tables, m: Id, hosts: seq<string>): Entry
    requires m in t.mappings
  {
    var row := t.mappings[m];
    match CurrentRevision(t, row)
    case Some(r) => Entry(m, row.name, row.proxyType, r.localIp, r.localPort, r.port, r.number, hosts)
    case None => Entry(m, row.name, row.proxyType, "", 0, None, 0, hosts)
  }

  function Entries(t: Tables, page: seq<Id>, domainPage: seq<Id>): seq<Entry>
    requires forall m :: m in page ==> m in t.mappings
    requires forall d :: d in domainPage ==> d in t.domains
  {
    if page == [] then []
    else
      (if Emitted(t.mappings[page[0]]) then [EntryOf(t, page[0], HostsOf(t.domains, domainPage, page[0]))] else [])
      + Entries(t, page[1..], domainPage)
  }

  lemma {:induction false} HostsOfExactly(domains: map<Id, Domain>, page: seq<Id>, m: Id, h: string)
    requires forall d :: d in page ==> d in domains
    ensures h in HostsOf(domains, page, m) <==>
            exists d :: d in page && domains[d].mapping == m && domains[d].hostname == h
                && domains[d].status != DeletingDomain
  {
    if page != [] {
      HostsOfExactly(domains, page[1..], m, h);
      assert forall d :: d in page <==> d == page[0] || d in page[1..];
    }
  }

  lemma {:induction false} EntriesExactly(t: Tables, page: seq<Id>, domainPage: seq<Id>, e: Entry)
    requires forall m :: m in page ==> m in t.mappings
    requires forall d :: d in domainPage ==> d in t.domains
    ensures e in Entries(t, page, domainPage) <==>
            e.mapping in page && Emitted(t.mappings[e.mapping])
            && e == EntryOf(t, e.mapping, HostsOf(t.domains, domainPage, e.mapping))
  {
    if page != [] {
      EntriesExactly(t, page[1..], domainPage, e);
      assert forall m :: m in page <==> m == page[0] || m in page[1..];
    }
  }

  /** The entry states the fields of the mapping's row and of its latest revision. */
  ghost predicate States(t: Tables, e: Entry)
    requires e.mapping in t.mappings
  {
    var row := t.mappings[e.mapping];
    && e.name == row.name && e.proxyType == row.proxyType
    && match Latest(t, e.mapping)
       case Some(rev) =>
         && e.localIp == rev.localIp && e.localPort == rev.localPort && e.remotePort == rev.port
         && e.revision == rev.number
       case None => e.localIp == "" && e.localPort == 0 && e.remotePort == None && e.revision == 0
  }

  predicate Wanted(row: Mapping) { row.enabled && row.lifecycle != Deleting }

  /** Every entry is of a listed mapping that is wanted, states its row and its latest
      revision, and names exactly the listed domains bound to it that are not leaving. */
  lemma EntriesState(t: Tables, page: seq<Id>, domainPage: seq<Id>, e: Entry)
    requires forall m :: m in page ==> m in t.mappings
    requires forall d :: d in domainPage ==> d in t.domains
    requires e in Entries(t, page, domainPage)
    ensures e.mapping in page && Wanted(t.mappings[e.mapping]) && States(t, e)
    ensures forall h :: h in e.customDomains <==>
              exists d :: d in domainPage && t.domains[d].mapping == e.mapping && t.domains[d].hostname == h
                          && t.domains[d].status != DeletingDomain
  {
    EntriesExactly(t, page, domainPage, e);
    LatestAgrees(t, e.mapping);
    forall h ensures h in e.customDomains <==>
                     exists d :: d in domainPage && t.domains[d].mapping == e.mapping && t.domains[d].hostname == h
                                 && t.domains[d].status != DeletingDomain
    {
      HostsOfExactly(t.domains, domainPage, e.mapping, h);
    }
  }

  function Ids(entries: seq<Entry>): seq<Id> { if entries == [] then [] else [entries[0].mapping] + Ids(entries[1..]) }

  function WantedOf(mappings: map<Id, Mapping>, page: seq<Id>): seq<Id>
    requires forall m :: m in page ==> m in mappings
  {
    if page == [] then [] else (if Wanted(mappings[page[0]]) then [page[0]] else []) + WantedOf(mappings, page[1..])
  }

  /** There is one for each of them, in the order of the listing. */
  lemma {:induction false} EntriesInOrder(t: Tables, page: seq<Id>, domainPage: seq<Id>)
    requires forall m :: m in page ==> m in t.mappings
    requires forall d :: d in domainPage ==> d in t.domains
    ensures Ids(Entries(t, page, domainPage)) == WantedOf(t.mappings, page)
  {
    if page != [] {
      EntriesInOrder(t, page[1..], domainPage);
      var rest := Entries(t, page[1..], domainPage);
      if Wanted(t.mappings[page[0]]) {
        var e := EntryOf(t, page[0], HostsOf(t.domains, domainPage, page[0]));
        assert Entries(t, page, domainPage) == [e] + rest;
        assert ([e] + rest)[1..] == rest;
      } else {
        assert Entries(t, page, domainPage) == rest;
      }
    }
  }

  /** A listing is cut after 200 rows. */
  lemma PageIs(rows: seq<Id>)
    ensures |Page(rows)| == (if |rows| < 200 then |rows| else 200)
    ensures forall i :: 0 <= i < |Page(rows)| ==> Page(rows)[i] == rows[i]
  {
  }

  // ---------- agreement ----------

  /** Bound to the mapping, but being removed or beyond the listed page. */
  predicate HiddenHost(t: Tables, user: Id, domainPage: seq<Id>, m: Id, h: string) {
    exists d | d in t.domains ::
      t.domains[d].hostname == h && t.domains[d].owner == user && t.domains[d].mapping == m
      && t.domains[d].status != DeletedDomain && (t.domains[d].status == DeletingDomain || d !in domainPage)
  }

  /** The request opens the proxy that the entry describes. An entry without a revision
      has number 0; an entry without a port leaves the port open. */
  predicate Opens(t: Tables, domainPage: seq<Id>, e: Entry, req: FrpRequest) {
    && e.mapping == req.mapping
    && e.revision == req.revision && e.revision != 0
    && (e.remotePort.Some? ==> e.remotePort.value == req.remotePort)
    && (req.proxyType.Some? ==> req.proxyType.value == e.proxyType)
    && (if req.hostname == "" then e.proxyType != Http
        else req.hostname in e.customDomains || HiddenHost(t, req.user, domainPage, req.mapping, req.hostname))
  }

  lemma HostsAgree(t: Tables, user: Id, domainPage: seq<Id>, m: Id, h: string)
    requires DomainInv(t) && m in t.mappings && t.mappings[m].owner == user
    requires forall d :: d in domainPage ==> d in t.domains
    ensures Hosts(t, user, m, h) <==> h in HostsOf(t.domains, domainPage, m) || HiddenHost(t, user, domainPage, m, h)
  {
    HostsOfExactly(t.domains, domainPage, m, h);
  }

  lemma NumbersPositive(t: Tables, m: Id, r: Id)
    requires Numbered(t.mappings, t.revisions) && r in t.revisions && t.revisions[r].mapping == m && m in t.mappings
    ensures t.revisions[r].number >= 1
  {
    assert NumberedFromOne(t.revisions, m, t.mappings[m].pending);
    assert t.revisions[r].number in Numbers(t.revisions, m);
  }

  /** The three conditions of authorizeFRP on a mapping's state are the two of FullConfig. */
  lemma FiltersAgree(t: Tables, m: Id)
    requires Lifecycles(t.mappings) && m in t.mappings
    ensures Emitted(t.mappings[m]) <==> t.mappings[m].enabled && !Sticky(t.mappings[m].lifecycle)
  {
  }

  lemma RevisionAgrees(t: Tables, m: Id)
    requires Pointers(t.mappings, t.revisions) && Numbered(t.mappings, t.revisions) && m in t.mappings
    ensures CurrentRevision(t, t.mappings[m]).Some? ==> CurrentNumber(t, t.mappings[m]) >= 1
  {
    var c := CurrentId(t.mappings[m]);
    if c.Some? { NumbersPositive(t, m, c.value); }
  }

  lemma VerdictOnRow(t: Tables, domainPage: seq<Id>, hosts: seq<string>, req: FrpRequest)
    requires req.mapping in t.mappings && t.mappings[req.mapping].owner == req.user
    requires var m := t.mappings[req.mapping];
             && (Emitted(m) <==> m.enabled && !Sticky(m.lifecycle))
             && (CurrentRevision(t, m).Some? ==> CurrentNumber(t, m) >= 1)
    requires Hosts(t, req.user, req.mapping, req.hostname)
             <==> req.hostname in hosts || HiddenHost(t, req.user, domainPage, req.mapping, req.hostname)
    ensures ProxyVerdict(t, req) == Accepted <==>
            Emitted(t.mappings[req.mapping]) && Opens(t, domainPage, EntryOf(t, req.mapping, hosts), req)
  {
  }

  lemma VerdictOnEntry(t: Tables, domainPage: seq<Id>, req: FrpRequest)
    requires Inv(t) && forall d :: d in domainPage ==> d in t.domains
    requires req.mapping in t.mappings && t.mappings[req.mapping].owner == req.user
    ensures ProxyVerdict(t, req) == Accepted <==>
            && Emitted(t.mappings[req.mapping])
            && Opens(t, domainPage, EntryOf(t, req.mapping, HostsOf(t.domains, domainPage, req.mapping)), req)
  {
    FactsOnRow(t, domainPage, req);
    VerdictOnRow(t, domainPage, HostsOf(t.domains, domainPage, req.mapping), req);
  }

  lemma FactsOnRow(t: Tables, domainPage: seq<Id>, req: FrpRequest)
    requires Inv(t) && forall d :: d in domainPage ==> d in t.domains
    requires req.mapping in t.mappings && t.mappings[req.mapping].owner == req.user
    ensures var m := t.mappings[req.mapping];
            && (Emitted(m) <==> m.enabled && !Sticky(m.lifecycle))
            && (CurrentRevision(t, m).Some? ==> CurrentNumber(t, m) >= 1)
    ensures Hosts(t, req.user, req.mapping, req.hostname)
            <==> req.hostname in HostsOf(t.domains, domainPage, req.mapping)
                 || HiddenHost(t, req.user, domainPage, req.mapping, req.hostname)
  {
    InvMeans(t);
    FiltersAgree(t, req.mapping);
    RevisionAgrees(t, req.mapping);
    HostsAgree(t, req.user, domainPage, req.mapping, req.hostname);
  }

  /** In every sound state: a NewProxy request passes the checks on its mapping iff the
      configuration, listed in any order, has an entry that it opens, for every mapping
      within the listed page. */
  lemma ConfigAgrees(t: Tables, rows: seq<Id>, domainRows: seq<Id>, req: FrpRequest)
    requires Inv(t) && Lists(rows, OwnMappings(t, req.user)) && Lists(domainRows, OwnDomains(t, req.user))
    ensures var page, domainPage := Page(rows), Page(domainRows);
            && (forall m :: m in page ==> m in t.mappings) && (forall d :: d in domainPage ==> d in t.domains)
            && (ProxyVerdict(t, req) == Accepted && req.mapping in page <==>
                exists e :: e in Entries(t, page, domainPage) && Opens(t, domainPage, e, req))
  {
    var page, domainPage := Page(rows), Page(domainRows);
    assert forall m :: m in page ==> m in rows;
    assert forall d :: d in domainPage ==> d in domainRows;
    AgreesOnPage(t, page, domainPage, req);
  }

  lemma AgreesOnPage(t: Tables, page: seq<Id>, domainPage: seq<Id>, req: FrpRequest)
    requires Inv(t) && forall m :: m in page ==> m in t.mappings && t.mappings[m].owner == req.user
    requires forall d :: d in domainPage ==> d in t.domains
    ensures ProxyVerdict(t, req) == Accepted && req.mapping in page <==>
            exists e :: e in Entries(t, page, domainPage) && Opens(t, domainPage, e, req)
  {
    if req.mapping in page {
      var e := EntryOf(t, req.mapping, HostsOf(t.domains, domainPage, req.mapping));
      VerdictOnEntry(t, domainPage, req);
      EntriesExactly(t, page, domainPage, e);
      assert ProxyVerdict(t, req) == Accepted <==> e in Entries(t, page, domainPage) && Opens(t, domainPage, e, req);
    }
    forall e | e in Entries(t, page, domainPage) && Opens(t, domainPage, e, req)
      ensures req.mapping in page && e == EntryOf(t, req.mapping, HostsOf(t.domains, domainPage, req.mapping))
    {
      EntriesExactly(t, page, domainPage, e);
    }
  }

  /** With at most 200 mappings the page leaves nothing out. */
  lemma SmallListingsAgree(t: Tables, rows: seq<Id>, domainRows: seq<Id>, req: FrpRequest, now: int)
    requires Inv(t) && Lists(rows, OwnMappings(t, req.user)) && Lists(domainRows, OwnDomains(t, req.user))
    requires |rows| <= PAGE_SIZE && req.operation == NewProxy
    requires exists r :: LiveRuntime(t, req, r) && CredentialVerdict(t, req, r, now) == Accepted
    ensures (forall m :: m in Page(rows) ==> m in t.mappings) && (forall d :: d in Page(domainRows) ==> d in t.domains)
    ensures AuthorizeFRP(t, req, now) == Accepted <==>
            exists e :: e in Entries(t, Page(rows), Page(domainRows)) && Opens(t, Page(domainRows), e, req)
  {
    ConfigAgrees(t, rows, domainRows, req);
    OneRuntime(t, req, now);
    AcceptedIsListed(t, rows, req);
  }

  lemma OneRuntime(t: Tables, req: FrpRequest, now: int)
    requires Inv(t) && req.operation == NewProxy
    requires exists r :: LiveRuntime(t, req, r) && CredentialVerdict(t, req, r, now) == Accepted
    ensures AuthorizeFRP(t, req, now) == ProxyVerdict(t, req)
  {
    var r :| LiveRuntime(t, req, r) && CredentialVerdict(t, req, r, now) == Accepted;
    SoleRuntime(t, req, r);
  }

  lemma SoleRuntime(t: Tables, req: FrpRequest, r: Id)
    requires Inv(t) && LiveRuntime(t, req, r)
    ensures forall q :: LiveRuntime(t, req, q) ==> q == r
  {
    InvMeans(t);
  }

  lemma AcceptedIsListed(t: Tables, rows: seq<Id>, req: FrpRequest)
    requires Lists(rows, OwnMappings(t, req.user))
    ensures ProxyVerdict(t, req) == Accepted ==> req.mapping in rows
  {
  }
}
