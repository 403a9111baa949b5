/** Domain bindings and deletions keep every invariant; hence every invariant holds in
    every reachable state. */
module DomainInvariants {
  import opened Wrappers
  import opened Schema
  import opened Mappings
  import opened MappingInvariants
  import opened Identity
  import opened DnsSync
  import opened Domains
  import opened Service
  import opened Invariants

  // ---------- steps that only change the status of domains ----------

  ghost predicate DomainsAlike(domains: map<Id, Domain>, domains': map<Id, Domain>) {
    && domains'.Keys == domains.Keys
    && forall d :: d in domains ==>
         && domains'[d].owner == domains[d].owner && domains'[d].mapping == domains[d].mapping
         && domains'[d].hostname == domains[d].hostname
         && (domains'[d].status == DeletedDomain ==> domains[d].status == DeletedDomain)
  }

  ghost predicate StatusStep(t: Tables, t': Tables) {
    && DomainsAlike(t.domains, t'.domains) && t'.dns == t.dns && t'.residues == t.residues && t'.removed == t.removed
    && UsersGrow(t.users, t'.users) && OwnersKept(t.mappings, t'.mappings) && t.nextId <= t'.nextId
  }

  lemma StatusStepKeepsDomains(t: Tables, t': Tables)
    requires DomainInv(t) && StatusStep(t, t')
    ensures DomainInv(t')
  {
  }

  ghost predicate SameSessions(t: Tables, t': Tables) { t'.sessions == t.sessions && t'.runtimes == t.runtimes }

  lemma DeleteMappingOnly(t: Tables, who: AuthContext, m: Id, force: bool, key: Option<string>)
    ensures var t' := DeleteMapping(t, who, m, force, key).0; t' == t || (StatusStep(t, t') && SameSessions(t, t'))
  {
  }

  lemma DeleteMappingKeepsInv(t: Tables, who: AuthContext, m: Id, force: bool, key: Option<string>)
    requires Inv(t)
    ensures Inv(DeleteMapping(t, who, m, force, key).0)
  {
    InvMeans(t);
    var t' := DeleteMapping(t, who, m, force, key).0;
    DeleteMappingOnly(t, who, m, force, key);
    if t' != t {
      DeleteKeepsInv(t, who, m, force, key);
      AuthFrame(t, t');
      StatusStepKeepsDomains(t, t');
    }
  }

  ghost predicate SameMappings(t: Tables, t': Tables) {
    && t'.mappings == t.mappings && t'.revisions == t.revisions && t'.leases == t.leases
    && UsersGrow(t.users, t'.users) && t.nextId <= t'.nextId && UserRules(t')
  }

  lemma SameMappingsKeepsInv(t: Tables, t': Tables)
    requires MappingInv(t) && AuthInv(t) && DomainInv(t') && SameSessions(t, t') && SameMappings(t, t')
    ensures Inv(t')
  {
    MappingFrame(t, t');
    AuthFrame(t, t');
    InvMeans(t');
  }

  lemma DeleteDomainOnly(t: Tables, who: AuthContext, d: Id, key: Option<string>)
    requires UserRules(t)
    ensures var t' := DeleteDomain(t, who, d, key).0;
            t' == t || (StatusStep(t, t') && SameSessions(t, t') && SameMappings(t, t'))
  {
  }

  lemma AdvanceDomainOnly(t: Tables, d: Id, status: DomainStatus, operator: bool)
    requires UserRules(t)
    ensures var t' := AdvanceDomain(t, d, status, operator);
            t' == t || (StatusStep(t, t') && SameSessions(t, t') && SameMappings(t, t'))
  {
  }

  lemma StatusStepKeepsInv(t: Tables, t': Tables)
    requires Inv(t) && StatusStep(t, t') && SameSessions(t, t') && SameMappings(t, t')
    ensures Inv(t')
  {
    InvMeans(t);
    StatusStepKeepsDomains(t, t');
    SameMappingsKeepsInv(t, t');
  }

  lemma DoomedSideRules(t: Tables, user: Id, force: bool)
    requires SideRules(t) && user in t.users
    ensures SideRules(Doomed(t, user, force))
  {
  }

  lemma DoomedIsQuiet(t: Tables, user: Id, force: bool)
    requires user in t.users
    ensures QuietStep(t, Doomed(t, user, force))
  {
  }

  lemma DoomedRevokes(t: Tables, user: Id, force: bool)
    requires user in t.users
    ensures RevokingStep(t, Doomed(t, user, force))
  {
    RevokeSessionsAlike(t.sessions, user, false);
    RevokeRuntimesAlike(t.runtimes, user);
  }

  lemma DoomedDomains(t: Tables, user: Id, force: bool)
    requires user in t.users
    ensures StatusStep(t, Doomed(t, user, force))
  {
  }

  /** A request for a deletion that is under way changes no modelled row but its own. */
  lemma DeleteUserIs(t: Tables, who: AuthContext, user: Id, force: bool, key: Option<string>)
    ensures var t' := DeleteUser(t, who, user, force, key).0;
            || t' == t
            || t' == t.(nextId := t.nextId + 1, deletions := t'.deletions, records := t'.records)
            || (user in t.users && t' == Doomed(t, user, force).(records := t'.records))
  {
  }

  lemma DeleteUserSideRules(t: Tables, who: AuthContext, user: Id, force: bool, key: Option<string>)
    requires SideRules(t)
    ensures SideRules(DeleteUser(t, who, user, force, key).0)
  {
    DeleteUserIs(t, who, user, force, key);
    if user in t.users { DoomedSideRules(t, user, force); }
  }

  lemma DeleteUserIsQuiet(t: Tables, who: AuthContext, user: Id, force: bool, key: Option<string>)
    ensures var t' := DeleteUser(t, who, user, force, key).0; t' == t || QuietStep(t, t')
  {
    DeleteUserIs(t, who, user, force, key);
    if user in t.users { DoomedIsQuiet(t, user, force); }
  }

  lemma DeleteUserRevokes(t: Tables, who: AuthContext, user: Id, force: bool, key: Option<string>)
    ensures var t' := DeleteUser(t, who, user, force, key).0; t' == t || RevokingStep(t, t')
  {
    DeleteUserIs(t, who, user, force, key);
    if user in t.users { DoomedRevokes(t, user, force); }
  }

  lemma DeleteUserDomains(t: Tables, who: AuthContext, user: Id, force: bool, key: Option<string>)
    ensures var t' := DeleteUser(t, who, user, force, key).0; t' == t || StatusStep(t, t')
  {
    DeleteUserIs(t, who, user, force, key);
    if user in t.users { DoomedDomains(t, user, force); }
  }

  lemma DeleteUserKeepsInv(t: Tables, who: AuthContext, user: Id, force: bool, key: Option<string>)
    requires Inv(t)
    ensures Inv(DeleteUser(t, who, user, force, key).0)
  {
    InvMeans(t);
    var t' := DeleteUser(t, who, user, force, key).0;
    DeleteUserIsQuiet(t, who, user, force, key);
    DeleteUserSideRules(t, who, user, force, key);
    DeleteUserRevokes(t, who, user, force, key);
    DeleteUserDomains(t, who, user, force, key);
    if t' != t {
      QuietStepKeepsInv(t, t');
      RevokingStepKeepsAuth(t, t');
      StatusStepKeepsDomains(t, t');
    }
  }

  // ---------- new bindings and new DNS rows ----------

  /** What the jobs on domains leave alone. */
  ghost predicate OnlyBindings(t: Tables, t': Tables) {
    && t'.users == t.users && t'.sessions == t.sessions && t'.runtimes == t.runtimes
    && t'.mappings == t.mappings && t'.revisions == t.revisions && t'.leases == t.leases
    && t.nextId <= t'.nextId
  }

  lemma OnlyBindingsKeepsMappings(t: Tables, t': Tables)
    requires MappingInv(t) && OnlyBindings(t, t')
    ensures MappingInv(t')
  {
    MappingFrame(t, t');
  }

  lemma OnlyBindingsKeepsAuth(t: Tables, t': Tables)
    requires AuthInv(t) && OnlyBindings(t, t')
    ensures AuthInv(t')
  {
    AuthFrame(t, t');
  }

  lemma OtherTablesKeepInv(t: Tables, t': Tables)
    requires Inv(t) && DomainInv(t') && OnlyBindings(t, t')
    ensures Inv(t')
  {
    InvMeans(t);
    OnlyBindingsKeepsMappings(t, t');
    OnlyBindingsKeepsAuth(t, t');
  }

  lemma CreateDomainOnly(t: Tables, who: AuthContext, req: DomainRequest, otherQuota: bool, key: Option<string>)
    requires UserRules(t)
    ensures var t' := CreateDomain(t, who, req, otherQuota, key).0;
            t' == t || (SameSessions(t, t') && SameMappings(t, t'))
  {
  }

  lemma CreateDomainRules(t: Tables, who: AuthContext, req: DomainRequest, otherQuota: bool, key: Option<string>)
    requires DomainRules(t.users, t.mappings, t.domains) && DomainIdsBelow(t)
    ensures var t' := CreateDomain(t, who, req, otherQuota, key).0;
            t' == t || (DomainRules(t'.users, t'.mappings, t'.domains) && DomainIdsBelow(t'))
  {
    var t' := CreateDomain(t, who, req, otherQuota, key).0;
    if t' != t {
      CreateDomainAdds(t, who, req, otherQuota, key);
      AddedDomainKeepsRules(t, t', t.nextId + 1, t'.domains[t.nextId + 1]);
    }
  }

  lemma CreateDomainAdds(t: Tables, who: AuthContext, req: DomainRequest, otherQuota: bool, key: Option<string>)
    ensures var t' := CreateDomain(t, who, req, otherQuota, key).0;
            var row := Domain(who.user, req.mapping, req.hostname, req.mode, PendingDns);
            t' == t || (AddsDomain(t, t', t.nextId + 1, row)
                        && (forall d :: d in t.domains ==> t.domains[d].hostname != req.hostname)
                        && who.user in t.users && req.mapping in t.mappings
                        && t.mappings[req.mapping].owner == who.user)
  {
  }

  ghost predicate AddsDomain(t: Tables, t': Tables, d: Id, row: Domain) {
    && t'.nextId == t.nextId + 4 && t'.users.Keys == t.users.Keys && t'.mappings == t.mappings
    && t'.residues == t.residues
    && t'.domains == t.domains[d := row] && t'.dns.Keys == t.dns.Keys + {t.nextId + 2}
  }

  lemma AddedDomainKeepsRules(t: Tables, t': Tables, d: Id, row: Domain)
    requires DomainRules(t.users, t.mappings, t.domains) && DomainIdsBelow(t) && AddsDomain(t, t', d, row)
             && d == t.nextId + 1
    requires row.status != DeletedDomain && row.owner in t.users && row.mapping in t.mappings
    requires t.mappings[row.mapping].owner == row.owner
    requires forall e :: e in t.domains ==> t.domains[e].hostname != row.hostname
    ensures DomainRules(t'.users, t'.mappings, t'.domains) && DomainIdsBelow(t')
  {
  }

  lemma CreateDomainDns(t: Tables, who: AuthContext, req: DomainRequest, otherQuota: bool, key: Option<string>)
    requires DnsRules(t.domains, t.dns) && DomainIdsBelow(t)
    ensures var t' := CreateDomain(t, who, req, otherQuota, key).0; t' == t || DnsRules(t'.domains, t'.dns)
  {
  }

  lemma CreateDomainKeepsInv(t: Tables, who: AuthContext, req: DomainRequest, otherQuota: bool, key: Option<string>)
    requires Inv(t)
    ensures Inv(CreateDomain(t, who, req, otherQuota, key).0)
  {
    InvMeans(t);
    var t' := CreateDomain(t, who, req, otherQuota, key).0;
    CreateDomainOnly(t, who, req, otherQuota, key);
    CreateDomainRules(t, who, req, otherQuota, key);
    CreateDomainDns(t, who, req, otherQuota, key);
    if t' != t {
      MappingFrame(t, t');
      AuthFrame(t, t');
    }
  }

  /** What a synchronisation leaves alone. */
  ghost predicate OnlyDomains(t: Tables, t': Tables) {
    t' == t.(nextId := t'.nextId, domains := t'.domains, dns := t'.dns) && t.nextId <= t'.nextId
  }

  lemma SyncDnsOnly(t: Tables, d: Id, fallback: DnsSpec, action: SyncAction, answers: Answers, reach: nat, now: int)
    ensures OnlyDomains(t, SyncDns(t, d, fallback, action, answers, reach, now))
  {
    if d in t.domains { SyncedOnly(t, d, SyncDecision(t, d, fallback, action, answers), reach, now); }
  }

  lemma SyncedOnly(t: Tables, d: Id, decision: Decision, reach: nat, now: int)
    requires d in t.domains
    ensures OnlyDomains(t, Synced(t, d, decision, reach, now))
  {
    if decision.Save? { SaveDnsOnly(t, d, decision, reach, now); }
  }

  lemma SaveDnsOnly(t: Tables, d: Id, save: Decision, reach: nat, now: int)
    requires d in t.domains && save.Save?
    ensures OnlyDomains(t, SaveDns(t, d, save, reach, now))
  {
    var t2 := ReplaceDnsRow(t, d, SavedRow(t.domains[d], d, save, now));
    ReplaceDnsRowOnly(t, d, SavedRow(t.domains[d], d, save, now));
    if reach >= 3 { OnlyDomainsOn(t, t2, SetDomainStatus(t2, d, NextStatus(t.domains[d].mode))); }
  }

  lemma ReplaceDnsRowOnly(t: Tables, d: Id, row: DnsRow)
    ensures OnlyDomains(t, ReplaceDnsRow(t, d, row)) && ReplaceDnsRow(t, d, row).domains == t.domains
  {
  }

  lemma OnlyDomainsOn(t: Tables, t': Tables, t'': Tables)
    requires OnlyDomains(t, t') && OnlyDomains(t', t'')
    ensures OnlyDomains(t, t'')
  {
  }

  lemma SetStatusKeepsDomains(t: Tables, d: Id, status: DomainStatus)
    requires DomainInv(t) && d in t.domains && status != DeletedDomain
    ensures DomainInv(SetDomainStatus(t, d, status))
  {
    StatusStepKeepsDomains(t, SetDomainStatus(t, d, status));
  }

  /** A domain without a DNS row may get one. */
  lemma AddRowKeepsDomains(t: Tables, d: Id, row: DnsRow)
    requires DomainInv(t) && d in t.domains && row.domain == Some(d) && row.owner == t.domains[d].owner
    requires forall r :: r in t.dns ==> t.dns[r].domain != Some(d)
    ensures DomainInv(AddDnsRow(t, row))
  {
  }

  lemma ClearDnsKeepsDomains(t: Tables, d: Id)
    requires DomainInv(t)
    ensures DomainInv(ClearDns(t, d))
  {
  }

  lemma ReplaceDnsRowKeepsDomains(t: Tables, d: Id, row: DnsRow)
    requires DomainInv(t) && d in t.domains && row.domain == Some(d) && row.owner == t.domains[d].owner
    ensures DomainInv(ReplaceDnsRow(t, d, row))
  {
    ClearDnsKeepsDomains(t, d);
    AddRowKeepsDomains(ClearDns(t, d), d, row);
  }

  lemma SaveDnsKeepsDomains(t: Tables, d: Id, save: Decision, reach: nat, now: int)
    requires DomainInv(t) && d in t.domains && save.Save?
    ensures DomainInv(SaveDns(t, d, save, reach, now))
  {
    var t2 := ReplaceDnsRow(t, d, SavedRow(t.domains[d], d, save, now));
    ClearDnsKeepsDomains(t, d);
    ReplaceDnsRowKeepsDomains(t, d, SavedRow(t.domains[d], d, save, now));
    if reach >= 3 { SetStatusKeepsDomains(t2, d, NextStatus(t.domains[d].mode)); }
  }

  lemma SyncDnsKeepsDomains(t: Tables, d: Id, fallback: DnsSpec, action: SyncAction, answers: Answers, reach: nat,
                            now: int)
    requires DomainInv(t)
    ensures DomainInv(SyncDns(t, d, fallback, action, answers, reach, now))
  {
    if d in t.domains { SyncedKeepsDomains(t, d, SyncDecision(t, d, fallback, action, answers), reach, now); }
  }

  lemma SyncedKeepsDomains(t: Tables, d: Id, decision: Decision, reach: nat, now: int)
    requires DomainInv(t) && d in t.domains
    ensures DomainInv(Synced(t, d, decision, reach, now))
  {
    match decision
    case Cancelled => SetStatusKeepsDomains(t, d, PendingDns);
    case Unresolved => SetStatusKeepsDomains(t, d, DnsError);
    case Aborted =>
    case Crashed =>
    case Save(_, _, _, _) => SaveDnsKeepsDomains(t, d, decision, reach, now);
  }

  lemma SyncDnsKeepsInv(t: Tables, d: Id, fallback: DnsSpec, action: SyncAction, answers: Answers, reach: nat, now: int)
    requires Inv(t)
    ensures Inv(SyncDns(t, d, fallback, action, answers, reach, now))
  {
    DomainPart(t);
    SyncDnsKeepsDomains(t, d, fallback, action, answers, reach, now);
    SyncDnsOnly(t, d, fallback, action, answers, reach, now);
    OtherTablesKeepInv(t, SyncDns(t, d, fallback, action, answers, reach, now));
  }

  lemma DomainPart(t: Tables)
    requires Inv(t)
    ensures DomainInv(t)
  {
    InvMeans(t);
  }

  // ---------- removal ----------

  /** A mapping that no domain blocks takes nothing but its revisions and leases with it. */
  lemma DropUnblocked(t: Tables, m: Id)
    requires DomainInv(t) && !BlockedByDomain(t, m)
    ensures DropMapping(t, m).domains == t.domains && DropMapping(t, m).dns == t.dns
    ensures DomainInv(DropMapping(t, m))
  {
    assert forall d :: d in t.domains ==> t.domains[d].mapping != m;
    var t' := DropMapping(t, m);
    assert t'.domains == t.domains;
    assert t'.dns == t.dns;
  }

  lemma DropKeepsAuth(t: Tables, m: Id)
    requires AuthInv(t)
    ensures AuthInv(DropMapping(t, m))
  {
    AuthFrame(t, DropMapping(t, m));
  }

  lemma FinalizeMappingKeepsInv(t: Tables, m: Id)
    requires Inv(t)
    ensures Inv(FinalizeMapping(t, m))
  {
    InvMeans(t);
    if FinalizeMapping(t, m) != t {
      FinalizeKeepsInv(t, m);
      DropKeepsAuth(t, m);
      DropUnblocked(t, m);
    }
  }

  lemma FinalizeMappingsKeepsInv(t: Tables, work: seq<Id>)
    requires Inv(t)
    ensures Inv(FinalizeMappings(t, work))
    decreases |work|
  {
    if work != [] {
      FinalizeMappingKeepsInv(t, work[0]);
      FinalizeMappingsKeepsInv(FinalizeMapping(t, work[0]), work[1..]);
    }
  }

  lemma ClearDnsKeepsInv(t: Tables, d: Id)
    requires Inv(t)
    ensures Inv(ClearDns(t, d))
  {
    DomainPart(t);
    ClearDnsKeepsDomains(t, d);
    OtherTablesKeepInv(t, ClearDns(t, d));
  }

  /** A domain may go once its DNS rows have gone. */
  lemma DropDomainKeepsDomains(t: Tables, d: Id)
    requires DomainInv(t) && forall r :: r in t.dns ==> t.dns[r].domain != Some(d)
    ensures DomainInv(DropDomain(t, d))
  {
  }

  lemma DropDomainKeepsInv(t: Tables, d: Id)
    requires Inv(t) && forall r :: r in t.dns ==> t.dns[r].domain != Some(d)
    ensures Inv(DropDomain(t, d))
  {
    DomainPart(t);
    DropDomainKeepsDomains(t, d);
    DropDomainOnly(t, d);
    OtherTablesKeepInv(t, DropDomain(t, d));
  }

  lemma DropDomainOnly(t: Tables, d: Id)
    ensures OnlyBindings(t, DropDomain(t, d))
  {
  }

  lemma ClearThenDropKeepsInv(t: Tables, d: Id)
    requires Inv(t)
    ensures Inv(DropDomain(ClearDns(t, d), d))
  {
    ClearDnsKeepsInv(t, d);
    DropDomainKeepsInv(ClearDns(t, d), d);
  }

  lemma FinalizeDomainKeepsInv(t: Tables, d: Id, reach: nat)
    requires Inv(t)
    ensures Inv(FinalizeDomain(t, d, reach).0)
  {
    if reach == 1 {
      ClearDnsKeepsInv(t, d);
    } else if reach >= 2 {
      ClearThenDropKeepsInv(t, d);
      if reach >= 3 && d in t.domains {
        FinalizeMappingKeepsInv(DropDomain(ClearDns(t, d), d), t.domains[d].mapping);
      }
    }
  }

  lemma RemovedKeepsInv(t: Tables, removed: set<ExternalRef>)
    requires Inv(t)
    ensures Inv(t.(removed := removed))
  {
    InvMeans(t);
    OtherTablesKeepInv(t, t.(removed := removed));
  }

  /** The residue row, and the record the provider deleted, change no other table. */
  lemma CleanUpDomainIs(t: Tables, d: Id, outcome: ProviderOutcome, reach: nat)
    ensures var t' := CleanUpDomain(t, d, outcome, reach).0;
            t' == t || exists removed :: t' == FinalizeDomain(t.(removed := removed), d, reach).0
  {
    assert t.(removed := t.removed) == t;
  }

  lemma CleanUpDomainKeepsInv(t: Tables, d: Id, outcome: ProviderOutcome, reach: nat)
    requires Inv(t)
    ensures Inv(CleanUpDomain(t, d, outcome, reach).0)
  {
    var t' := CleanUpDomain(t, d, outcome, reach).0;
    CleanUpDomainIs(t, d, outcome, reach);
    if t' != t {
      var removed :| t' == FinalizeDomain(t.(removed := removed), d, reach).0;
      RemovedKeepsInv(t, removed);
      FinalizeDomainKeepsInv(t.(removed := removed), d, reach);
    }
  }

  lemma ResidueKeepsInv(t: Tables, residue: Residue)
    requires Inv(t)
    ensures Inv(AddResidue(t, residue))
  {
    InvMeans(t);
    OtherTablesKeepInv(t, AddResidue(t, residue));
  }

  lemma DeleteDomainOfUserIs(t: Tables, operation: Id, force: bool, plan: DomainPlan)
    ensures var t1 := CleanUpDomain(t, plan.domain, plan.outcome, plan.reach).0;
            var t' := DeleteDomainOfUser(t, operation, force, plan).0;
            || t' == t1
            || t' == FinalizeDomain(AddResidue(t1, Residue(operation, plan.domain, ResidueName(t1, plan.domain))),
                                    plan.domain, plan.forcedReach).0
  {
  }

  lemma DeleteDomainOfUserKeepsInv(t: Tables, operation: Id, force: bool, plan: DomainPlan)
    requires Inv(t)
    ensures Inv(DeleteDomainOfUser(t, operation, force, plan).0)
  {
    var t1 := CleanUpDomain(t, plan.domain, plan.outcome, plan.reach).0;
    CleanUpDomainKeepsInv(t, plan.domain, plan.outcome, plan.reach);
    DeleteDomainOfUserIs(t, operation, force, plan);
    if DeleteDomainOfUser(t, operation, force, plan).0 != t1 {
      var residue := Residue(operation, plan.domain, ResidueName(t1, plan.domain));
      ResidueKeepsInv(t1, residue);
      FinalizeDomainKeepsInv(AddResidue(t1, residue), plan.domain, plan.forcedReach);
    }
  }

  lemma DeleteDomainsOfUserKeepsInv(t: Tables, operation: Id, force: bool, work: seq<DomainPlan>)
    requires Inv(t)
    ensures Inv(DeleteDomainsOfUser(t, operation, force, work).0)
    decreases |work|
  {
    if work != [] {
      DeleteDomainOfUserKeepsInv(t, operation, force, work[0]);
      DeleteDomainsOfUserKeepsInv(DeleteDomainOfUser(t, operation, force, work[0]).0, operation, force, work[1..]);
    }
  }

  lemma RemoveUserPrunes(t: Tables, user: Id)
    requires Parents(t.mappings, t.revisions) && LeasesAnchored(t.mappings, t.revisions, t.leases)
    ensures Prunes(t, RemoveUser(t, user))
  {
    var t' := RemoveUser(t, user);
    assert forall m :: m in t.mappings ==> (m in t'.mappings <==> !BelongsTo(t.mappings, m, user));
  }

  lemma RemoveUserSideRules(t: Tables, user: Id)
    requires SideRules(t)
    ensures SideRules(RemoveUser(t, user))
  {
  }

  lemma RemoveUserKeepsAuth(t: Tables, user: Id)
    requires AuthInv(t)
    ensures AuthInv(RemoveUser(t, user))
  {
  }

  lemma RemoveUserKeepsDomains(t: Tables, user: Id)
    requires DomainInv(t)
    ensures DomainInv(RemoveUser(t, user))
  {
  }

  lemma RemoveUserKeepsInv(t: Tables, user: Id)
    requires Inv(t)
    ensures Inv(RemoveUser(t, user))
  {
    InvMeans(t);
    RemoveUserPrunes(t, user);
    RemoveUserSideRules(t, user);
    PruneKeepsInv(t, RemoveUser(t, user));
    RemoveUserKeepsAuth(t, user);
    RemoveUserKeepsDomains(t, user);
  }

  lemma DeleteUserExternalIs(t: Tables, user: Id, operation: Id, force: bool, work: seq<DomainPlan>, rest: Finale)
    ensures var t1 := DeleteDomainsOfUser(t, operation, force, work).0;
            var t2 := FinalizeMappings(t1, Reached(rest));
            var t' := DeleteUserExternal(t, user, operation, force, work, rest).0;
            t' == t || t' == t1 || t' == t2 || t' == RemoveUser(t2, user)
  {
  }

  lemma DeleteUserExternalKeepsInv(t: Tables, user: Id, operation: Id, force: bool, work: seq<DomainPlan>, rest: Finale)
    requires Inv(t)
    ensures Inv(DeleteUserExternal(t, user, operation, force, work, rest).0)
  {
    var t1 := DeleteDomainsOfUser(t, operation, force, work).0;
    var t2 := FinalizeMappings(t1, Reached(rest));
    var t' := DeleteUserExternal(t, user, operation, force, work, rest).0;
    DeleteUserExternalIs(t, user, operation, force, work, rest);
    if t' != t {
      DeleteDomainsOfUserKeepsInv(t, operation, force, work);
      if t' != t1 {
        FinalizeMappingsKeepsInv(t1, Reached(rest));
        if t' != t2 { RemoveUserKeepsInv(t2, user); }
      }
    }
  }

  // ---------- every step, every run ----------

  lemma RevokingOpKeepsInv(t: Tables, t': Tables)
    requires Inv(t) && OnlyIdentity(t, t') && RevokingStep(t, t')
    ensures Inv(t')
  {
    InvMeans(t);
    RevokingStepKeepsAuth(t, t');
    OnlyIdentityKeepsInv(t, t');
  }

  predicate IsIdentityOp(op: Op) {
    op.CreateUserOp? || op.SetStatusOp? || op.ResetPasswordOp? || op.LoginOp? || op.AuthenticateOp? || op.LogoutOp?
    || op.ResetCredentialOp? || op.SnapshotOp?
  }

  predicate IsMappingOp(op: Op) {
    op.CreateMappingOp? || op.UpdateMappingOp? || op.ToggleMappingOp? || op.ApplyOp?
  }

  lemma MappingOpOnly(t: Tables, cfg: Config, op: Op)
    requires IsMappingOp(op) && forall m :: m in t.mappings ==> m < t.nextId
    ensures var t' := Exec(t, cfg, op).0; t' == t || OnlyMappings(t, t')
  {
    match op
    case CreateMappingOp(who, req, key) => CreateMappingOnly(t, cfg, who, req, key);
    case UpdateMappingOp(who, m, req, key) => UpdateMappingOnly(t, cfg, who, m, req, key);
    case ToggleMappingOp(who, m, enabled, version, revision, key) =>
      ToggleMappingOnly(t, who, m, enabled, version, revision, key);
    case ApplyOp(who, req) => ApplyOnly(t, who, req);
  }

  lemma CreateMappingKeepsInv(t: Tables, cfg: Config, who: AuthContext, req: MappingRequest, key: Option<string>)
    requires Inv(t)
    ensures Inv(CreateMapping(t, cfg, who, req, key).0)
  {
    var t' := CreateMapping(t, cfg, who, req, key).0;
    InvMeans(t);
    CreateMappingOnly(t, cfg, who, req, key);
    CreateKeepsInv(t, cfg, who, req, key);
    if t' != t { OnlyMappingsKeepsInv(t, t'); }
  }

  lemma UpdateMappingKeepsInv(t: Tables, cfg: Config, who: AuthContext, m: Id, req: MappingRequest, key: Option<string>)
    requires Inv(t)
    ensures Inv(UpdateMapping(t, cfg, who, m, req, key).0)
  {
    var t' := UpdateMapping(t, cfg, who, m, req, key).0;
    InvMeans(t);
    UpdateMappingOnly(t, cfg, who, m, req, key);
    UpdateKeepsInv(t, cfg, who, m, req, key);
    if t' != t { OnlyMappingsKeepsInv(t, t'); }
  }

  lemma ToggleMappingKeepsInv(t: Tables, who: AuthContext, m: Id, enabled: bool,
                              expectedVersion: Option<int>, expectedRevision: Option<int>, key: Option<string>)
    requires Inv(t)
    ensures Inv(ToggleMapping(t, who, m, enabled, expectedVersion, expectedRevision, key).0)
  {
    var t' := ToggleMapping(t, who, m, enabled, expectedVersion, expectedRevision, key).0;
    InvMeans(t);
    ToggleMappingOnly(t, who, m, enabled, expectedVersion, expectedRevision, key);
    ToggleKeepsInv(t, who, m, enabled, expectedVersion, expectedRevision, key);
    if t' != t { OnlyMappingsKeepsInv(t, t'); }
  }

  lemma ApplyResultKeepsInv(t: Tables, who: AuthContext, req: ApplyRequest)
    requires Inv(t)
    ensures Inv(ApplyResult(t, who, req).0)
  {
    var t' := ApplyResult(t, who, req).0;
    InvMeans(t);
    ApplyOnly(t, who, req);
    ApplyKeepsInv(t, who, req);
    if t' != t { OnlyMappingsKeepsInv(t, t'); }
  }

  lemma MappingOpKeepsInv(t: Tables, cfg: Config, op: Op)
    requires Inv(t) && IsMappingOp(op)
    ensures Inv(Exec(t, cfg, op).0)
  {
    match op
    case CreateMappingOp(who, req, key) => CreateMappingKeepsInv(t, cfg, who, req, key);
    case UpdateMappingOp(who, m, req, key) => UpdateMappingKeepsInv(t, cfg, who, m, req, key);
    case ToggleMappingOp(who, m, enabled, version, revision, key) =>
      ToggleMappingKeepsInv(t, who, m, enabled, version, revision, key);
    case ApplyOp(who, req) => ApplyResultKeepsInv(t, who, req);
  }

  lemma CreateUserKeepsInv(t: Tables, who: AuthContext, username: string, password: string, stored: bool)
    requires Inv(t)
    ensures Inv(CreateUser(t, who, username, password, stored).0)
  {
    InvMeans(t);
    var t' := CreateUser(t, who, username, password, stored).0;
    CreateUserOnly(t, who, username, password, stored);
    AuthFrame(t, t');
    OnlyIdentityKeepsInv(t, t');
  }

  lemma SnapshotOnly(t: Tables, who: AuthContext, hash: int)
    requires DomainInv(t)
    ensures var t' := TakeSnapshot(t, who, hash).0; OnlyBindings(t, t') && DomainInv(t')
  {
    var t' := TakeSnapshot(t, who, hash).0;
    assert t' == t || t' == t.(snapshots := t'.snapshots);
  }

  lemma SnapshotKeepsInv(t: Tables, who: AuthContext, hash: int)
    requires Inv(t)
    ensures Inv(TakeSnapshot(t, who, hash).0)
  {
    InvMeans(t);
    var t' := TakeSnapshot(t, who, hash).0;
    SnapshotOnly(t, who, hash);
    OtherTablesKeepInv(t, t');
  }

  lemma AccountOpOnly(t: Tables, cfg: Config, op: Op)
    requires UserRules(t) && (op.SetStatusOp? || op.ResetPasswordOp? || op.ResetCredentialOp?)
    ensures var t' := Exec(t, cfg, op).0; t' == t || (OnlyIdentity(t, t') && RevokingStep(t, t'))
  {
    match op
    case SetStatusOp(who, user, active, ended) =>
      SetUserStatusOnly(t, who, user, active, ended);
      SetUserStatusRevokes(t, who, user, active, ended);
    case ResetPasswordOp(who, user, password, ended) =>
      ResetUserPasswordOnly(t, who, user, password, ended);
      ResetUserPasswordRevokes(t, who, user, password, ended);
    case ResetCredentialOp(who, target, proof, proven, key) =>
      ResetFRPCredentialOnly(t, who, target, proof, proven, key);
      ResetFRPCredentialRevokes(t, who, target, proof, proven, key);
  }

  lemma SessionOpOnly(t: Tables, cfg: Config, op: Op)
    requires UserRules(t) && (op.AuthenticateOp? || op.LogoutOp?)
    ensures var t' := Exec(t, cfg, op).0; t' == t || (OnlyIdentity(t, t') && RevokingStep(t, t'))
  {
    match op
    case AuthenticateOp(token, now, touched) =>
      AuthenticateOnly(t, token, now, touched);
      AuthenticateRevokes(t, token, now, touched);
    case LogoutOp(who, ended) => LogoutOnly(t, who, ended);
  }

  lemma IdentityOpOnly(t: Tables, cfg: Config, op: Op)
    requires UserRules(t) && IsIdentityOp(op) && !op.LoginOp? && !op.CreateUserOp? && !op.SnapshotOp?
    ensures var t' := Exec(t, cfg, op).0; t' == t || (OnlyIdentity(t, t') && RevokingStep(t, t'))
  {
    if op.AuthenticateOp? || op.LogoutOp? { SessionOpOnly(t, cfg, op); } else { AccountOpOnly(t, cfg, op); }
  }

  lemma InvUsers(t: Tables)
    requires Inv(t)
    ensures UserRules(t)
  {
    InvMeans(t);
  }

  lemma SetUserStatusKeepsInv(t: Tables, who: AuthContext, user: Id, active: bool, ended: Ended)
    requires Inv(t)
    ensures Inv(SetUserStatus(t, who, user, active, ended).0)
  {
    var t' := SetUserStatus(t, who, user, active, ended).0;
    InvUsers(t);
    SetUserStatusOnly(t, who, user, active, ended);
    SetUserStatusRevokes(t, who, user, active, ended);
    if t' != t { RevokingOpKeepsInv(t, t'); }
  }

  lemma ResetUserPasswordKeepsInv(t: Tables, who: AuthContext, user: Id, password: string, ended: Ended)
    requires Inv(t)
    ensures Inv(ResetUserPassword(t, who, user, password, ended).0)
  {
    var t' := ResetUserPassword(t, who, user, password, ended).0;
    InvUsers(t);
    ResetUserPasswordOnly(t, who, user, password, ended);
    ResetUserPasswordRevokes(t, who, user, password, ended);
    if t' != t { RevokingOpKeepsInv(t, t'); }
  }

  lemma AuthenticateKeepsInv(t: Tables, token: Id, now: int, touched: bool)
    requires Inv(t)
    ensures Inv(Authenticate(t, token, now, touched).0)
  {
    var t' := Authenticate(t, token, now, touched).0;
    InvUsers(t);
    AuthenticateOnly(t, token, now, touched);
    AuthenticateRevokes(t, token, now, touched);
    if t' != t { RevokingOpKeepsInv(t, t'); }
  }

  lemma LogoutKeepsInv(t: Tables, who: AuthContext, ended: Ended)
    requires Inv(t)
    ensures Inv(Logout(t, who, ended))
  {
    InvUsers(t);
    LogoutOnly(t, who, ended);
    RevokingOpKeepsInv(t, Logout(t, who, ended));
  }

  lemma ResetFRPCredentialKeepsInv(t: Tables, who: AuthContext, target: Option<Id>, proof: string, proven: bool,
                                   key: Option<string>)
    requires Inv(t)
    ensures Inv(ResetFRPCredential(t, who, target, proof, proven, key).0)
  {
    var t' := ResetFRPCredential(t, who, target, proof, proven, key).0;
    InvUsers(t);
    ResetFRPCredentialOnly(t, who, target, proof, proven, key);
    ResetFRPCredentialRevokes(t, who, target, proof, proven, key);
    if t' != t { RevokingOpKeepsInv(t, t'); }
  }

  lemma IdentityOpKeepsInv(t: Tables, cfg: Config, op: Op)
    requires Inv(t) && IsIdentityOp(op)
    ensures Inv(Exec(t, cfg, op).0)
  {
    match op
    case CreateUserOp(who, username, password, stored) => CreateUserKeepsInv(t, who, username, password, stored);
    case LoginOp(username, password, channel, now) => LoginKeepsInv(t, cfg, username, password, channel, now);
    case SnapshotOp(who, hash) => SnapshotKeepsInv(t, who, hash);
    case SetStatusOp(who, user, active, ended) => SetUserStatusKeepsInv(t, who, user, active, ended);
    case ResetPasswordOp(who, user, password, ended) => ResetUserPasswordKeepsInv(t, who, user, password, ended);
    case AuthenticateOp(token, now, touched) => AuthenticateKeepsInv(t, token, now, touched);
    case LogoutOp(who, ended) => LogoutKeepsInv(t, who, ended);
    case ResetCredentialOp(who, target, proof, proven, key) =>
      ResetFRPCredentialKeepsInv(t, who, target, proof, proven, key);
  }

  lemma DeleteDomainKeepsInv(t: Tables, who: AuthContext, d: Id, key: Option<string>)
    requires Inv(t)
    ensures Inv(DeleteDomain(t, who, d, key).0)
  {
    var t' := DeleteDomain(t, who, d, key).0;
    InvUsers(t);
    DeleteDomainOnly(t, who, d, key);
    if t' != t { StatusStepKeepsInv(t, t'); }
  }

  lemma AdvanceDomainKeepsInv(t: Tables, d: Id, status: DomainStatus, operator: bool)
    requires Inv(t)
    ensures Inv(AdvanceDomain(t, d, status, operator))
  {
    var t' := AdvanceDomain(t, d, status, operator);
    InvUsers(t);
    AdvanceDomainOnly(t, d, status, operator);
    if t' != t { StatusStepKeepsInv(t, t'); }
  }

  lemma BindingOpKeepsInv(t: Tables, cfg: Config, op: Op)
    requires Inv(t) && !IsIdentityOp(op) && !IsMappingOp(op)
    ensures Inv(Exec(t, cfg, op).0)
  {
    match op
    case DeleteMappingOp(who, m, force, key) => DeleteMappingKeepsInv(t, who, m, force, key);
    case CreateDomainOp(who, req, otherQuota, key) => CreateDomainKeepsInv(t, who, req, otherQuota, key);
    case DeleteDomainOp(who, d, key) => DeleteDomainKeepsInv(t, who, d, key);
    case AdvanceDomainOp(d, status, operator) => AdvanceDomainKeepsInv(t, d, status, operator);
    case DeleteUserOp(who, user, force, key) => DeleteUserKeepsInv(t, who, user, force, key);
    case FinalizeMappingOp(m) => FinalizeMappingKeepsInv(t, m);
    case SyncDnsOp(d, fallback, action, answers, reach, now) =>
      SyncDnsKeepsInv(t, d, fallback, action, answers, reach, now);
    case DeleteDomainJob(d, outcome, reach) => CleanUpDomainKeepsInv(t, d, outcome, reach);
    case DeleteUserJob(user, operation, force, work, rest) =>
      DeleteUserExternalKeepsInv(t, user, operation, force, work, rest);
  }

  lemma ExecKeepsInv(t: Tables, cfg: Config, op: Op)
    requires Inv(t)
    ensures Inv(Exec(t, cfg, op).0)
  {
    if IsIdentityOp(op) { IdentityOpKeepsInv(t, cfg, op); }
    else if IsMappingOp(op) { MappingOpKeepsInv(t, cfg, op); }
    else { BindingOpKeepsInv(t, cfg, op); }
  }

  lemma {:induction false} RunKeepsInv(t: Tables, cfg: Config, ops: seq<Op>)
    requires Inv(t)
    ensures Inv(Run(t, cfg, ops))
    decreases |ops|
  {
    if ops != [] {
      ExecKeepsInv(t, cfg, ops[0]);
      RunKeepsInv(Exec(t, cfg, ops[0]).0, cfg, ops[1..]);
    }
  }

  lemma InitialInv(password: string)
    ensures Inv(Initial(password))
  {
    InitialMappings(Initial(password), password);
    InitialSessions(Initial(password), password);
    MakeInv(Initial(password));
  }

  lemma InitialMappings(t: Tables, password: string)
    requires t == Initial(password)
    ensures MappingInv(t)
  {
  }

  lemma InitialSessions(t: Tables, password: string)
    requires t == Initial(password)
    ensures AuthInv(t) && DomainInv(t)
  {
  }

  lemma ReachableInv(t: Tables, cfg: Config)
    requires Reachable(t, cfg)
    ensures Inv(t)
  {
    var password, ops :| t == Run(Initial(password), cfg, ops);
    InitialInv(password);
    RunKeepsInv(Initial(password), cfg, ops);
  }
}
