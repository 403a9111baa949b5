/** Deleting domains and users against an unreliable provider. Whatever the provider
    answers, however far each job gets, and whether or not deletion is forced, a DNS record
    that the panel manages is deleted by the provider, or named by a residue row, before its
    domain goes. The one step that forgets a record is a synchronisation that stores
    something else, or nothing, in its place. */
module Compensation {
  import opened Wrappers
  import opened Schema
  import opened Mappings
  import opened MappingInvariants
  import opened Identity
  import opened DnsSync
  import opened Domains
  import opened Service
  import opened Invariants
  import opened DomainInvariants
  import opened Decay

  /** A record at the provider that the panel manages for a domain of a user. */
  datatype Managed = Managed(owner: Id, domain: Id, external: ExternalRef)

  predicate Tracks(dns: map<Id, DnsRow>, x: Managed, r: Id) {
    && r in dns && dns[r].owner == x.owner && dns[r].domain == Some(x.domain) && dns[r].external == x.external
    && PanelManaged(dns[r])
  }

  ghost predicate Tracked(t: Tables, x: Managed) { exists r :: Tracks(t.dns, x, r) }

  /** The provider has deleted the record, or a residue of its domain names it. */
  ghost predicate Accounted(t: Tables, x: Managed) {
    || x.external in t.removed
    || exists q :: q in t.residues && t.residues[q].domain == x.domain && t.residues[q].external == Some(x.external)
  }

  ghost predicate Remembered(t: Tables, x: Managed) { Tracked(t, x) || Accounted(t, x) }

  lemma LedgersKeepAccounts(t: Tables, t': Tables, x: Managed)
    requires LedgersGrow(t, t') && Accounted(t, x)
    ensures Accounted(t', x)
  {
  }

  /** The DNS rows of domain d and the ledgers are as they were. */
  ghost predicate RecordsUntouched(t: Tables, t': Tables, d: Id) {
    && t'.residues == t.residues && t'.removed == t.removed
    && forall r :: r in t.dns && t.dns[r].domain == Some(d) ==> r in t'.dns && t'.dns[r] == t.dns[r]
  }

  lemma UntouchedRemembers(t: Tables, t': Tables, x: Managed)
    requires Remembered(t, x) && RecordsUntouched(t, t', x.domain)
    ensures Remembered(t', x)
  {
    if Tracked(t, x) {
      var r :| Tracks(t.dns, x, r);
      assert Tracks(t'.dns, x, r);
    }
  }

  // ---------- the statements of the cleanup jobs ----------

  lemma FinalizeMappingUntouched(t: Tables, m: Id, d: Id)
    requires DomainInv(t)
    ensures RecordsUntouched(t, FinalizeMapping(t, m), d)
  {
    if FinalizeMapping(t, m) != t { DropUnblocked(t, m); }
  }

  lemma FinalizeMappingRemembers(t: Tables, m: Id, x: Managed)
    requires Inv(t) && Remembered(t, x)
    ensures Remembered(FinalizeMapping(t, m), x)
  {
    DomainPart(t);
    FinalizeMappingUntouched(t, m, x.domain);
    UntouchedRemembers(t, FinalizeMapping(t, m), x);
  }

  /** Finalizing a domain is harmless to the records of the others, and to its own once
      that is accounted for. */
  lemma ClearRemembers(t: Tables, e: Id, x: Managed)
    requires Remembered(t, x) && (x.domain == e ==> Accounted(t, x))
    ensures Remembered(ClearDns(t, e), x)
    ensures Remembered(DropDomain(ClearDns(t, e), e), x)
  {
    var t1 := ClearDns(t, e);
    if x.domain == e {
      LedgersKeepAccounts(t, t1, x);
      LedgersKeepAccounts(t, DropDomain(t1, e), x);
    } else {
      assert RecordsUntouched(t, t1, x.domain);
      UntouchedRemembers(t, t1, x);
      UntouchedRemembers(t1, DropDomain(t1, e), x);
    }
  }

  lemma FinalizeDomainRemembers(t: Tables, e: Id, reach: nat, x: Managed)
    requires Inv(t) && Remembered(t, x) && (x.domain == e ==> Accounted(t, x))
    ensures Remembered(FinalizeDomain(t, e, reach).0, x)
  {
    ClearRemembers(t, e, x);
    if reach >= 3 && e in t.domains {
      ClearThenDropKeepsInv(t, e);
      FinalizeMappingRemembers(DropDomain(ClearDns(t, e), e), t.domains[e].mapping, x);
    }
  }

  /** A tracked row is the latest, and only, one of its domain. */
  lemma TrackedIsLatest(t: Tables, x: Managed)
    requires DnsRules(t.domains, t.dns) && Tracked(t, x)
    ensures LatestDns(t.dns, x.domain).Some? && Tracks(t.dns, x, LatestDns(t.dns, x.domain).value)
  {
    var r :| Tracks(t.dns, x, r);
    forall q | q in t.dns && t.dns[q].domain == Some(x.domain) ensures q == r {}
    assert IsLatestDns(t.dns, x.domain, r);
  }

  lemma RemovedRemembers(t: Tables, removed: set<ExternalRef>, x: Managed)
    requires t.removed <= removed
    ensures Remembered(t, x) ==> Remembered(t.(removed := removed), x)
    ensures Accounted(t, x) ==> Accounted(t.(removed := removed), x)
  {
    var t' := t.(removed := removed);
    if Accounted(t, x) { LedgersKeepAccounts(t, t', x); }
    else if Remembered(t, x) {
      var r :| Tracks(t.dns, x, r);
      assert Tracks(t'.dns, x, r);
    }
  }

  /** The cleanup of the record's own domain calls the provider, and finalizes the domain
      only when that has deleted the record. */
  lemma CleanUpOwnRemembers(t: Tables, outcome: ProviderOutcome, reach: nat, x: Managed)
    requires Inv(t) && Tracked(t, x)
    ensures Remembered(CleanUpDomain(t, x.domain, outcome, reach).0, x)
  {
    DomainPart(t);
    TrackedIsLatest(t, x);
    if outcome == ProviderRemoved {
      var removed := t.removed + {x.external};
      var t1 := t.(removed := removed);
      RemovedKeepsInv(t, removed);
      RemovedRemembers(t, removed, x);
      FinalizeDomainRemembers(t1, x.domain, reach, x);
    }
  }

  lemma CleanUpOtherRemembers(t: Tables, e: Id, outcome: ProviderOutcome, reach: nat, x: Managed)
    requires Inv(t) && Remembered(t, x) && (x.domain == e ==> Accounted(t, x))
    ensures Remembered(CleanUpDomain(t, e, outcome, reach).0, x)
  {
    var latest := LatestDns(t.dns, e);
    FinalizeDomainRemembers(t, e, reach, x);
    if latest.Some? {
      var removed := t.removed + {t.dns[latest.value].external};
      RemovedKeepsInv(t, removed);
      RemovedRemembers(t, removed, x);
      FinalizeDomainRemembers(t.(removed := removed), e, reach, x);
    }
  }

  /** No cleanup of a domain forgets a record. */
  lemma CleanUpRemembers(t: Tables, e: Id, outcome: ProviderOutcome, reach: nat, x: Managed)
    requires Inv(t) && Remembered(t, x)
    ensures Remembered(CleanUpDomain(t, e, outcome, reach).0, x)
  {
    if x.domain == e && Tracked(t, x) { CleanUpOwnRemembers(t, outcome, reach, x); }
    else { CleanUpOtherRemembers(t, e, outcome, reach, x); }
  }

  /** The residue row of a forced deletion names exactly the tracked record. */
  lemma ResidueAccounts(t: Tables, operation: Id, x: Managed)
    requires Inv(t) && Remembered(t, x)
    ensures Accounted(AddResidue(t, Residue(operation, x.domain, ResidueName(t, x.domain))), x)
  {
    DomainPart(t);
    var residue := Residue(operation, x.domain, ResidueName(t, x.domain));
    if Accounted(t, x) {
      AddResidueDecays(t, residue);
      LedgersKeepAccounts(t, AddResidue(t, residue), x);
    } else {
      TrackedIsLatest(t, x);
      assert AddResidue(t, residue).residues[t.nextId] == residue;
    }
  }

  lemma AddResidueRemembers(t: Tables, residue: Residue, x: Managed)
    requires Inv(t) && Remembered(t, x)
    ensures Remembered(AddResidue(t, residue), x)
  {
    DomainPart(t);
    AddResidueDecays(t, residue);
    if Accounted(t, x) { LedgersKeepAccounts(t, AddResidue(t, residue), x); }
    else {
      var r :| Tracks(t.dns, x, r);
      assert Tracks(AddResidue(t, residue).dns, x, r);
    }
  }

  lemma DeleteDomainOfUserRemembers(t: Tables, operation: Id, force: bool, plan: DomainPlan, x: Managed)
    requires Inv(t) && Remembered(t, x)
    ensures Remembered(DeleteDomainOfUser(t, operation, force, plan).0, x)
  {
    var t1 := CleanUpDomain(t, plan.domain, plan.outcome, plan.reach).0;
    CleanUpRemembers(t, plan.domain, plan.outcome, plan.reach, x);
    CleanUpDomainKeepsInv(t, plan.domain, plan.outcome, plan.reach);
    DeleteDomainOfUserIs(t, operation, force, plan);
    if DeleteDomainOfUser(t, operation, force, plan).0 != t1 {
      var residue := Residue(operation, plan.domain, ResidueName(t1, plan.domain));
      ResidueKeepsInv(t1, residue);
      AddResidueRemembers(t1, residue, x);
      if x.domain == plan.domain { ResidueAccounts(t1, operation, x); }
      FinalizeDomainRemembers(AddResidue(t1, residue), plan.domain, plan.forcedReach, x);
    }
  }

  lemma {:induction false} DeleteDomainsOfUserRemembers(t: Tables, operation: Id, force: bool, work: seq<DomainPlan>,
                                                        x: Managed)
    requires Inv(t) && Remembered(t, x)
    ensures Remembered(DeleteDomainsOfUser(t, operation, force, work).0, x)
    decreases |work|
  {
    if work != [] {
      DeleteDomainOfUserRemembers(t, operation, force, work[0], x);
      DeleteDomainOfUserKeepsInv(t, operation, force, work[0]);
      DeleteDomainsOfUserRemembers(DeleteDomainOfUser(t, operation, force, work[0]).0, operation, force, work[1..], x);
    }
  }

  lemma {:induction false} FinalizeMappingsRemembers(t: Tables, work: seq<Id>, x: Managed)
    requires Inv(t) && Remembered(t, x)
    ensures Remembered(FinalizeMappings(t, work), x)
    decreases |work|
  {
    if work != [] {
      FinalizeMappingRemembers(t, work[0], x);
      FinalizeMappingKeepsInv(t, work[0]);
      FinalizeMappingsRemembers(FinalizeMapping(t, work[0]), work[1..], x);
    }
  }

  /** The user row goes only when no domain of the user is left, so the cascade removes
      no DNS row. */
  lemma RemoveUserRemembers(t: Tables, user: Id, x: Managed)
    requires Inv(t) && OwnsNothing(t, user) && Remembered(t, x)
    ensures Remembered(RemoveUser(t, user), x)
  {
    DomainPart(t);
    assert forall r :: r in t.dns ==> t.dns[r].owner != user;
    UntouchedRemembers(t, RemoveUser(t, user), x);
  }

  lemma DeleteUserExternalRemembers(t: Tables, user: Id, operation: Id, force: bool, work: seq<DomainPlan>,
                                    rest: Finale, x: Managed)
    requires Inv(t) && Remembered(t, x)
    ensures Remembered(DeleteUserExternal(t, user, operation, force, work, rest).0, x)
  {
    var t1 := DeleteDomainsOfUser(t, operation, force, work).0;
    var t2 := FinalizeMappings(t1, Reached(rest));
    var t' := DeleteUserExternal(t, user, operation, force, work, rest).0;
    DeleteUserExternalIs(t, user, operation, force, work, rest);
    if t' != t {
      DeleteDomainsOfUserRemembers(t, operation, force, work, x);
      if t' != t1 {
        DeleteDomainsOfUserKeepsInv(t, operation, force, work);
        FinalizeMappingsRemembers(t1, Reached(rest), x);
        if t' != t2 {
          RemovedOwnsNothing(t, user, operation, force, work, rest);
          FinalizeMappingsKeepsInv(t1, Reached(rest));
          RemoveUserRemembers(t2, user, x);
        }
      }
    }
  }

  lemma RemovedOwnsNothing(t: Tables, user: Id, operation: Id, force: bool, work: seq<DomainPlan>, rest: Finale)
    ensures var t1 := DeleteDomainsOfUser(t, operation, force, work).0;
            var t2 := FinalizeMappings(t1, Reached(rest));
            var t' := DeleteUserExternal(t, user, operation, force, work, rest).0;
            t' == t || t' == t1 || t' == t2 || OwnsNothing(t2, user)
  {
  }

  // ---------- synchronisations ----------

  /** The synchronisation deletes the domain's rows, and does not insert the same record
      again as the panel's own. */
  ghost predicate SyncForgets(t: Tables, d: Id, decision: Decision, reach: nat, x: Managed) {
    && d == x.domain && decision.Save? && reach >= 1 && !Accounted(t, x)
    && (reach == 1 || !decision.managed || ExternalRef(decision.zone, decision.record.id) != x.external)
  }

  lemma ReplacedUntouched(t: Tables, e: Id, row: DnsRow, d: Id)
    requires DomainIdsBelow(t) && e != d
    ensures RecordsUntouched(t, ReplaceDnsRow(t, e, row), d)
  {
  }

  /** Once the new row is in, only the status of the domain may still change. */
  lemma SavedIs(t: Tables, d: Id, decision: Decision, reach: nat, now: int)
    requires d in t.domains && decision.Save? && reach >= 2
    ensures var t', t2 := SaveDns(t, d, decision, reach, now),
                          ReplaceDnsRow(t, d, SavedRow(t.domains[d], d, decision, now));
            t' == t2 || t' == SetDomainStatus(t2, d, NextStatus(t.domains[d].mode))
  {
  }

  lemma NotTrackedAfterClear(t: Tables, x: Managed)
    ensures !Tracked(ClearDns(t, x.domain), x)
  {
  }

  lemma TrackedAfterInsert(t: Tables, x: Managed, t': Tables, row: DnsRow)
    requires row.domain == Some(x.domain) && row.owner == x.owner
    requires forall r :: r in t.dns ==> t.dns[r].domain != Some(x.domain)
    requires t'.dns == t.dns[t.nextId := row]
    ensures Tracked(t', x) <==> PanelManaged(row) && row.external == x.external
  {
    if PanelManaged(row) && row.external == x.external { assert Tracks(t'.dns, x, t.nextId); }
  }

  lemma SameLedgers(t: Tables, t': Tables, x: Managed)
    requires t'.residues == t.residues && t'.removed == t.removed
    ensures Accounted(t', x) <==> Accounted(t, x)
  {
  }

  lemma ReplacedRemembersIff(t: Tables, row: DnsRow, x: Managed)
    requires Tracked(t, x) && !Accounted(t, x) && row.domain == Some(x.domain) && row.owner == x.owner
    ensures Remembered(ReplaceDnsRow(t, x.domain, row), x) <==> PanelManaged(row) && row.external == x.external
  {
    var t2 := ReplaceDnsRow(t, x.domain, row);
    SameLedgers(t, t2, x);
    TrackedAfterInsert(ClearDns(t, x.domain), x, t2, row);
  }

  lemma SameRecords(t: Tables, t': Tables, x: Managed)
    requires t'.dns == t.dns && t'.residues == t.residues && t'.removed == t.removed
    ensures Remembered(t', x) <==> Remembered(t, x)
  {
  }

  lemma ClearedForgets(t: Tables, x: Managed)
    requires !Accounted(t, x)
    ensures !Remembered(ClearDns(t, x.domain), x)
  {
    SameLedgers(t, ClearDns(t, x.domain), x);
    NotTrackedAfterClear(t, x);
  }

  lemma SavedAlike(t: Tables, d: Id, decision: Decision, reach: nat, now: int, x: Managed)
    requires d in t.domains && decision.Save? && reach >= 2
    ensures Remembered(SaveDns(t, d, decision, reach, now), x)
            <==> Remembered(ReplaceDnsRow(t, d, SavedRow(t.domains[d], d, decision, now)), x)
  {
    SavedIs(t, d, decision, reach, now);
    SameRecords(ReplaceDnsRow(t, d, SavedRow(t.domains[d], d, decision, now)), SaveDns(t, d, decision, reach, now), x);
  }

  lemma SavedRemembersIff(t: Tables, decision: Decision, reach: nat, now: int, x: Managed)
    requires DomainInv(t) && x.domain in t.domains && decision.Save? && reach >= 1 && Tracked(t, x) && !Accounted(t, x)
    ensures Remembered(SaveDns(t, x.domain, decision, reach, now), x) <==> !SyncForgets(t, x.domain, decision, reach, x)
  {
    ClearedForgets(t, x);
    if reach >= 2 {
      SavedAlike(t, x.domain, decision, reach, now, x);
      ReplacedRemembersIff(t, SavedRow(t.domains[x.domain], x.domain, decision, now), x);
    }
  }

  lemma SavedElsewhereRemembers(t: Tables, e: Id, decision: Decision, reach: nat, now: int, x: Managed)
    requires DomainIdsBelow(t) && e in t.domains && decision.Save? && e != x.domain && Remembered(t, x)
    ensures Remembered(SaveDns(t, e, decision, reach, now), x)
  {
    if reach == 1 {
      ClearRemembers(t, e, x);
    } else if reach >= 2 {
      var row := SavedRow(t.domains[e], e, decision, now);
      SavedAlike(t, e, decision, reach, now, x);
      ReplacedUntouched(t, e, row, x.domain);
      UntouchedRemembers(t, ReplaceDnsRow(t, e, row), x);
    }
  }

  lemma StatusUntouched(t: Tables, e: Id, status: DomainStatus, d: Id)
    requires e in t.domains
    ensures RecordsUntouched(t, SetDomainStatus(t, e, status), d)
  {
  }

  lemma SaveAccounted(t: Tables, d: Id, decision: Decision, reach: nat, now: int, x: Managed)
    requires d in t.domains && decision.Save? && Accounted(t, x)
    ensures Accounted(SaveDns(t, d, decision, reach, now), x)
  {
    SaveDnsOnly(t, d, decision, reach, now);
    LedgersKeepAccounts(t, SaveDns(t, d, decision, reach, now), x);
  }

  /** One synchronisation, whatever it decides and however far it gets. */
  lemma SyncedRemembersIff(t: Tables, d: Id, decision: Decision, reach: nat, now: int, x: Managed)
    requires DomainInv(t) && d in t.domains && Remembered(t, x)
    ensures Remembered(Synced(t, d, decision, reach, now), x) <==> !SyncForgets(t, d, decision, reach, x)
  {
    if !decision.Save? {
      StatusUntouched(t, d, PendingDns, x.domain);
      StatusUntouched(t, d, DnsError, x.domain);
      UntouchedRemembers(t, Synced(t, d, decision, reach, now), x);
    } else if Accounted(t, x) {
      SaveAccounted(t, d, decision, reach, now, x);
    } else if d != x.domain {
      SavedElsewhereRemembers(t, d, decision, reach, now, x);
    } else if reach >= 1 {
      SavedRemembersIff(t, decision, reach, now, x);
    }
  }

  // ---------- every step ----------

  /** The step is a synchronisation of a domain that is not being deleted, and forgets. */
  ghost predicate Forgets(t: Tables, op: Op, x: Managed) {
    && op.SyncDnsOp? && op.domain in t.domains && !Leaving(t.domains[op.domain].status)
    && SyncForgets(t, op.domain, SyncDecision(t, op.domain, op.fallback, op.action, op.answers), op.reach, x)
  }

  lemma CreateDomainUntouched(t: Tables, who: AuthContext, req: DomainRequest, otherQuota: bool, key: Option<string>,
                              d: Id)
    requires DomainIdsBelow(t)
    ensures var t' := CreateDomain(t, who, req, otherQuota, key).0; t' == t || RecordsUntouched(t, t', d)
  {
  }

  lemma DomainOpsUntouched(t: Tables, cfg: Config, op: Op, d: Id)
    requires DomainIdsBelow(t) && UserRules(t) && (op.CreateDomainOp? || op.DeleteDomainOp?)
    ensures var t' := Exec(t, cfg, op).0; t' == t || RecordsUntouched(t, t', d)
  {
    match op
    case CreateDomainOp(who, req, otherQuota, key) => CreateDomainUntouched(t, who, req, otherQuota, key, d);
    case DeleteDomainOp(who, e, key) => DeleteDomainOnly(t, who, e, key);
  }

  lemma BindingOpsUntouched(t: Tables, cfg: Config, op: Op, d: Id)
    requires DomainIdsBelow(t) && UserRules(t)
    requires op.CreateDomainOp? || op.DeleteDomainOp? || op.AdvanceDomainOp? || op.DeleteUserOp? || op.DeleteMappingOp?
    ensures var t' := Exec(t, cfg, op).0; t' == t || RecordsUntouched(t, t', d)
  {
    if op.DeleteUserOp? { DeleteUserDomains(t, op.who, op.user, op.force, op.key); }
    else if op.DeleteMappingOp? { DeleteMappingOnly(t, op.who, op.mapping, op.force, op.key); }
    else if op.AdvanceDomainOp? { AdvanceDomainOnly(t, op.domain, op.status, op.operator); }
    else { DomainOpsUntouched(t, cfg, op, d); }
  }

  lemma LoginUntouched(t: Tables, cfg: Config, username: string, password: string, channel: Channel, now: int, d: Id)
    ensures var t' := Login(t, cfg, username, password, channel, now).0; t' == t || RecordsUntouched(t, t', d)
  {
  }

  lemma IdentityOpsUntouched(t: Tables, cfg: Config, op: Op, d: Id)
    requires UserRules(t) && IsIdentityOp(op)
    ensures var t' := Exec(t, cfg, op).0; t' == t || RecordsUntouched(t, t', d)
  {
    match op
    case CreateUserOp(who, username, password, stored) => CreateUserOnly(t, who, username, password, stored);
    case LoginOp(username, password, channel, now) => LoginUntouched(t, cfg, username, password, channel, now, d);
    case SnapshotOp(who, hash) =>
    case _ => IdentityOpOnly(t, cfg, op);
  }

  lemma OtherOpsUntouched(t: Tables, cfg: Config, op: Op, d: Id)
    requires Inv(t) && !IsCleanup(op) && !op.SyncDnsOp?
    ensures var t' := Exec(t, cfg, op).0; t' == t || RecordsUntouched(t, t', d)
  {
    InvUsers(t);
    DomainPart(t);
    if IsIdentityOp(op) { IdentityOpsUntouched(t, cfg, op, d); }
    else if IsMappingOp(op) {
      IdsPart(t);
      MappingOpOnly(t, cfg, op);
    } else { BindingOpsUntouched(t, cfg, op, d); }
  }

  lemma IdsPart(t: Tables)
    requires Inv(t)
    ensures MappingIdsBelow(t)
  {
    InvMeans(t);
  }

  lemma CleanupRemembers(t: Tables, cfg: Config, op: Op, x: Managed)
    requires Inv(t) && Remembered(t, x) && IsCleanup(op)
    ensures Remembered(Exec(t, cfg, op).0, x)
  {
    match op
    case FinalizeMappingOp(m) => FinalizeMappingRemembers(t, m, x);
    case DeleteDomainJob(e, outcome, reach) => CleanUpRemembers(t, e, outcome, reach, x);
    case DeleteUserJob(user, operation, force, work, rest) =>
      DeleteUserExternalRemembers(t, user, operation, force, work, rest, x);
  }

  lemma SyncStepIff(t: Tables, cfg: Config, op: Op, x: Managed)
    requires Inv(t) && Remembered(t, x) && op.SyncDnsOp?
    ensures Remembered(Exec(t, cfg, op).0, x) <==> !Forgets(t, op, x)
  {
    DomainPart(t);
    var d := op.domain;
    if d in t.domains && !Leaving(t.domains[d].status) {
      SyncedRemembersIff(t, d, SyncDecision(t, d, op.fallback, op.action, op.answers), op.reach, op.now, x);
    }
  }

  /** A step of the service forgets a managed record iff it is such a synchronisation. */
  lemma StepRemembersIff(t: Tables, cfg: Config, op: Op, x: Managed)
    requires Inv(t) && Remembered(t, x)
    ensures Remembered(Exec(t, cfg, op).0, x) <==> !Forgets(t, op, x)
  {
    if op.SyncDnsOp? {
      SyncStepIff(t, cfg, op, x);
    } else if IsCleanup(op) {
      CleanupRemembers(t, cfg, op, x);
    } else {
      OtherOpsUntouched(t, cfg, op, x.domain);
      if Exec(t, cfg, op).0 != t { UntouchedRemembers(t, Exec(t, cfg, op).0, x); }
    }
  }

  // ---------- every run ----------

  ghost predicate RememberedThroughout(t: Tables, cfg: Config, ops: seq<Op>, x: Managed)
    decreases |ops|
  {
    Remembered(t, x) && (ops == [] || RememberedThroughout(Exec(t, cfg, ops[0]).0, cfg, ops[1..], x))
  }

  ghost predicate NeverForgets(t: Tables, cfg: Config, ops: seq<Op>, x: Managed)
    decreases |ops|
  {
    ops == [] || (!Forgets(t, ops[0], x) && NeverForgets(Exec(t, cfg, ops[0]).0, cfg, ops[1..], x))
  }

  /** In a run a managed record is remembered in every state iff no step is such a
      synchronisation. */
  lemma {:induction false} RememberedThroughoutIff(t: Tables, cfg: Config, ops: seq<Op>, x: Managed)
    requires Inv(t) && Remembered(t, x)
    ensures RememberedThroughout(t, cfg, ops, x) <==> NeverForgets(t, cfg, ops, x)
    ensures RememberedThroughout(t, cfg, ops, x) ==> Remembered(Run(t, cfg, ops), x)
    decreases |ops|
  {
    if ops != [] {
      StepRemembersIff(t, cfg, ops[0], x);
      if Remembered(Exec(t, cfg, ops[0]).0, x) {
        ExecKeepsInv(t, cfg, ops[0]);
        RememberedThroughoutIff(Exec(t, cfg, ops[0]).0, cfg, ops[1..], x);
      }
    }
  }

  /** In every such run: whenever the domain or its user is gone, the record was deleted by
      the provider or is left as a named residue. */
  lemma GoneIsAccounted(t: Tables, cfg: Config, ops: seq<Op>, x: Managed)
    requires Inv(t) && Tracked(t, x) && NeverForgets(t, cfg, ops, x)
    ensures var t' := Run(t, cfg, ops); x.domain !in t'.domains || x.owner !in t'.users ==> Accounted(t', x)
  {
    RememberedThroughoutIff(t, cfg, ops, x);
    RunKeepsInv(t, cfg, ops);
    DomainPart(Run(t, cfg, ops));
  }

  /** A user that is gone has left no mapping and no domain. */
  lemma GoneOwnsNothing(t: Tables, cfg: Config, user: Id)
    requires Reachable(t, cfg) && user !in t.users
    ensures OwnsNothing(t, user)
  {
    ReachableInv(t, cfg);
    InvMeans(t);
  }

  // ---------- the steps that do forget ----------

  /** The provider lists, among others, the panel's own record, as the panel wrote it. */
  ghost predicate ListsOwn(t: Tables, x: Managed, fallback: DnsSpec, answers: Answers, withTtl: bool) {
    && x.domain in t.domains && answers.token == TokenUsable && answers.zone == Told(Some(x.external.zone))
    && answers.records.Told?
    && var want := Wanted(LatestRow(t.dns, x.domain), t.domains[x.domain].mode, fallback);
       var found := FirstMatch(answers.records.value, want, withTtl);
       found.Some? && found.value.id == x.external.record && !Differs(found.value, want)
  }

  /** To check, to adopt or to overwrite a record that is already there makes the panel
      forget that it is its own. */
  lemma RecheckForgets(t: Tables, op: Op, x: Managed)
    requires Inv(t) && Tracked(t, x) && !Accounted(t, x)
    requires op.SyncDnsOp? && op.domain == x.domain
             && (op.action == Check || op.action == Adopt || op.action == Overwrite)
    requires ListsOwn(t, x, op.fallback, op.answers, false) && !Leaving(t.domains[x.domain].status) && op.reach >= 1
    ensures Forgets(t, op, x)
  {
    DomainPart(t);
    TrackedIsLatest(t, x);
  }

  /** To resynchronise it does not, unless the save fails between its two statements. */
  lemma ResyncForgetsIff(t: Tables, op: Op, x: Managed)
    requires Inv(t) && Tracked(t, x) && !Accounted(t, x)
    requires op.SyncDnsOp? && op.domain == x.domain && op.action == Resync
    requires ListsOwn(t, x, op.fallback, op.answers, true) && !Leaving(t.domains[x.domain].status)
    ensures Forgets(t, op, x) <==> op.reach == 1
  {
    DomainPart(t);
    TrackedIsLatest(t, x);
  }
}
