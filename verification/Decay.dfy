/** What the cleanup jobs have in common: rows only disappear, a user's rows only with
    the user or with the mapping they hang on, and the ledgers of what was removed or
    left behind only grow. */
module Decay {
  import opened Wrappers
  import opened Schema
  import opened Mappings
  import opened Identity
  import opened DnsSync
  import opened Domains
  import opened Service
  import opened Invariants
  import opened DomainInvariants

  ghost predicate Shrinks<K(!new), V>(a: map<K, V>, b: map<K, V>) {
    forall k :: k in b ==> k in a && a[k] == b[k]
  }

  ghost predicate RowsDecay(t: Tables, t': Tables) {
    && Shrinks(t.mappings, t'.mappings) && Shrinks(t.revisions, t'.revisions) && Shrinks(t.leases, t'.leases)
    && (forall r :: r in t.revisions && t.revisions[r].mapping in t'.mappings ==> r in t'.revisions)
    && (forall l :: l in t.leases && t.leases[l].mapping in t'.mappings ==> l in t'.leases)
  }

  ghost predicate AccountsDecay(t: Tables, t': Tables) {
    && Shrinks(t.users, t'.users) && Shrinks(t.sessions, t'.sessions) && Shrinks(t.runtimes, t'.runtimes)
    && Shrinks(t.records, t'.records) && Shrinks(t.snapshots, t'.snapshots)
    && (forall k :: k in t.records && k.user in t'.users ==> k in t'.records)
  }

  ghost predicate LedgersGrow(t: Tables, t': Tables) {
    Shrinks(t'.residues, t.residues) && t.removed <= t'.removed && t.nextId <= t'.nextId
  }

  ghost predicate Decays(t: Tables, t': Tables) { RowsDecay(t, t') && AccountsDecay(t, t') && LedgersGrow(t, t') }

  lemma RowsDecayOn(t: Tables, t': Tables, t'': Tables)
    requires RowsDecay(t, t') && RowsDecay(t', t'')
    ensures RowsDecay(t, t'')
  {
  }

  lemma AccountsDecayOn(t: Tables, t': Tables, t'': Tables)
    requires AccountsDecay(t, t') && AccountsDecay(t', t'')
    ensures AccountsDecay(t, t'')
  {
  }

  lemma DecaysOn(t: Tables, t': Tables, t'': Tables)
    requires Decays(t, t') && Decays(t', t'')
    ensures Decays(t, t'')
  {
    RowsDecayOn(t, t', t'');
    AccountsDecayOn(t, t', t'');
  }

  // ---------- the statements of the jobs ----------

  lemma NothingDecays(t: Tables)
    ensures Decays(t, t)
  {
  }

  lemma DropMappingDecays(t: Tables, m: Id)
    ensures Decays(t, DropMapping(t, m))
  {
    var t' := DropMapping(t, m);
    assert RowsDecay(t, t');
  }

  lemma FinalizeMappingDecays(t: Tables, m: Id)
    ensures Decays(t, FinalizeMapping(t, m))
  {
    if FinalizeMapping(t, m) == t { NothingDecays(t); } else { DropMappingDecays(t, m); }
  }

  lemma ClearDnsDecays(t: Tables, d: Id)
    ensures Decays(t, ClearDns(t, d))
  {
  }

  lemma DropDomainDecays(t: Tables, d: Id)
    ensures Decays(t, DropDomain(t, d))
  {
  }

  lemma RemovedDecays(t: Tables, external: ExternalRef)
    ensures Decays(t, t.(removed := t.removed + {external}))
  {
  }

  lemma AddResidueDecays(t: Tables, residue: Residue)
    requires DomainIdsBelow(t)
    ensures Decays(t, AddResidue(t, residue))
  {
  }

  lemma RemoveUserDecays(t: Tables, user: Id)
    ensures Decays(t, RemoveUser(t, user))
  {
  }

  // ---------- the jobs ----------

  lemma FinalizeDomainDecays(t: Tables, d: Id, reach: nat)
    ensures Decays(t, FinalizeDomain(t, d, reach).0)
  {
    ClearDnsDecays(t, d);
    if reach >= 2 {
      DropDomainDecays(ClearDns(t, d), d);
      DecaysOn(t, ClearDns(t, d), DropDomain(ClearDns(t, d), d));
      if reach >= 3 && d in t.domains {
        var t2 := DropDomain(ClearDns(t, d), d);
        FinalizeMappingDecays(t2, t.domains[d].mapping);
        DecaysOn(t, t2, FinalizeMapping(t2, t.domains[d].mapping));
      }
    }
  }

  lemma CleanUpDomainDecays(t: Tables, d: Id, outcome: ProviderOutcome, reach: nat)
    ensures Decays(t, CleanUpDomain(t, d, outcome, reach).0)
  {
    var r := LatestDns(t.dns, d);
    NothingDecays(t);
    FinalizeDomainDecays(t, d, reach);
    if r.Some? {
      var external := t.dns[r.value].external;
      var t1 := t.(removed := t.removed + {external});
      RemovedDecays(t, external);
      FinalizeDomainDecays(t1, d, reach);
      DecaysOn(t, t1, FinalizeDomain(t1, d, reach).0);
    }
  }

  lemma DeleteDomainOfUserDecays(t: Tables, operation: Id, force: bool, plan: DomainPlan)
    requires Inv(t)
    ensures Decays(t, DeleteDomainOfUser(t, operation, force, plan).0)
  {
    var t1 := CleanUpDomain(t, plan.domain, plan.outcome, plan.reach).0;
    CleanUpDomainDecays(t, plan.domain, plan.outcome, plan.reach);
    DeleteDomainOfUserIs(t, operation, force, plan);
    if DeleteDomainOfUser(t, operation, force, plan).0 != t1 {
      var residue := Residue(operation, plan.domain, ResidueName(t1, plan.domain));
      var t2 := AddResidue(t1, residue);
      ResidueIdsBelow(t, plan);
      AddResidueDecays(t1, residue);
      DecaysOn(t, t1, t2);
      FinalizeDomainDecays(t2, plan.domain, plan.forcedReach);
      DecaysOn(t, t2, FinalizeDomain(t2, plan.domain, plan.forcedReach).0);
    }
  }

  lemma ResidueIdsBelow(t: Tables, plan: DomainPlan)
    requires Inv(t)
    ensures DomainIdsBelow(CleanUpDomain(t, plan.domain, plan.outcome, plan.reach).0)
  {
    CleanUpDomainKeepsInv(t, plan.domain, plan.outcome, plan.reach);
    InvMeans(CleanUpDomain(t, plan.domain, plan.outcome, plan.reach).0);
  }

  lemma {:induction false} DeleteDomainsOfUserDecays(t: Tables, operation: Id, force: bool, work: seq<DomainPlan>)
    requires Inv(t)
    ensures Decays(t, DeleteDomainsOfUser(t, operation, force, work).0)
    decreases |work|
  {
    if work == [] {
      NothingDecays(t);
    } else {
      var t1 := DeleteDomainOfUser(t, operation, force, work[0]).0;
      DeleteDomainOfUserDecays(t, operation, force, work[0]);
      DeleteDomainOfUserKeepsInv(t, operation, force, work[0]);
      DeleteDomainsOfUserDecays(t1, operation, force, work[1..]);
      DecaysOn(t, t1, DeleteDomainsOfUser(t1, operation, force, work[1..]).0);
    }
  }

  lemma {:induction false} FinalizeMappingsDecays(t: Tables, work: seq<Id>)
    ensures Decays(t, FinalizeMappings(t, work))
    decreases |work|
  {
    if work == [] {
      NothingDecays(t);
    } else {
      FinalizeMappingDecays(t, work[0]);
      FinalizeMappingsDecays(FinalizeMapping(t, work[0]), work[1..]);
      DecaysOn(t, FinalizeMapping(t, work[0]), FinalizeMappings(t, work));
    }
  }

  lemma DeleteUserExternalDecays(t: Tables, user: Id, operation: Id, force: bool, work: seq<DomainPlan>, rest: Finale)
    requires Inv(t)
    ensures Decays(t, DeleteUserExternal(t, user, operation, force, work, rest).0)
  {
    var t1 := DeleteDomainsOfUser(t, operation, force, work).0;
    var t2 := FinalizeMappings(t1, Reached(rest));
    DeleteUserExternalIs(t, user, operation, force, work, rest);
    NothingDecays(t);
    DeleteDomainsOfUserDecays(t, operation, force, work);
    FinalizeMappingsDecays(t1, Reached(rest));
    DecaysOn(t, t1, t2);
    RemoveUserDecays(t2, user);
    DecaysOn(t, t2, RemoveUser(t2, user));
  }

  predicate IsCleanup(op: Op) { op.FinalizeMappingOp? || op.DeleteDomainJob? || op.DeleteUserJob? }

  /** Every cleanup job decays the tables. */
  lemma CleanupDecays(t: Tables, cfg: Config, op: Op)
    requires Inv(t) && IsCleanup(op)
    ensures Decays(t, Exec(t, cfg, op).0)
  {
    if op.DeleteUserJob? { UserJobDecays(t, cfg, op); } else { DomainJobDecays(t, cfg, op); }
  }

  lemma UserJobDecays(t: Tables, cfg: Config, op: Op)
    requires Inv(t) && op.DeleteUserJob?
    ensures Decays(t, Exec(t, cfg, op).0)
  {
    DeleteUserExternalDecays(t, op.user, op.operation, op.force, op.work, op.rest);
  }

  lemma DomainJobDecays(t: Tables, cfg: Config, op: Op)
    requires Inv(t) && (op.FinalizeMappingOp? || op.DeleteDomainJob?)
    ensures Decays(t, Exec(t, cfg, op).0)
  {
    match op
    case FinalizeMappingOp(m) => FinalizeMappingDecays(t, m);
    case DeleteDomainJob(d, outcome, reach) => CleanUpDomainDecays(t, d, outcome, reach);
  }
}
