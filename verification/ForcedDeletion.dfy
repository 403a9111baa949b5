/** When a forced deletion of a user completes in one run of its job: whatever the provider
    answers, as long as the panel's own statements succeed, it does iff everything the user
    owns is still being deleted. */
module ForcedDeletion {
  import opened Wrappers
  import opened Schema
  import opened Mappings
  import opened MappingInvariants
  import opened Identity
  import opened DnsSync
  import opened Domains
  import opened Service
  import opened Invariants
  import opened DomainInvariants
  import opened Decay
  import opened Witnesses

  /** The residue row is stored and the second finalizing reaches its end. */
  ghost predicate LocallySound(work: seq<DomainPlan>) {
    forall i :: 0 <= i < |work| ==> work[i].residueStored && work[i].forcedReach >= 3
  }

  ghost predicate AllDeleting(t: Tables, user: Id) {
    && (forall d :: d in t.domains && t.domains[d].owner == user ==> t.domains[d].status == DeletingDomain)
    && (forall m :: m in t.mappings && t.mappings[m].owner == user ==> t.mappings[m].lifecycle == Deleting)
  }

  // ---------- domains only disappear ----------

  lemma DropMappingShrinks(t: Tables, m: Id)
    ensures Shrinks(t.domains, DropMapping(t, m).domains) && Shrinks(t.mappings, DropMapping(t, m).mappings)
  {
  }

  lemma FinalizeMappingShrinks(t: Tables, m: Id)
    ensures Shrinks(t.domains, FinalizeMapping(t, m).domains) && Shrinks(t.mappings, FinalizeMapping(t, m).mappings)
  {
    if FinalizeMapping(t, m) != t { DropMappingShrinks(t, m); }
  }

  lemma FinalizeMappingShrinksOn(domains: map<Id, Domain>, t: Tables, m: Id)
    requires Shrinks(domains, t.domains)
    ensures Shrinks(domains, FinalizeMapping(t, m).domains)
  {
    FinalizeMappingShrinks(t, m);
  }

  lemma DropDomainShrinks(t: Tables, d: Id)
    ensures var t' := DropDomain(ClearDns(t, d), d); t'.domains == t.domains || t'.domains == t.domains - {d}
  {
  }

  lemma FinalizeDomainShrinks(t: Tables, d: Id, reach: nat)
    ensures Shrinks(t.domains, FinalizeDomain(t, d, reach).0.domains)
  {
    var t2 := DropDomain(ClearDns(t, d), d);
    DropDomainShrinks(t, d);
    if reach >= 3 && d in t.domains { FinalizeMappingShrinksOn(t.domains, t2, t.domains[d].mapping); }
  }

  lemma FinalizedIsGone(t: Tables, d: Id, reach: nat)
    requires reach >= 3 && (d in t.domains ==> t.domains[d].status == DeletingDomain)
    ensures var (t', failed) := FinalizeDomain(t, d, reach); d !in t'.domains && !failed
  {
    assert d !in DropDomain(ClearDns(t, d), d).domains;
  }

  lemma CleanUpShrinks(t: Tables, d: Id, outcome: ProviderOutcome, reach: nat)
    ensures Shrinks(t.domains, CleanUpDomain(t, d, outcome, reach).0.domains)
  {
    var t' := CleanUpDomain(t, d, outcome, reach).0;
    CleanUpDomainIs(t, d, outcome, reach);
    if t' != t {
      var removed :| t' == FinalizeDomain(t.(removed := removed), d, reach).0;
      FinalizeDomainShrinks(t.(removed := removed), d, reach);
    }
  }

  /** One forced turn of the loop never stops it and always gets rid of its domain. */
  lemma ForcedTurn(t: Tables, operation: Id, plan: DomainPlan)
    requires plan.residueStored && plan.forcedReach >= 3
    requires plan.domain in t.domains ==> t.domains[plan.domain].status == DeletingDomain
    ensures var (t', stopped) := DeleteDomainOfUser(t, operation, true, plan);
            !stopped && plan.domain !in t'.domains && Shrinks(t.domains, t'.domains)
  {
    var (t1, failed) := CleanUpDomain(t, plan.domain, plan.outcome, plan.reach);
    CleanUpShrinks(t, plan.domain, plan.outcome, plan.reach);
    if failed || plan.domain in t1.domains {
      var t2 := AddResidue(t1, Residue(operation, plan.domain, ResidueName(t1, plan.domain)));
      assert t2.domains == t1.domains;
      FinalizedIsGone(t2, plan.domain, plan.forcedReach);
      FinalizeDomainShrinks(t2, plan.domain, plan.forcedReach);
    }
  }

  lemma {:induction false} ForcedTurns(t: Tables, operation: Id, work: seq<DomainPlan>)
    requires LocallySound(work)
    requires forall i :: 0 <= i < |work| && work[i].domain in t.domains ==>
               t.domains[work[i].domain].status == DeletingDomain
    ensures var (t', stopped) := DeleteDomainsOfUser(t, operation, true, work);
            && !stopped && Shrinks(t.domains, t'.domains)
            && (forall i :: 0 <= i < |work| ==> work[i].domain !in t'.domains)
    decreases |work|
  {
    if work != [] {
      var t1 := DeleteDomainOfUser(t, operation, true, work[0]).0;
      ForcedTurn(t, operation, work[0]);
      ForcedTurns(t1, operation, work[1..]);
      forall i | 0 <= i < |work| ensures work[i].domain !in DeleteDomainsOfUser(t, operation, true, work).0.domains {
        if i > 0 { assert work[i] == work[1..][i - 1]; }
      }
    }
  }

  // ---------- then the mappings go ----------

  lemma FinalizedMappingIsGone(t: Tables, m: Id)
    requires m in t.mappings ==> t.mappings[m].lifecycle == Deleting && !BlockedByDomain(t, m)
    ensures m !in FinalizeMapping(t, m).mappings
  {
  }

  lemma StillUnblocked(t: Tables, t': Tables, m: Id)
    requires Shrinks(t.domains, t'.domains) && !BlockedByDomain(t, m)
    ensures !BlockedByDomain(t', m)
  {
  }

  lemma {:induction false} FinalizedMappingsAreGone(t: Tables, work: seq<Id>)
    requires forall i :: 0 <= i < |work| && work[i] in t.mappings ==>
      t.mappings[work[i]].lifecycle == Deleting && !BlockedByDomain(t, work[i])
    ensures var t' := FinalizeMappings(t, work);
            && Shrinks(t.domains, t'.domains) && Shrinks(t.mappings, t'.mappings)
            && (forall i :: 0 <= i < |work| ==> work[i] !in t'.mappings)
    decreases |work|
  {
    if work != [] {
      var t1 := FinalizeMapping(t, work[0]);
      FinalizeMappingShrinks(t, work[0]);
      FinalizedMappingIsGone(t, work[0]);
      forall i | 0 <= i < |work[1..]| && work[1..][i] in t1.mappings ensures !BlockedByDomain(t1, work[1..][i]) {
        assert work[1..][i] == work[i + 1];
        StillUnblocked(t, t1, work[i + 1]);
      }
      FinalizedMappingsAreGone(t1, work[1..]);
      forall i | 0 <= i < |work| ensures work[i] !in FinalizeMappings(t, work).mappings {
        if i > 0 { assert work[i] == work[1..][i - 1]; }
      }
    }
  }

  lemma DomainlessAreListed(t: Tables, user: Id, mappings: seq<Id>)
    requires DomainInv(t) && AllDeleting(t, user) && ListsMappings(t, user, mappings)
    requires forall d :: d in t.domains ==> t.domains[d].owner != user
    ensures forall m :: m in t.mappings && t.mappings[m].owner == user ==> m in mappings
    ensures forall m :: m in mappings ==> t.mappings[m].lifecycle == Deleting && !BlockedByDomain(t, m)
  {
    forall m | m in t.mappings && t.mappings[m].owner == user ensures m in mappings {
      assert AwaitsDrop(t, user, m);
    }
    forall m | m in mappings ensures t.mappings[m].lifecycle == Deleting && !BlockedByDomain(t, m) {
      assert AwaitsDrop(t, user, m);
    }
  }

  lemma DomainsListed(t: Tables, user: Id, work: seq<DomainPlan>)
    requires AllDeleting(t, user) && ListsDomains(t, user, work)
    ensures forall i :: 0 <= i < |work| && work[i].domain in t.domains ==>
              t.domains[work[i].domain].status == DeletingDomain
    ensures forall d :: d in t.domains && t.domains[d].owner == user ==>
              exists i :: 0 <= i < |work| && work[i].domain == d
  {
    forall i | 0 <= i < |work| ensures AwaitsRemoval(t, user, work[i].domain) {
      assert AwaitsRemoval(t, user, work[i].domain);
    }
    forall d | d in t.domains && t.domains[d].owner == user ensures exists i :: 0 <= i < |work| && work[i].domain == d {
      assert AwaitsRemoval(t, user, d);
    }
  }

  lemma DeletingUserStays(t: Tables, t': Tables, user: Id)
    requires RowsDecay(t, t') && Shrinks(t.domains, t'.domains) && AllDeleting(t, user)
    ensures AllDeleting(t', user)
  {
  }

  lemma ForceRemoves(t: Tables, user: Id, operation: Id, work: seq<DomainPlan>, rest: Finale)
    requires Inv(t) && user in t.users && !t.users[user].admin && t.users[user].status == DeletingUser
    requires AllDeleting(t, user) && ListsDomains(t, user, work) && LocallySound(work)
    requires ListsMappings(DeleteDomainsOfUser(t, operation, true, work).0, user, rest.mappings)
    requires rest.finalized >= |rest.mappings| && rest.committed
    ensures var (t', r) := DeleteUserExternal(t, user, operation, true, work, rest);
            r == Ok(()) && user !in t'.users
  {
    var t1 := DeleteDomainsOfUser(t, operation, true, work).0;
    DomainsListed(t, user, work);
    ForcedTurns(t, operation, work);
    assert forall d :: d in t1.domains ==> t1.domains[d].owner != user;
    AfterDomains(t, user, operation, work, rest.mappings);
    FinalizedMappingsAreGone(t1, rest.mappings);
    assert OwnsNothing(FinalizeMappings(t1, rest.mappings), user);
  }

  lemma AfterDomains(t: Tables, user: Id, operation: Id, work: seq<DomainPlan>, mappings: seq<Id>)
    requires Inv(t) && AllDeleting(t, user)
    requires var t1 := DeleteDomainsOfUser(t, operation, true, work).0;
             && ListsMappings(t1, user, mappings) && Shrinks(t.domains, t1.domains)
             && forall d :: d in t1.domains ==> t1.domains[d].owner != user
    ensures var t1 := DeleteDomainsOfUser(t, operation, true, work).0;
            && (forall m :: m in t1.mappings && t1.mappings[m].owner == user ==> m in mappings)
            && (forall m :: m in mappings && m in t1.mappings ==>
                  t1.mappings[m].lifecycle == Deleting && !BlockedByDomain(t1, m))
  {
    var t1 := DeleteDomainsOfUser(t, operation, true, work).0;
    DeleteDomainsOfUserDecays(t, operation, true, work);
    DeletingUserStays(t, t1, user);
    DeleteDomainsOfUserKeepsInv(t, operation, true, work);
    InvMeans(t1);
    DomainlessAreListed(t1, user, mappings);
  }

  // ---------- what is not being deleted stays ----------

  /** Users stay, and so do domains and mappings that are not being deleted. */
  ghost predicate SparesLiving(t: Tables, t': Tables) {
    && t'.users == t.users && Shrinks(t.domains, t'.domains)
    && (forall d :: d in t.domains && t.domains[d].status != DeletingDomain ==> d in t'.domains)
    && (forall m :: m in t.mappings && t.mappings[m].lifecycle != Deleting ==>
          m in t'.mappings && t'.mappings[m] == t.mappings[m])
  }

  ghost predicate NoneDeleted(t: Tables) { forall d :: d in t.domains ==> t.domains[d].status != DeletedDomain }

  lemma SparesOn(t: Tables, t': Tables, t'': Tables)
    requires SparesLiving(t, t') && SparesLiving(t', t'')
    ensures SparesLiving(t, t'')
  {
  }

  lemma StillNoneDeleted(t: Tables, t': Tables)
    requires NoneDeleted(t) && SparesLiving(t, t')
    ensures NoneDeleted(t')
  {
  }

  /** A mapping with a domain is never dropped. */
  lemma FinalizeMappingSpares(t: Tables, m: Id)
    requires NoneDeleted(t)
    ensures SparesLiving(t, FinalizeMapping(t, m))
  {
  }

  lemma DropDomainSpares(t: Tables, d: Id)
    ensures SparesLiving(t, DropDomain(t, d))
  {
    var t' := DropDomain(t, d);
    assert t'.users == t.users && t'.mappings == t.mappings;
    if t' != t { WithoutOne(t.domains, d); }
  }

  lemma WithoutOne(domains: map<Id, Domain>, d: Id)
    ensures Shrinks(domains, domains - {d}) && forall e :: e in domains && e != d ==> e in domains - {d}
  {
  }

  lemma ClearAndDropSpare(t: Tables, d: Id)
    ensures SparesLiving(t, DropDomain(ClearDns(t, d), d)) && SparesLiving(t, ClearDns(t, d))
  {
    var t1 := ClearDns(t, d);
    SameRowsSpare(t, t1, t1);
    DropDomainSpares(t1, d);
    SameRowsSpare(t, t1, DropDomain(t1, d));
  }

  lemma FinalizeDomainSpares(t: Tables, d: Id, reach: nat)
    requires NoneDeleted(t)
    ensures SparesLiving(t, FinalizeDomain(t, d, reach).0)
  {
    var t2 := DropDomain(ClearDns(t, d), d);
    ClearAndDropSpare(t, d);
    if reach >= 3 && d in t.domains {
      StillNoneDeleted(t, t2);
      FinalizeMappingSpares(t2, t.domains[d].mapping);
      SparesOn(t, t2, FinalizeMapping(t2, t.domains[d].mapping));
    }
  }

  lemma SameRowsSpare(t: Tables, t1: Tables, t': Tables)
    requires t1.users == t.users && t1.domains == t.domains && t1.mappings == t.mappings && SparesLiving(t1, t')
    ensures SparesLiving(t, t')
  {
  }

  lemma CleanUpSpares(t: Tables, d: Id, outcome: ProviderOutcome, reach: nat)
    requires NoneDeleted(t)
    ensures SparesLiving(t, CleanUpDomain(t, d, outcome, reach).0)
  {
    var t' := CleanUpDomain(t, d, outcome, reach).0;
    CleanUpDomainIs(t, d, outcome, reach);
    if t' != t {
      var removed :| t' == FinalizeDomain(t.(removed := removed), d, reach).0;
      FinalizeDomainSpares(t.(removed := removed), d, reach);
      SameRowsSpare(t, t.(removed := removed), t');
    }
  }

  lemma TurnSpares(t: Tables, operation: Id, force: bool, plan: DomainPlan)
    requires NoneDeleted(t)
    ensures SparesLiving(t, DeleteDomainOfUser(t, operation, force, plan).0)
  {
    var t1 := CleanUpDomain(t, plan.domain, plan.outcome, plan.reach).0;
    CleanUpSpares(t, plan.domain, plan.outcome, plan.reach);
    StillNoneDeleted(t, t1);
    var t2 := AddResidue(t1, Residue(operation, plan.domain, ResidueName(t1, plan.domain)));
    FinalizeDomainSpares(t2, plan.domain, plan.forcedReach);
    SameRowsSpare(t1, t2, FinalizeDomain(t2, plan.domain, plan.forcedReach).0);
    SparesOn(t, t1, FinalizeDomain(t2, plan.domain, plan.forcedReach).0);
  }

  lemma {:induction false} TurnsSpare(t: Tables, operation: Id, force: bool, work: seq<DomainPlan>)
    requires NoneDeleted(t)
    ensures SparesLiving(t, DeleteDomainsOfUser(t, operation, force, work).0)
    decreases |work|
  {
    if work != [] {
      var (t1, stopped) := DeleteDomainOfUser(t, operation, force, work[0]);
      TurnSpares(t, operation, force, work[0]);
      if !stopped {
        StillNoneDeleted(t, t1);
        TurnsSpare(t1, operation, force, work[1..]);
        SparesOn(t, t1, DeleteDomainsOfUser(t1, operation, force, work[1..]).0);
      }
    }
  }

  lemma {:induction false} FinalizeMappingsSpare(t: Tables, work: seq<Id>)
    requires NoneDeleted(t)
    ensures SparesLiving(t, FinalizeMappings(t, work))
    decreases |work|
  {
    if work != [] {
      var t1 := FinalizeMapping(t, work[0]);
      FinalizeMappingSpares(t, work[0]);
      StillNoneDeleted(t, t1);
      FinalizeMappingsSpare(t1, work[1..]);
      SparesOn(t, t1, FinalizeMappings(t1, work[1..]));
    }
  }

  lemma LivingStays(t: Tables, t': Tables, user: Id)
    requires SparesLiving(t, t') && !AllDeleting(t, user)
    ensures !AllDeleting(t', user) && !OwnsNothing(t', user)
  {
    if d :| d in t.domains && t.domains[d].owner == user && t.domains[d].status != DeletingDomain {
      assert d in t'.domains && t'.domains[d] == t.domains[d];
    } else {
      var m :| m in t.mappings && t.mappings[m].owner == user && t.mappings[m].lifecycle != Deleting;
      assert m in t'.mappings && t'.mappings[m] == t.mappings[m];
    }
  }

  lemma ForceWaits(t: Tables, user: Id, operation: Id, work: seq<DomainPlan>, rest: Finale)
    requires Inv(t) && user in t.users && !t.users[user].admin && t.users[user].status == DeletingUser
    requires !AllDeleting(t, user) && ListsDomains(t, user, work) && LocallySound(work)
    requires ListsMappings(DeleteDomainsOfUser(t, operation, true, work).0, user, rest.mappings)
    requires rest.finalized >= |rest.mappings| && rest.committed
    ensures var (t', r) := DeleteUserExternal(t, user, operation, true, work, rest);
            r == Err(Waiting) && t'.users == t.users && !AllDeleting(t', user)
  {
    var t1 := DeleteDomainsOfUser(t, operation, true, work).0;
    var t2 := FinalizeMappings(t1, rest.mappings);
    InvMeans(t);
    ListedAreDeleting(t, user, work);
    ForcedTurns(t, operation, work);
    TurnsSpare(t, operation, true, work);
    StillNoneDeleted(t, t1);
    FinalizeMappingsSpare(t1, rest.mappings);
    SparesOn(t, t1, t2);
    LivingStays(t, t2, user);
  }

  lemma ListedAreDeleting(t: Tables, user: Id, work: seq<DomainPlan>)
    requires ListsDomains(t, user, work)
    ensures forall i :: 0 <= i < |work| ==>
              work[i].domain in t.domains && t.domains[work[i].domain].status == DeletingDomain
  {
    forall i | 0 <= i < |work| ensures AwaitsRemoval(t, user, work[i].domain) {
      assert AwaitsRemoval(t, user, work[i].domain);
    }
  }

  /** With force and no failing statement of the panel's own, for every combination of
      provider answers and of places where the first cleanup of a domain gives up: one run
      removes the user iff everything the user owns is still being deleted. Otherwise it
      waits, and so does the next run. */
  lemma ForceCompletesIff(t: Tables, user: Id, operation: Id, work: seq<DomainPlan>, rest: Finale)
    requires Inv(t) && user in t.users && !t.users[user].admin && t.users[user].status == DeletingUser
    requires ListsDomains(t, user, work) && LocallySound(work)
    requires ListsMappings(DeleteDomainsOfUser(t, operation, true, work).0, user, rest.mappings)
    requires rest.finalized >= |rest.mappings| && rest.committed
    ensures var (t', r) := DeleteUserExternal(t, user, operation, true, work, rest);
            if AllDeleting(t, user) then r == Ok(()) && user !in t'.users
            else r == Err(Waiting) && t'.users == t.users && !AllDeleting(t', user)
  {
    if AllDeleting(t, user) { ForceRemoves(t, user, operation, work, rest); }
    else { ForceWaits(t, user, operation, work, rest); }
  }

  // ---------- how the condition comes and goes ----------

  /** The request for the deletion marks everything. */
  lemma RequestMarksAll(t: Tables, who: AuthContext, user: Id, force: bool, key: Option<string>)
    requires DomainInv(t) && Lifecycles(t.mappings) && user in t.users && t.users[user].status != DeletingUser
    requires DeleteUser(t, who, user, force, key).0 != t
    ensures var t' := DeleteUser(t, who, user, force, key).0;
            AllDeleting(t', user) && t'.users[user].status == DeletingUser
  {
  }

  /** A second one, with or without force, marks nothing. */
  lemma SecondRequestMarksNothing(t: Tables, who: AuthContext, user: Id, force: bool, key: Option<string>)
    requires user in t.users && t.users[user].status == DeletingUser
    ensures var t' := DeleteUser(t, who, user, force, key).0;
            t'.users == t.users && t'.domains == t.domains && t'.mappings == t.mappings
  {
  }

  /** An operator's action on a domain, or its retry, undoes the mark. */
  lemma OperatorUnmarks(t: Tables, d: Id, status: DomainStatus)
    requires d in t.domains && t.domains[d].status == DeletingDomain && !Leaving(status)
    ensures !AllDeleting(AdvanceDomain(t, d, status, true), t.domains[d].owner)
  {
    assert AdvanceDomain(t, d, status, true).domains[d].status == status;
  }

  /** So does switching a mapping that is being deleted, once such a request is let in. */
  lemma ToggleUnmarks(t: Tables, who: AuthContext, m: Id, enabled: bool, expectedVersion: Option<int>,
                      expectedRevision: Option<int>, key: Option<string>)
    requires ToggleMapping(t, who, m, enabled, expectedVersion, expectedRevision, key).0 != t
    ensures !AllDeleting(ToggleMapping(t, who, m, enabled, expectedVersion, expectedRevision, key).0, who.user)
  {
    var t' := ToggleMapping(t, who, m, enabled, expectedVersion, expectedRevision, key).0;
    assert t'.mappings[m].lifecycle != Deleting;
  }

  // ---------- an example ----------

  /** User 1 is being deleted, with its mapping 3 and its domain 5. */
  function BeingDeleted(): Tables {
    Initial("").(
      nextId := 100,
      users := People(Ann().(status := DeletingUser), Bob()),
      mappings := map[3 := Mapping(1, "web", Http, Deleting, false, ObservedRunning, Some(4), None)],
      revisions := map[4 := Revision(3, 1, "127.0.0.1", 80, None, Active)],
      domains := map[5 := Domain(1, 3, "www.example.com", HttpOnly, DeletingDomain)],
      deletions := map[1 := Deletion(9, false)])
  }

  lemma BeingDeletedDomains(t: Tables)
    requires t == BeingDeleted()
    ensures DomainInv(t)
  {
  }

  lemma BeingDeletedInv(t: Tables)
    requires t == BeingDeleted()
    ensures Inv(t)
  {
    var ann := Ann().(status := DeletingUser);
    OneRunning(t.mappings, t.revisions, 3, 4);
    NothingLeased(t);
    SidesOfOne(t, ann, Bob(), 3, 4);
    PeopleDiffer(ann, Bob());
    NobodyLoggedIn(t);
    BeingDeletedDomains(t);
    MakeInv(t);
  }

  lemma StaysStuck(t: Tables, t1: Tables, t2: Tables, who: AuthContext)
    requires t == BeingDeleted() && t1 == AdvanceDomain(t, 5, PendingDns, true)
    requires t2 == DeleteUser(t1, who, 1, true, None).0
    ensures 1 in t2.users && !t2.users[1].admin && t2.users[1].status == DeletingUser && !AllDeleting(t2, 1)
  {
    OperatorUnmarks(t, 5, PendingDns);
    assert t1.users == t.users;
    SecondRequestMarksNothing(t1, who, 1, true, None);
  }

  /** An operator checks the DNS of the domain meanwhile. From then on a forced deletion
      waits, although it is requested again and no statement fails. */
  lemma StuckExample(t: Tables, t1: Tables, t2: Tables, who: AuthContext, operation: Id, work: seq<DomainPlan>,
                     rest: Finale)
    requires t == BeingDeleted() && t1 == AdvanceDomain(t, 5, PendingDns, true)
    requires t2 == DeleteUser(t1, who, 1, true, None).0
    requires ListsDomains(t2, 1, work) && LocallySound(work)
    requires ListsMappings(DeleteDomainsOfUser(t2, operation, true, work).0, 1, rest.mappings)
    requires rest.finalized >= |rest.mappings| && rest.committed
    ensures Inv(t) && AllDeleting(t, 1) && DeleteUserExternal(t2, 1, operation, true, work, rest).1 == Err(Waiting)
  {
    BeingDeletedInv(t);
    AdvanceDomainKeepsInv(t, 5, PendingDns, true);
    DeleteUserKeepsInv(t1, who, 1, true, None);
    StaysStuck(t, t1, t2, who);
    ForceCompletesIff(t2, 1, operation, work, rest);
  }
}
