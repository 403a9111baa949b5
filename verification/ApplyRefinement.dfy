/** The set-wise statements of ApplyResult (server/internal/service/service.go), each as
    a function on the tables it writes, and the proof that their sequence is one
    transition of every mapping of the user. */
module ApplyRefinement {
  import opened Wrappers
  import opened Schema
  import opened Mappings
  import opened MappingInvariants

  // ---------- a successful apply: six statements ----------

  predicate SwitchesAuthority(mappings: map<Id, Mapping>, user: Id, r: Id) {
    exists m | m in mappings ::
      mappings[m].owner == user && mappings[m].pending.Some? && mappings[m].active == Some(r)
  }

  /** The first: active revisions of mappings that have something pending are superseded. */
  function SupersedeReplaced(mappings: map<Id, Mapping>, revisions: map<Id, Revision>, user: Id): map<Id, Revision> {
    map r | r in revisions ::
      if SwitchesAuthority(mappings, user, r) then revisions[r].(status := Superseded) else revisions[r]
  }

  predicate AwaitsActivation(mappings: map<Id, Mapping>, user: Id, r: Id) {
    exists m | m in mappings :: mappings[m].owner == user && mappings[m].pending == Some(r)
  }

  /** The second: pending revisions become active. */
  function ActivatePending(mappings: map<Id, Mapping>, revisions: map<Id, Revision>, user: Id): map<Id, Revision> {
    map r | r in revisions ::
      if AwaitsActivation(mappings, user, r) then revisions[r].(status := Active) else revisions[r]
  }

  /** The third: mappings point to what was pending, if anything was, and to nothing as pending. */
  function PromoteMappings(mappings: map<Id, Mapping>, user: Id): map<Id, Mapping> {
    map m | m in mappings ::
      if mappings[m].owner == user && mappings[m].lifecycle != Deleted then
        mappings[m].(active := if mappings[m].pending.Some? then mappings[m].pending else mappings[m].active,
                     pending := None,
                     lifecycle := if mappings[m].lifecycle == Deleting then Deleting
                                  else if !mappings[m].enabled then Disabled else Running,
                     observed := ObservedRunning)
      else mappings[m]
  }

  predicate HoldsActivePort(mappings: map<Id, Mapping>, revisions: map<Id, Revision>, l: Lease) {
    && l.mapping in mappings && mappings[l.mapping].active.Some?
    && mappings[l.mapping].active.value in revisions
    && revisions[mappings[l.mapping].active.value].port == Some(l.port)
  }

  /** The fourth: leases on another port than the active revision's go, judged by the
      mappings as the previous statement left them. */
  function DropStaleLeases(mappings: map<Id, Mapping>, revisions: map<Id, Revision>, leases: map<Id, Lease>, user: Id)
    : map<Id, Lease>
  {
    map l | l in leases && !(BelongsTo(mappings, leases[l].mapping, user)
                             && !HoldsActivePort(mappings, revisions, leases[l]))
      :: leases[l]
  }

  /** The fifth: the remaining leases become active ones of the active revision. */
  function RepointLeases(mappings: map<Id, Mapping>, leases: map<Id, Lease>, user: Id): map<Id, Lease> {
    map l | l in leases ::
      if BelongsTo(mappings, leases[l].mapping, user) && mappings[leases[l].mapping].active.Some?
      then leases[l].(role := ActiveRole, revision := mappings[leases[l].mapping].active.value)
      else leases[l]
  }

  /** The sixth: the version is the applied one. */
  function MarkApplied(users: map<Id, User>, user: Id, version: int): map<Id, User> {
    if user in users then users[user := users[user].(applied := version, lastFailed := None)] else users
  }

  function SuccessStatements(t: Tables, user: Id, version: int): Tables {
    var t1 := t.(revisions := SupersedeReplaced(t.mappings, t.revisions, user));
    var t2 := t1.(revisions := ActivatePending(t1.mappings, t1.revisions, user));
    var t3 := t2.(mappings := PromoteMappings(t2.mappings, user));
    var t4 := t3.(leases := DropStaleLeases(t3.mappings, t3.revisions, t3.leases, user));
    var t5 := t4.(leases := RepointLeases(t4.mappings, t4.leases, user));
    t5.(users := MarkApplied(t5.users, user, version))
  }

  lemma PromotedMappings(t: Tables, user: Id, version: int)
    ensures PromoteMappings(t.mappings, user) == Settled(t, user, version).mappings
  {
  }

  /** Sets of revision ids chosen over all mappings of the user pick, for each mapping,
      its own revisions: no mapping points into another. */
  lemma ChosenIsOwn(mappings: map<Id, Mapping>, revisions: map<Id, Revision>, user: Id, r: Id)
    requires Pointers(mappings, revisions) && r in revisions && revisions[r].mapping in mappings
    ensures var m := mappings[revisions[r].mapping];
            && (SwitchesAuthority(mappings, user, r) <==> m.owner == user && m.pending.Some? && m.active == Some(r))
            && (AwaitsActivation(mappings, user, r) <==> m.owner == user && m.pending == Some(r))
  {
  }

  lemma ActivatedRevisions(t: Tables, user: Id, version: int)
    requires Pointers(t.mappings, t.revisions) && Parents(t.mappings, t.revisions)
    ensures ActivatePending(t.mappings, SupersedeReplaced(t.mappings, t.revisions, user), user)
            == Settled(t, user, version).revisions
  {
    forall r | r in t.revisions
      ensures ActivatePending(t.mappings, SupersedeReplaced(t.mappings, t.revisions, user), user)[r]
              == Settled(t, user, version).revisions[r]
    {
      ChosenIsOwn(t.mappings, t.revisions, user, r);
    }
  }

  lemma SurvivorHoldsActivePort(t: Tables, user: Id, version: int, l: Lease)
    requires Pointers(t.mappings, t.revisions) && Lifecycles(t.mappings) && BelongsTo(t.mappings, l.mapping, user)
    ensures var t' := Settled(t, user, version);
            HoldsActivePort(t'.mappings, t'.revisions, l) <==> SurvivesApply(t.mappings[l.mapping], t.revisions, l)
  {
  }

  lemma RepointedLeases(t: Tables, user: Id, version: int)
    requires Pointers(t.mappings, t.revisions) && Lifecycles(t.mappings)
    ensures var t' := Settled(t, user, version);
            RepointLeases(t'.mappings, DropStaleLeases(t'.mappings, t'.revisions, t.leases, user), user) == t'.leases
  {
    var t' := Settled(t, user, version);
    var kept := DropStaleLeases(t'.mappings, t'.revisions, t.leases, user);
    var repointed := RepointLeases(t'.mappings, kept, user);
    forall l | l in t.leases
      ensures BelongsTo(t'.mappings, t.leases[l].mapping, user) <==> BelongsTo(t.mappings, t.leases[l].mapping, user)
      ensures l in kept <==> l in t'.leases
      ensures l in kept ==> repointed[l] == t'.leases[l]
    {
      if BelongsTo(t.mappings, t.leases[l].mapping, user) { SurvivorHoldsActivePort(t, user, version, t.leases[l]); }
    }
    assert repointed.Keys == t'.leases.Keys;
  }

  /** The six set-wise statements refine one transition of each mapping of the user:
      SettleMapping on its row, SettleRevision on its revisions, SurvivesApply on its
      leases. */
  lemma SuccessRefines(t: Tables, user: Id, version: int)
    requires MappingInv(t)
    ensures SuccessStatements(t, user, version) == Settled(t, user, version)
  {
    PromotedMappings(t, user, version);
    ActivatedRevisions(t, user, version);
    RepointedLeases(t, user, version);
  }

  // ---------- what that transition means ----------

  lemma SettledFrame(t: Tables, user: Id, version: int)
    ensures var t' := Settled(t, user, version);
            && t'.mappings.Keys == t.mappings.Keys && t'.revisions.Keys == t.revisions.Keys
            && (forall m :: m in t.mappings && t.mappings[m].owner != user ==> t'.mappings[m] == t.mappings[m])
            && (forall r :: r in t.revisions && !BelongsTo(t.mappings, t.revisions[r].mapping, user) ==>
                  t'.revisions[r] == t.revisions[r])
            && (forall u :: u in t.users && u != user ==> t'.users[u] == t.users[u])
  {
  }

  lemma SettledLeaseFrame(t: Tables, user: Id, version: int, l: Id)
    requires l in t.leases && !BelongsTo(t.mappings, t.leases[l].mapping, user)
    ensures l in Settled(t, user, version).leases && Settled(t, user, version).leases[l] == t.leases[l]
  {
  }

  /** Afterwards the user has no pending revision; a mapping that had one has exactly
      that as its active revision and its old active revision superseded; one that had
      none keeps its active revision, with its status. */
  lemma SettledRow(t: Tables, user: Id, version: int, m: Id)
    requires Pointers(t.mappings, t.revisions) && Statuses(t.mappings, t.revisions) && Lifecycles(t.mappings)
    requires m in t.mappings && t.mappings[m].owner == user
    ensures var t' := Settled(t, user, version);
            var before, after := t.mappings[m], t'.mappings[m];
            && after.pending.None?
            && after.active == (if before.pending.Some? then before.pending else before.active)
            && (after.active.Some? ==> t'.revisions[after.active.value].status == Active)
            && (before.pending.Some? && before.active.Some? ==> t'.revisions[before.active.value].status == Superseded)
            && (after.lifecycle == Running <==> before.enabled && before.lifecycle != Deleting)
  {
  }

  /** The user's leases are exactly those that hold the active port, all of role active. */
  lemma SettledUserLeases(t: Tables, user: Id, version: int, l: Id)
    requires Pointers(t.mappings, t.revisions) && Lifecycles(t.mappings)
             && LeasesAnchored(t.mappings, t.revisions, t.leases)
    requires l in t.leases && t.mappings[t.leases[l].mapping].owner == user
    ensures var t' := Settled(t, user, version);
            && (l in t'.leases <==> HoldsActivePort(t'.mappings, t'.revisions, t.leases[l]))
            && (l in t'.leases ==>
                  t'.leases[l] == t.leases[l].(role := ActiveRole,
                                               revision := t'.mappings[t.leases[l].mapping].active.value))
  {
  }

  // ---------- a failed apply: four statements ----------

  function FailRevisions(mappings: map<Id, Mapping>, revisions: map<Id, Revision>, user: Id): map<Id, Revision> {
    map r | r in revisions ::
      if BelongsTo(mappings, revisions[r].mapping, user)
         && (revisions[r].status == Pending || revisions[r].status == Applying)
      then revisions[r].(status := Failed) else revisions[r]
  }

  function DemoteMappings(mappings: map<Id, Mapping>, user: Id): map<Id, Mapping> {
    map m | m in mappings ::
      if mappings[m].owner == user then
        mappings[m].(pending := None,
                     lifecycle := if Sticky(mappings[m].lifecycle) then mappings[m].lifecycle else ConfigError,
                     observed := if Sticky(mappings[m].lifecycle) then mappings[m].observed else ObservedOffline)
      else mappings[m]
  }

  function DropPendingLeases(mappings: map<Id, Mapping>, leases: map<Id, Lease>, user: Id): map<Id, Lease> {
    map l | l in leases && !(BelongsTo(mappings, leases[l].mapping, user) && leases[l].role == PendingRole) :: leases[l]
  }

  function MarkFailed(users: map<Id, User>, user: Id, version: int): map<Id, User> {
    if user in users then users[user := users[user].(lastFailed := Some(version))] else users
  }

  function FailureStatements(t: Tables, user: Id, version: int): Tables {
    var t1 := t.(revisions := FailRevisions(t.mappings, t.revisions, user));
    var t2 := t1.(mappings := DemoteMappings(t1.mappings, user));
    var t3 := t2.(leases := DropPendingLeases(t2.mappings, t2.leases, user));
    t3.(users := MarkFailed(t3.users, user, version))
  }

  lemma FailureRefines(t: Tables, user: Id, version: int)
    ensures FailureStatements(t, user, version) == Abandoned(t, user, version)
  {
    assert DemoteMappings(t.mappings, user) == Abandoned(t, user, version).mappings;
    assert DropPendingLeases(DemoteMappings(t.mappings, user), t.leases, user) == Abandoned(t, user, version).leases;
  }
}
