/** What is running stays running until an apply succeeds: over any run, whatever its
    callers do, in which no successful apply of the user is accepted and none of the user's
    rows is removed, each mapping of the user keeps its active revision, that revision's row,
    and its active leases. A failed apply then leaves nothing pending. */
module Rollback {
  import opened Wrappers
  import opened Schema
  import opened Mappings
  import opened MappingInvariants
  import opened Identity
  import opened DnsSync
  import opened Domains
  import opened Service
  import opened Invariants
  import opened DomainInvariants
  import opened Decay
  import opened Growth

  ghost predicate OwnedBy(t: Tables, user: Id, m: Id) { m in t.mappings && t.mappings[m].owner == user }

  /** The user's mappings keep their active revisions. */
  ghost predicate RowsStand(t: Tables, t': Tables, user: Id) {
    && (forall m :: OwnedBy(t, user, m) ==> OwnedBy(t', user, m) && t'.mappings[m].active == t.mappings[m].active)
    && (forall r :: r in t.revisions && OwnedBy(t, user, t.revisions[r].mapping) && t.revisions[r].status == Active ==>
          r in t'.revisions && t'.revisions[r] == t.revisions[r])
  }

  /** The user's mappings keep exactly their active leases. */
  ghost predicate LeasesStand(t: Tables, t': Tables, user: Id) {
    && (forall l :: l in t.leases && OwnedBy(t, user, t.leases[l].mapping) && t.leases[l].role == ActiveRole ==>
          l in t'.leases && t'.leases[l] == t.leases[l])
    && (forall l :: l in t'.leases && OwnedBy(t, user, t'.leases[l].mapping) && t'.leases[l].role == ActiveRole ==>
          l in t.leases && t.leases[l] == t'.leases[l])
  }

  ghost predicate AppliedStands(t: Tables, t': Tables, user: Id) {
    user in t.users ==> user in t'.users && t'.users[user].applied == t.users[user].applied
  }

  ghost predicate Stands(t: Tables, t': Tables, user: Id) {
    RowsStand(t, t', user) && LeasesStand(t, t', user) && AppliedStands(t, t', user)
  }

  lemma RowsStandOn(t: Tables, t': Tables, t'': Tables, user: Id)
    requires RowsStand(t, t', user) && RowsStand(t', t'', user)
    ensures RowsStand(t, t'', user)
  {
  }

  lemma LeasesStandOn(t: Tables, t': Tables, t'': Tables, user: Id)
    requires RowsStand(t, t', user) && LeasesStand(t, t', user) && LeasesStand(t', t'', user)
    ensures LeasesStand(t, t'', user)
  {
  }

  lemma StandsOn(t: Tables, t': Tables, t'': Tables, user: Id)
    requires Stands(t, t', user) && Stands(t', t'', user)
    ensures Stands(t, t'', user)
  {
    RowsStandOn(t, t', t'', user);
    LeasesStandOn(t, t', t'', user);
  }

  // ---------- one step ----------

  /** The part of the invariant that is needed. */
  ghost predicate StandingRules(t: Tables) {
    && Pointers(t.mappings, t.revisions) && Statuses(t.mappings, t.revisions) && Parents(t.mappings, t.revisions)
    && LeasesAnchored(t.mappings, t.revisions, t.leases) && LeaseRoles(t.mappings, t.leases) && MappingIdsBelow(t)
  }

  lemma StandingRulesHold(t: Tables)
    requires Inv(t)
    ensures StandingRules(t)
  {
    InvMeans(t);
  }

  lemma CreatedStands(t: Tables, who: Id, req: MappingRequest, port: Option<int>, k: RecordKey, user: Id)
    requires StandingRules(t)
    ensures var t' := Created(t, who, req, port, k); RowsStand(t, t', user) && LeasesStand(t, t', user)
  {
    CreatedLeasesStand(t, who, req, port, k, user);
  }

  lemma CreatedLeasesStand(t: Tables, who: Id, req: MappingRequest, port: Option<int>, k: RecordKey, user: Id)
    requires StandingRules(t)
    ensures LeasesStand(t, Created(t, who, req, port, k), user)
  {
  }

  lemma UpdatedRowsStand(t: Tables, m: Id, req: MappingRequest, port: Option<int>, k: RecordKey, user: Id)
    requires m in t.mappings && StandingRules(t)
    ensures RowsStand(t, Updated(t, m, req, port, k), user)
  {
  }

  lemma UpdatedLeasesStand(t: Tables, m: Id, req: MappingRequest, port: Option<int>, k: RecordKey, user: Id)
    requires m in t.mappings && MappingIdsBelow(t)
    ensures LeasesStand(t, Updated(t, m, req, port, k), user)
  {
  }

  lemma SettledStands(t: Tables, who: Id, version: int, user: Id)
    requires who != user
    ensures Stands(t, Settled(t, who, version), user)
  {
  }

  lemma AbandonedStands(t: Tables, who: Id, version: int, user: Id)
    ensures Stands(t, Abandoned(t, who, version), user)
  {
  }

  lemma QuietStands(t: Tables, t': Tables, user: Id)
    requires QuietStep(t, t')
    ensures RowsStand(t, t', user) && LeasesStand(t, t', user)
  {
  }

  predicate Succeeds(t: Tables, op: Op, user: Id) {
    && op.ApplyOp? && op.who.user == user && op.applyReq.status == ApplySucceeded
    && ApplyRefusal(t, user, op.applyReq).None?
  }

  ghost predicate LosesRows(t: Tables, t': Tables, user: Id) {
    (user in t.users && user !in t'.users) || exists m :: OwnedBy(t, user, m) && m !in t'.mappings
  }

  /** The step is no accepted success of the user, and no cleanup that removes rows of the
      user's own. */
  ghost predicate Spares(t: Tables, cfg: Config, op: Op, user: Id) {
    !Succeeds(t, op, user) && !(IsCleanup(op) && LosesRows(t, Exec(t, cfg, op).0, user))
  }

  ghost predicate SparesThroughout(t: Tables, cfg: Config, ops: seq<Op>, user: Id)
    decreases |ops|
  {
    ops == [] || (Spares(t, cfg, ops[0], user) && SparesThroughout(Exec(t, cfg, ops[0]).0, cfg, ops[1..], user))
  }

  lemma DecayStands(t: Tables, t': Tables, user: Id)
    requires RowsDecay(t, t') && Shrinks(t.users, t'.users) && !LosesRows(t, t', user)
    ensures Stands(t, t', user)
  {
  }

  ghost predicate RevisionsStand(t: Tables, t': Tables, user: Id) {
    t' == t || (RowsStand(t, t', user) && LeasesStand(t, t', user))
  }

  lemma CreateMappingStands(t: Tables, cfg: Config, who: AuthContext, req: MappingRequest, key: Option<string>,
                            user: Id)
    requires StandingRules(t)
    ensures RevisionsStand(t, CreateMapping(t, cfg, who, req, key).0, user)
  {
    CreatedStands(t, who.user, req, ChosenPort(t, cfg, req),
                  RecordKey(who.user, who.generation, CreateMappingAt, KeyOf(key, t.nextId)), user);
  }

  lemma UpdateMappingStands(t: Tables, cfg: Config, who: AuthContext, m: Id, req: MappingRequest, key: Option<string>,
                            user: Id)
    requires StandingRules(t)
    ensures RevisionsStand(t, UpdateMapping(t, cfg, who, m, req, key).0, user)
  {
    if m in t.mappings {
      var k := RecordKey(who.user, who.generation, UpdateMappingAt(m), KeyOf(key, t.nextId));
      UpdatedRowsStand(t, m, req, RequestedPort(t, t.mappings[m], req), k, user);
      UpdatedLeasesStand(t, m, req, RequestedPort(t, t.mappings[m], req), k, user);
    }
  }

  lemma ApplyResultStands(t: Tables, who: AuthContext, req: ApplyRequest, user: Id)
    requires !(req.status == ApplySucceeded && who.user == user && ApplyRefusal(t, user, req).None?)
    ensures RevisionsStand(t, ApplyResult(t, who, req).0, user) && AppliedStands(t, ApplyResult(t, who, req).0, user)
  {
    if req.status != ApplySucceeded { AbandonedStands(t, who.user, req.version, user); }
    else if who.user != user { SettledStands(t, who.user, req.version, user); }
  }

  lemma RevisionOpStands(t: Tables, cfg: Config, op: Op, user: Id)
    requires StandingRules(t) && IsRevisionOp(op) && !Succeeds(t, op, user)
    ensures RevisionsStand(t, Exec(t, cfg, op).0, user)
  {
    match op
    case CreateMappingOp(who, req, key) => CreateMappingStands(t, cfg, who, req, key, user);
    case UpdateMappingOp(who, m, req, key) => UpdateMappingStands(t, cfg, who, m, req, key, user);
    case ApplyOp(who, req) => ApplyResultStands(t, who, req, user);
  }

  lemma ApplyOpKeepsApplied(t: Tables, cfg: Config, op: Op, user: Id)
    requires op.ApplyOp? && !Succeeds(t, op, user)
    ensures AppliedStands(t, Exec(t, cfg, op).0, user)
  {
    ApplyResultStands(t, op.who, op.applyReq, user);
  }

  lemma StepStands(t: Tables, cfg: Config, op: Op, user: Id)
    requires Inv(t) && Spares(t, cfg, op, user)
    ensures Stands(t, Exec(t, cfg, op).0, user)
  {
    if IsCleanup(op) {
      CleanupDecays(t, cfg, op);
      DecayStands(t, Exec(t, cfg, op).0, user);
    } else {
      WriteStands(t, cfg, op, user);
    }
  }

  lemma WriteStands(t: Tables, cfg: Config, op: Op, user: Id)
    requires Inv(t) && !IsCleanup(op) && !Succeeds(t, op, user)
    ensures Stands(t, Exec(t, cfg, op).0, user)
  {
    var t' := Exec(t, cfg, op).0;
    StandingRulesHold(t);
    InvUsers(t);
    StepGrows(t, cfg, op);
    if op.ApplyOp? { ApplyOpKeepsApplied(t, cfg, op, user); }
    if IsRevisionOp(op) {
      RevisionOpStands(t, cfg, op, user);
    } else {
      OtherOpsAreQuiet(t, cfg, op);
      if t' != t { QuietStands(t, t', user); }
    }
  }

  lemma {:induction false} RunStands(t: Tables, cfg: Config, ops: seq<Op>, user: Id)
    requires Inv(t) && SparesThroughout(t, cfg, ops, user)
    ensures Stands(t, Run(t, cfg, ops), user)
    decreases |ops|
  {
    if ops != [] {
      var t1 := Exec(t, cfg, ops[0]).0;
      StepStands(t, cfg, ops[0], user);
      ExecKeepsInv(t, cfg, ops[0]);
      RunStands(t1, cfg, ops[1..], user);
      StandsOn(t, t1, Run(t, cfg, ops), user);
    }
  }

  // ---------- a failed apply at the end ----------

  ghost predicate NothingPending(t: Tables, user: Id) {
    && (forall m :: OwnedBy(t, user, m) ==> t.mappings[m].pending.None?)
    && (forall r :: r in t.revisions && OwnedBy(t, user, t.revisions[r].mapping) ==> t.revisions[r].status != Pending)
    && (forall l :: l in t.leases && OwnedBy(t, user, t.leases[l].mapping) ==> t.leases[l].role == ActiveRole)
  }

  lemma AbandonedLeavesNothingPending(t: Tables, user: Id, version: int)
    ensures NothingPending(Abandoned(t, user, version), user)
  {
  }

  /** Whatever creates, updates, toggles, deletions and other users' steps a run holds:
      after a failed apply every mapping the user had before it has its active revision,
      that revision's row, its active leases and the applied version as before, and
      nothing of the user is pending. */
  lemma FailedApplyRestores(t: Tables, cfg: Config, ops: seq<Op>, who: AuthContext, req: ApplyRequest)
    requires Inv(t) && SparesThroughout(t, cfg, ops, who.user)
    requires req.status == ApplyFailed && ApplyResult(Run(t, cfg, ops), who, req).1.Ok?
    ensures var t' := ApplyResult(Run(t, cfg, ops), who, req).0;
            Stands(t, t', who.user) && NothingPending(t', who.user)
  {
    var t1 := Run(t, cfg, ops);
    RunStands(t, cfg, ops, who.user);
    AbandonedStands(t1, who.user, req.version, who.user);
    AbandonedLeavesNothingPending(t1, who.user, req.version);
    StandsOn(t, t1, Abandoned(t1, who.user, req.version), who.user);
  }
}
