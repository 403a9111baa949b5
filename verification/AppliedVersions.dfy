/** Where an applied version comes from: over every run it is one that was desired when an
    accepted apply result reported it, with the hash of a configuration that was handed out
    for exactly that version before. */
module AppliedVersions {
  import opened Wrappers
  import opened Schema
  import opened Mappings
  import opened Identity
  import opened Service
  import opened Invariants
  import opened DomainInvariants
  import opened Decay
  import opened Growth
  import opened Idempotency

  ghost function Before(t: Tables, cfg: Config, ops: seq<Op>, i: nat): Tables
    requires i <= |ops|
  {
    Run(t, cfg, ops[..i])
  }

  lemma {:induction false} RunSnoc(t: Tables, cfg: Config, ops: seq<Op>, op: Op)
    ensures Run(t, cfg, ops + [op]) == Exec(Run(t, cfg, ops), cfg, op).0
    decreases |ops|
  {
    if ops == [] {
      assert ops + [op] == [op] && [op][1..] == [];
    } else {
      assert (ops + [op])[0] == ops[0] && (ops + [op])[1..] == ops[1..] + [op];
      RunSnoc(Exec(t, cfg, ops[0]).0, cfg, ops[1..], op);
    }
  }

  // ---------- one step ----------

  /** The step reports that version v of user u was applied, and is believed. */
  ghost predicate Reports(t: Tables, op: Op, u: Id, v: int) {
    && op.ApplyOp? && op.who.user == u && op.applyReq.status == ApplySucceeded && op.applyReq.version == v
    && ApplyResult(t, op.who, op.applyReq).1.Ok?
    && u in t.users && t.users[u].desired == v
  }

  /** The step hands out the configuration of user u, at version v, with this hash. */
  ghost predicate HandsOut(t: Tables, op: Op, u: Id, v: int, hash: int) {
    op.SnapshotOp? && op.who.user == u && op.hash == hash && u in t.users && t.users[u].desired == v
  }

  lemma ApplyUsers(t: Tables, user: Id, version: int)
    requires user in t.users
    ensures Settled(t, user, version).users == t.users[user := t.users[user].(applied := version, lastFailed := None)]
    ensures Abandoned(t, user, version).users == t.users[user := t.users[user].(lastFailed := Some(version))]
  {
  }

  lemma ApplyResultOrigin(t: Tables, who: AuthContext, req: ApplyRequest, u: Id)
    requires u in ApplyResult(t, who, req).0.users
    ensures u in t.users
    ensures ApplyResult(t, who, req).0.users[u].applied == t.users[u].applied
            || (who.user == u && req.status == ApplySucceeded && ApplyResult(t, who, req).1.Ok?
                && req.version == t.users[u].desired == ApplyResult(t, who, req).0.users[u].applied)
  {
    if ApplyRefusal(t, who.user, req).None? { ApplyUsers(t, who.user, req.version); }
  }

  lemma ApplyStepOrigin(t: Tables, cfg: Config, op: Op, u: Id)
    requires op.ApplyOp? && u in Exec(t, cfg, op).0.users
    ensures var v := Exec(t, cfg, op).0.users[u].applied;
            (u in t.users && t.users[u].applied == v) || Reports(t, op, u, v)
  {
    ApplyResultOrigin(t, op.who, op.applyReq, u);
  }

  lemma StepAppliedOrigin(t: Tables, cfg: Config, op: Op, u: Id)
    requires Inv(t) && u in Exec(t, cfg, op).0.users
    ensures var v := Exec(t, cfg, op).0.users[u].applied;
            || (u in t.users && t.users[u].applied == v)
            || (u !in t.users && t.nextId <= u && v == 0)
            || Reports(t, op, u, v)
  {
    InvUsers(t);
    if IsCleanup(op) {
      CleanupDecays(t, cfg, op);
    } else if op.ApplyOp? {
      ApplyStepOrigin(t, cfg, op, u);
    } else {
      StepGrows(t, cfg, op);
    }
  }

  lemma StepSnapshotOrigin(t: Tables, cfg: Config, op: Op, u: Id, v: int)
    requires Inv(t) && (u, v) in Exec(t, cfg, op).0.snapshots
    ensures var hash := Exec(t, cfg, op).0.snapshots[(u, v)];
            ((u, v) in t.snapshots && t.snapshots[(u, v)] == hash) || HandsOut(t, op, u, v, hash)
  {
    InvUsers(t);
    if IsCleanup(op) { CleanupDecays(t, cfg, op); }
    else if !op.SnapshotOp? { StepGrows(t, cfg, op); }
  }

  // ---------- runs ----------

  ghost predicate ReportedAt(t: Tables, cfg: Config, ops: seq<Op>, i: nat, u: Id, v: int) {
    i < |ops| && Reports(Before(t, cfg, ops, i), ops[i], u, v)
  }

  ghost predicate HandedOutAt(t: Tables, cfg: Config, ops: seq<Op>, j: nat, u: Id, v: int, hash: int) {
    j < |ops| && HandsOut(Before(t, cfg, ops, j), ops[j], u, v, hash)
  }

  lemma EarlierAlike(t: Tables, cfg: Config, ops: seq<Op>, n: nat, i: nat)
    requires i <= n <= |ops|
    ensures Before(t, cfg, ops[..n], i) == Before(t, cfg, ops, i)
  {
    assert ops[..n][..i] == ops[..i];
  }

  /** Over any run the applied version of a user is the one it had, or 0 for a new user,
      or was desired when a believed report named it. */
  lemma {:induction false} AppliedOrigin(t: Tables, cfg: Config, ops: seq<Op>, u: Id)
    requires Inv(t) && u in Run(t, cfg, ops).users
    ensures var v := Run(t, cfg, ops).users[u].applied;
            || (u in t.users && t.users[u].applied == v)
            || (u !in t.users && v == 0)
            || exists i: nat :: ReportedAt(t, cfg, ops, i, u, v)
    decreases |ops|
  {
    if ops != [] {
      var n := |ops| - 1;
      var s := Before(t, cfg, ops, n);
      assert ops[..n] + [ops[n]] == ops;
      RunSnoc(t, cfg, ops[..n], ops[n]);
      RunKeepsInv(t, cfg, ops[..n]);
      RunPersists(t, cfg, ops[..n]);
      StepAppliedOrigin(s, cfg, ops[n], u);
      NewIdsAreNew(t, u);
      var v := Run(t, cfg, ops).users[u].applied;
      if Reports(s, ops[n], u, v) {
        assert ReportedAt(t, cfg, ops, n, u, v);
      } else if u in s.users {
        AppliedOrigin(t, cfg, ops[..n], u);
        if i: nat :| ReportedAt(t, cfg, ops[..n], i, u, v) {
          EarlierAlike(t, cfg, ops, n, i);
          assert ReportedAt(t, cfg, ops, i, u, v);
        }
      }
    }
  }

  lemma NewIdsAreNew(t: Tables, u: Id)
    requires Inv(t)
    ensures u in t.users ==> u < t.nextId
  {
    InvUsers(t);
  }

  lemma {:induction false} SnapshotOrigin(password: string, cfg: Config, ops: seq<Op>, u: Id, v: int)
    requires (u, v) in Run(Initial(password), cfg, ops).snapshots
    ensures exists j: nat :: HandedOutAt(Initial(password), cfg, ops, j, u, v,
                                         Run(Initial(password), cfg, ops).snapshots[(u, v)])
    decreases |ops|
  {
    if ops != [] {
      var t, n := Initial(password), |ops| - 1;
      var s, hash := Before(t, cfg, ops, n), Run(t, cfg, ops).snapshots[(u, v)];
      assert ops[..n] + [ops[n]] == ops;
      RunSnoc(t, cfg, ops[..n], ops[n]);
      InitialInv(password);
      RunKeepsInv(t, cfg, ops[..n]);
      StepSnapshotOrigin(s, cfg, ops[n], u, v);
      if HandsOut(s, ops[n], u, v, hash) {
        assert HandedOutAt(t, cfg, ops, n, u, v, hash);
      } else {
        SnapshotOrigin(password, cfg, ops[..n], u, v);
        var j: nat :| HandedOutAt(t, cfg, ops[..n], j, u, v, hash);
        EarlierAlike(t, cfg, ops, n, j);
        assert HandedOutAt(t, cfg, ops, j, u, v, hash);
      }
    }
  }

  /** From the fresh database: an applied version other than 0 was desired when a believed
      report named it; and if that report gave a hash, an earlier step had handed out the
      user's configuration with that hash while that very version was desired. */
  lemma AppliedWasHandedOut(password: string, cfg: Config, ops: seq<Op>, u: Id)
    requires u in Run(Initial(password), cfg, ops).users
    ensures var t := Initial(password);
            var v := Run(t, cfg, ops).users[u].applied;
            v != 0 ==> exists i: nat :: ReportedAt(t, cfg, ops, i, u, v) && Covered(t, cfg, ops, i)
  {
    var t := Initial(password);
    var v := Run(t, cfg, ops).users[u].applied;
    InitialInv(password);
    AppliedOrigin(t, cfg, ops, u);
    if v != 0 {
      var i: nat :| ReportedAt(t, cfg, ops, i, u, v);
      ReportCovered(password, cfg, ops, i, u, v);
    }
  }

  lemma ReportCovered(password: string, cfg: Config, ops: seq<Op>, i: nat, u: Id, v: int)
    requires ReportedAt(Initial(password), cfg, ops, i, u, v)
    ensures Covered(Initial(password), cfg, ops, i)
  {
    var t := Initial(password);
    if ops[i].applyReq.hash.Some? {
      ReportHasSnapshot(Before(t, cfg, ops, i), ops[i], u, v);
      SnapshotOrigin(password, cfg, ops[..i], u, v);
      var j: nat :| HandedOutAt(t, cfg, ops[..i], j, u, v, ops[i].applyReq.hash.value);
      EarlierAlike(t, cfg, ops, i, j);
      assert HandedOutAt(t, cfg, ops, j, u, v, ops[i].applyReq.hash.value);
    }
  }

  lemma ReportHasSnapshot(t: Tables, op: Op, u: Id, v: int)
    requires Reports(t, op, u, v) && op.applyReq.hash.Some?
    ensures (u, v) in t.snapshots && t.snapshots[(u, v)] == op.applyReq.hash.value
  {
  }

  /** The hash that the report at i gives, if any, was handed out before, for its version. */
  ghost predicate Covered(t: Tables, cfg: Config, ops: seq<Op>, i: nat)
    requires i < |ops| && ops[i].ApplyOp?
  {
    ops[i].applyReq.hash.Some? ==>
      exists j: nat :: j < i && HandedOutAt(t, cfg, ops, j, ops[i].who.user, ops[i].applyReq.version,
                                            ops[i].applyReq.hash.value)
  }
}
