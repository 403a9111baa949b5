/** Keyed writes: a recorded request is answered from its record for ever, and a
    configuration version is consumed at most once. */
module Idempotency {
  import opened Wrappers
  import opened Schema
  import opened Mappings
  import opened MappingInvariants
  import opened Identity
  import opened DnsSync
  import opened Domains
  import opened Service
  import opened Invariants
  import opened DomainInvariants
  import opened Decay
  import opened Growth

  // ---------- what survives every run ----------

  /** Users that are still there have not gone back, and their records are kept. */
  ghost predicate Persists(t: Tables, t': Tables) {
    && t.nextId <= t'.nextId
    && (forall u :: u in t'.users && u < t.nextId ==>
          && u in t.users
          && t.users[u].desired <= t'.users[u].desired && t.users[u].generation <= t'.users[u].generation)
    && (forall k :: k in t.records && k.user in t'.users && k.user < t.nextId ==>
          k in t'.records && t'.records[k] == t.records[k])
  }

  lemma PersistsOn(t: Tables, t': Tables, t'': Tables)
    requires Persists(t, t') && Persists(t', t'')
    ensures Persists(t, t'')
  {
  }

  lemma StepPersists(t: Tables, cfg: Config, op: Op)
    requires Inv(t)
    ensures Persists(t, Exec(t, cfg, op).0)
  {
    InvUsers(t);
    if IsCleanup(op) {
      CleanupDecays(t, cfg, op);
      DecaysPersists(t, Exec(t, cfg, op).0);
    } else {
      StepGrows(t, cfg, op);
      GrowsPersists(t, Exec(t, cfg, op).0);
    }
  }

  lemma DecaysPersists(t: Tables, t': Tables)
    requires Decays(t, t')
    ensures Persists(t, t')
  {
  }

  lemma GrowsPersists(t: Tables, t': Tables)
    requires t' == t || Grows(t, t')
    ensures Persists(t, t')
  {
  }

  lemma {:induction false} RunPersists(t: Tables, cfg: Config, ops: seq<Op>)
    requires Inv(t)
    ensures Persists(t, Run(t, cfg, ops))
    decreases |ops|
  {
    if ops != [] {
      var t1 := Exec(t, cfg, ops[0]).0;
      StepPersists(t, cfg, ops[0]);
      ExecKeepsInv(t, cfg, ops[0]);
      RunPersists(t1, cfg, ops[1..]);
      PersistsOn(t, t1, Run(t, cfg, ops));
    }
  }

  // ---------- keyed writes ----------

  predicate IsWrite(op: Op) {
    IsMappingWrite(op) || op.CreateDomainOp? || op.DeleteDomainOp? || op.ResetCredentialOp? || op.DeleteUserOp?
  }

  /** What a write checks before it looks for a record. */
  predicate Admitted(op: Op)
    requires IsWrite(op)
  {
    match op
    case CreateMappingOp(_, req, _) => ValidRequest(req)
    case UpdateMappingOp(_, _, req, _) => ValidRequest(req)
    case CreateDomainOp(_, req, _, _) => req.textValid
    case ResetCredentialOp(who, target, proof, proven, _) => ResetTarget(who, target).Some? && proof != "" && proven
    case DeleteUserOp(who, _, _, _) => who.admin
    case _ => true
  }

  function EndpointOf(op: Op): Endpoint
    requires IsWrite(op)
  {
    match op
    case CreateMappingOp(_, _, _) => CreateMappingAt
    case UpdateMappingOp(_, m, _, _) => UpdateMappingAt(m)
    case ToggleMappingOp(_, m, _, _, _, _) => ToggleMappingAt(m)
    case DeleteMappingOp(_, m, _, _) => DeleteMappingAt(m)
    case CreateDomainOp(_, _, _, _) => CreateDomainAt
    case DeleteDomainOp(_, d, _) => DeleteDomainAt(d)
    case ResetCredentialOp(who, target, _, _, _) =>
      var user := ResetTarget(who, target);
      if user.Some? then ResetEndpoint(who, user.value) else ResetOwnCredentialAt
    case DeleteUserOp(_, user, _, _) => DeleteUserAt(user)
  }

  function BodyOf(op: Op): Body
    requires IsWrite(op)
  {
    match op
    case CreateMappingOp(_, req, _) => MappingBody(req)
    case UpdateMappingOp(_, _, req, _) => MappingBody(req)
    case ToggleMappingOp(_, _, enabled, version, revision, _) => ToggleBody(enabled, version, revision)
    case DeleteMappingOp(_, _, force, _) => ForceBody(force)
    case CreateDomainOp(_, req, _, _) => DomainBody(req)
    case DeleteDomainOp(_, _, _) => EmptyBody
    case ResetCredentialOp(who, target, proof, _, _) =>
      var user := ResetTarget(who, target);
      if user.Some? then ResetBody(user.value, proof) else EmptyBody
    case DeleteUserOp(_, _, force, _) => ForceBody(force)
  }

  function RecordKeyOf(t: Tables, op: Op): RecordKey
    requires IsWrite(op)
  {
    RecordKey(op.who.user, op.who.generation, EndpointOf(op), KeyOf(op.key, t.nextId))
  }

  /** A write whose key is recorded changes nothing and answers from the record. */
  lemma RecordedWrite(t: Tables, cfg: Config, op: Op)
    requires IsWrite(op) && Admitted(op) && RecordKeyOf(t, op) in t.records
    ensures Exec(t, cfg, op) == (t, Wrote(Replay(t.records[RecordKeyOf(t, op)], BodyOf(op))))
  {
  }

  lemma RecordedReuse(t: Tables, cfg: Config, op: Op)
    requires IsWrite(op) && Admitted(op) && RecordKeyOf(t, op) in t.records
    requires t.records[RecordKeyOf(t, op)].body != BodyOf(op)
    ensures Exec(t, cfg, op) == (t, Wrote(Err(IdempotencyReuse)))
  {
    RecordedWrite(t, cfg, op);
  }

  ghost predicate Answered(t: Tables, op: Op, after: (Tables, Outcome))
    requires IsWrite(op)
  {
    after.1.Wrote? && after.1.written.Ok? ==>
      var k := RecordKeyOf(t, op);
      k in after.0.records && after.0.records[k] == Record(BodyOf(op), after.1.written.value)
  }

  lemma MappingWriteAnswered(t: Tables, cfg: Config, op: Op)
    requires op.ToggleMappingOp? || op.DeleteMappingOp?
    ensures Answered(t, op, Exec(t, cfg, op))
  {
  }

  lemma CreateAnswered(t: Tables, cfg: Config, op: Op)
    requires op.CreateMappingOp?
    ensures Answered(t, op, Exec(t, cfg, op))
  {
  }

  lemma UpdateAnswered(t: Tables, cfg: Config, op: Op)
    requires op.UpdateMappingOp?
    ensures Answered(t, op, Exec(t, cfg, op))
  {
  }

  lemma DomainWriteAnswered(t: Tables, cfg: Config, op: Op)
    requires op.CreateDomainOp? || op.DeleteDomainOp?
    ensures Answered(t, op, Exec(t, cfg, op))
  {
  }

  lemma ResetAnswered(t: Tables, cfg: Config, op: Op)
    requires op.ResetCredentialOp?
    ensures Answered(t, op, Exec(t, cfg, op))
  {
  }

  lemma DeleteUserAnswered(t: Tables, cfg: Config, op: Op)
    requires op.DeleteUserOp?
    ensures Answered(t, op, Exec(t, cfg, op))
  {
  }

  /** A write that succeeds has its answer recorded, together with its request. */
  lemma SucceededWrite(t: Tables, cfg: Config, op: Op)
    requires IsWrite(op)
    ensures Answered(t, op, Exec(t, cfg, op))
  {
    if op.CreateMappingOp? { CreateAnswered(t, cfg, op); }
    else if op.UpdateMappingOp? { UpdateAnswered(t, cfg, op); }
    else if IsMappingWrite(op) { MappingWriteAnswered(t, cfg, op); }
    else if op.ResetCredentialOp? { ResetAnswered(t, cfg, op); }
    else if op.DeleteUserOp? { DeleteUserAnswered(t, cfg, op); }
    else { DomainWriteAnswered(t, cfg, op); }
  }

  ghost predicate Succeeds(t: Tables, cfg: Config, op: Op) {
    var outcome := Exec(t, cfg, op).1;
    outcome.Wrote? && outcome.written.Ok?
  }

  lemma OnlyAdmittedSucceed(t: Tables, cfg: Config, op: Op)
    requires IsWrite(op) && Succeeds(t, cfg, op)
    ensures Admitted(op)
  {
  }

  /** Unless the user goes, the record stands. */
  ghost predicate Stored(t: Tables, k: RecordKey, record: Record) {
    k.user in t.users ==> k in t.records && t.records[k] == record
  }

  lemma StoredStays(t: Tables, t': Tables, k: RecordKey, record: Record)
    requires Persists(t, t') && k in t.records && t.records[k] == record && k.user < t.nextId
    ensures Stored(t', k, record)
  {
  }

  lemma UserIdBelow(t: Tables, u: Id)
    requires Inv(t) && u in t.users
    ensures u < t.nextId
  {
    InvUsers(t);
  }

  /** The record of a write that succeeded outlasts every run in which its caller
      still exists. */
  lemma RecordLasts(t: Tables, cfg: Config, op: Op, ops: seq<Op>)
    requires Inv(t) && IsWrite(op) && Succeeds(t, cfg, op)
    requires op.who.user in t.users
    ensures var (t1, outcome) := Exec(t, cfg, op);
            Stored(Run(t1, cfg, ops), RecordKeyOf(t, op), Record(BodyOf(op), outcome.written.value))
  {
    var (t1, outcome) := Exec(t, cfg, op);
    SucceededWrite(t, cfg, op);
    StepPersists(t, cfg, op);
    ExecKeepsInv(t, cfg, op);
    RunStores(t, t1, cfg, ops, RecordKeyOf(t, op), Record(BodyOf(op), outcome.written.value));
  }

  lemma RunStores(t: Tables, t1: Tables, cfg: Config, ops: seq<Op>, k: RecordKey, record: Record)
    requires Inv(t) && Inv(t1) && Persists(t, t1) && k.user in t.users && k in t1.records && t1.records[k] == record
    ensures Stored(Run(t1, cfg, ops), k, record)
  {
    UserIdBelow(t, k.user);
    RunPersists(t1, cfg, ops);
    StoredStays(t1, Run(t1, cfg, ops), k, record);
  }

  lemma SameKeyLater(t: Tables, t': Tables, op: Op)
    requires IsWrite(op) && op.key.Some?
    ensures RecordKeyOf(t', op) == RecordKeyOf(t, op)
  {
  }

  lemma StoredIsReplayed(t: Tables, cfg: Config, op: Op, outcome: Outcome)
    requires IsWrite(op) && Admitted(op) && outcome.Wrote? && outcome.written.Ok? && op.who.user in t.users
    requires Stored(t, RecordKeyOf(t, op), Record(BodyOf(op), outcome.written.value))
    ensures Exec(t, cfg, op) == (t, outcome)
  {
    RecordedWrite(t, cfg, op);
  }

  /** After a keyed write has succeeded, the same write is answered with the same reply
      and no change after any run in which its caller still exists. */
  lemma ReplayedForEver(t: Tables, cfg: Config, op: Op, ops: seq<Op>)
    requires Inv(t) && IsWrite(op) && op.key.Some? && Succeeds(t, cfg, op)
    requires op.who.user in t.users
    ensures var (t1, outcome) := Exec(t, cfg, op);
            var t2 := Run(t1, cfg, ops);
            op.who.user in t2.users ==> Exec(t2, cfg, op) == (t2, outcome)
  {
    var (t1, outcome) := Exec(t, cfg, op);
    var t2 := Run(t1, cfg, ops);
    RecordLasts(t, cfg, op, ops);
    OnlyAdmittedSucceed(t, cfg, op);
    SameKeyLater(t, t2, op);
    if op.who.user in t2.users { StoredIsReplayed(t2, cfg, op, outcome); }
  }

  lemma StoredIsNotReused(t: Tables, cfg: Config, other: Op, record: Record)
    requires IsWrite(other) && Admitted(other) && other.who.user in t.users
    requires Stored(t, RecordKeyOf(t, other), record) && BodyOf(other) != record.body
    ensures Exec(t, cfg, other) == (t, Wrote(Err(IdempotencyReuse)))
  {
    RecordedReuse(t, cfg, other);
  }

  lemma OneKeyLater(t: Tables, t': Tables, op: Op, other: Op)
    requires IsWrite(op) && IsWrite(other) && op.key.Some? && RecordKeyOf(t, other) == RecordKeyOf(t, op)
    ensures RecordKeyOf(t', other) == RecordKeyOf(t, op) && other.who.user == op.who.user
  {
  }

  lemma NotReusedLater(t: Tables, t': Tables, cfg: Config, op: Op, other: Op, record: Record)
    requires IsWrite(op) && op.key.Some? && IsWrite(other) && Admitted(other)
    requires RecordKeyOf(t, other) == RecordKeyOf(t, op) && BodyOf(other) != record.body
    requires Stored(t', RecordKeyOf(t, op), record) && op.who.user in t'.users
    ensures Exec(t', cfg, other) == (t', Wrote(Err(IdempotencyReuse)))
  {
    OneKeyLater(t, t', op, other);
    StoredIsNotReused(t', cfg, other, record);
  }

  /** The same key with another request that passes validation is refused, and changes
      nothing. */
  lemma ReuseRefused(t: Tables, cfg: Config, op: Op, ops: seq<Op>, other: Op)
    requires Inv(t) && IsWrite(op) && op.key.Some? && Succeeds(t, cfg, op)
    requires op.who.user in t.users
    requires IsWrite(other) && Admitted(other) && RecordKeyOf(t, other) == RecordKeyOf(t, op)
             && BodyOf(other) != BodyOf(op)
    ensures var t2 := Run(Exec(t, cfg, op).0, cfg, ops);
            op.who.user in t2.users ==> Exec(t2, cfg, other) == (t2, Wrote(Err(IdempotencyReuse)))
  {
    var (t1, outcome) := Exec(t, cfg, op);
    var t2 := Run(t1, cfg, ops);
    RecordLasts(t, cfg, op, ops);
    if op.who.user in t2.users {
      var record := Record(BodyOf(op), outcome.written.value);
      assert Stored(t2, RecordKeyOf(t, op), record);
      NotReusedLater(t, t2, cfg, op, other, record);
    }
  }

  // ---------- expected versions ----------

  function ExpectedVersion(op: Op): Option<int> {
    match op
    case CreateMappingOp(_, req, _) => req.expectedVersion
    case UpdateMappingOp(_, _, req, _) => req.expectedVersion
    case ToggleMappingOp(_, _, _, version, _, _) => version
    case CreateDomainOp(_, req, _, _) => req.expectedVersion
    case _ => None
  }

  predicate IsVersioned(op: Op) { IsWrite(op) && ExpectedVersion(op).Some? }

  predicate IsFresh(t: Tables, op: Op)
    requires IsWrite(op)
  {
    RecordKeyOf(t, op) !in t.records
  }

  /** A fresh versioned write finds exactly its version and leaves the next. */
  lemma VersionConsumed(t: Tables, cfg: Config, op: Op)
    requires IsVersioned(op) && IsFresh(t, op) && Succeeds(t, cfg, op)
    ensures var t', u := Exec(t, cfg, op).0, op.who.user;
            && u in t.users && t.users[u].desired == ExpectedVersion(op).value
            && u in t'.users && t'.users[u].desired == ExpectedVersion(op).value + 1
  {
  }

  /** Per user and version at most one write takes effect: any later success with the
      same expected version is the replay of a recorded answer. */
  lemma VersionConsumedOnce(t: Tables, cfg: Config, op: Op, ops: seq<Op>, later: Op)
    requires Inv(t) && IsVersioned(op) && IsFresh(t, op) && Succeeds(t, cfg, op)
    requires IsVersioned(later) && later.who.user == op.who.user && ExpectedVersion(later) == ExpectedVersion(op)
    ensures var t2 := Run(Exec(t, cfg, op).0, cfg, ops);
            Succeeds(t2, cfg, later) ==> !IsFresh(t2, later) && Exec(t2, cfg, later).0 == t2
  {
    var t1 := Exec(t, cfg, op).0;
    VersionConsumed(t, cfg, op);
    StepPersists(t, cfg, op);
    ExecKeepsInv(t, cfg, op);
    RunPersists(t1, cfg, ops);
    InvUsers(t);
    var t2 := Run(t1, cfg, ops);
    if Succeeds(t2, cfg, later) {
      if IsFresh(t2, later) { VersionConsumed(t2, cfg, later); }
      OnlyAdmittedSucceed(t2, cfg, later);
      RecordedWrite(t2, cfg, later);
    }
  }
}
