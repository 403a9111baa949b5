/** The client's supervisor of its FRPC process (client/internal/supervisor/supervisor.go).
    Its operations run one at a time from a queue; what files, the FRPC binary and the
    process do is an outcome chosen by the environment. */
module Supervisor {
  import opened Wrappers

  /** A JSON value; a missing key reads as Null. */
  datatype Value = Null | Other(json: string)

  type Payload = map<string, Value>

  datatype Snapshot = Snapshot(
    schema: string, version: int, user: string, generation: int, hash: string, payload: Payload)

  /** A rendered configuration file. Its text carries the version, the generation and a
      hash of the payload, so different ones render differently. */
  datatype Text = Text(version: int, generation: int, payload: Payload)

  function Render(s: Snapshot): Text { Text(s.version, s.generation, s.payload) }

  /** What the process has loaded; Unsure after a reload that may have been partial. */
  datatype Process = NoProcess | Loaded(text: Text) | Unsure

  datatype Phase = Stopped | Applying | RunningPhase | Offline | ConfigError

  datatype State = State(
    active: Option<Text>, lastGood: Option<Text>, process: Process,
    phase: Phase, desired: int, applied: int, hash: string, lastGoodAvailable: bool,
    remembered: Option<Snapshot>)

  datatype Error =
    | InvalidMetadata | VersionUnsupported | Canceled | SecretsFailed | ServicesDown
    | TemporaryFailed | VerifyFailed | ReplaceFailed | RestartFailed | RollbackFailed
    | StopFailed | RemoveFailed

  datatype Result = Ok | Err(error: Error)

  // ---------- what the environment decides ----------

  /** rename, then sync of the directory: the second may fail after the first took effect. */
  datatype Rename = Renamed | NotRenamed | RenamedUnsynced

  datatype Reload = Reloaded | ReloadMismatch | ReloadRejected(partial: bool)

  datatype Restart = Started | RestartMismatch | StopStuck | StartFailed | PidFailed | ExitedAtOnce

  datatype Env = Env(
    canceled: bool, secretsWritten: bool, servicesUp: bool, temporaryWritten: bool, verified: bool,
    readable: bool, backup: Rename, replace: Rename, reload: Reload, restart: Restart,
    restore: Rename, rollback: Restart)

  /** The binary, if one is configured, and whether its version is supported. */
  datatype Setup = Setup(hasBinary: bool, supported: bool)

  function Written(file: Option<Text>, text: Text, outcome: Rename): Option<Text> {
    if outcome == NotRenamed then file else Some(text)
  }

  function Launched(active: Option<Text>): Process {
    match active
    case Some(text) => Loaded(text)
    case None => Unsure
  }

  // ---------- reloading ----------

  function At(p: Payload, key: string): Value { if key in p then p[key] else Null }

  /** The payloads agree on every key but `mappings`. */
  ghost predicate SameButMappings(p: Payload, q: Payload) {
    forall key :: key != "mappings" ==> At(p, key) == At(q, key)
  }

  ghost predicate Eligible(setup: Setup, s: State, snapshot: Snapshot) {
    && setup.hasBinary && s.remembered.Some? && s.process != NoProcess
    && s.remembered.value.user == snapshot.user && s.remembered.value.generation == snapshot.generation
    && SameButMappings(s.remembered.value.payload, snapshot.payload)
  }

  function AfterReload(s: State, outcome: Reload): State {
    match outcome
    case Reloaded => s.(process := Launched(s.active))
    case ReloadMismatch => s
    case ReloadRejected(partial) => if partial then s.(process := Unsure) else s
  }

  /** A binary whose hash does not match is not even asked to stop. */
  function AfterRestart(setup: Setup, s: State, outcome: Restart): State {
    if !setup.hasBinary || outcome == RestartMismatch then s
    else if outcome == Started then s.(process := Launched(s.active))
    else s.(process := NoProcess)
  }

  predicate RestartOk(setup: Setup, outcome: Restart) { !setup.hasBinary || outcome == Started }

  // ---------- applying ----------

  function Begun(s: State, snapshot: Snapshot): State { s.(phase := Applying, desired := snapshot.version) }

  function Refusal(setup: Setup, snapshot: Snapshot, env: Env): Option<Error> {
    if snapshot.schema != "v1" || snapshot.version < 0 || snapshot.user == "" || snapshot.generation < 1
    then Some(InvalidMetadata)
    else if !setup.supported then Some(VersionUnsupported)
    else if env.canceled then Some(Canceled)
    else if !env.secretsWritten then Some(SecretsFailed)
    else if setup.hasBinary && !env.servicesUp then Some(ServicesDown)
    else if !env.temporaryWritten then Some(TemporaryFailed)
    else if setup.hasBinary && !env.verified then Some(VerifyFailed)
    else None
  }

  function OldConfig(s: State, env: Env): Option<Text> { if env.readable then s.active else None }

  function Backed(s: State, env: Env): State {
    match OldConfig(s, env)
    case Some(before) => s.(lastGood := Written(s.lastGood, before, env.backup))
    case None => s
  }

  function Replaced(s: State, snapshot: Snapshot, env: Env): State {
    s.(active := Written(s.active, Render(snapshot), env.replace))
  }

  ghost predicate RunSucceeds(setup: Setup, s: State, snapshot: Snapshot, env: Env) {
    if Eligible(setup, s, snapshot) then env.reload == Reloaded else RestartOk(setup, env.restart)
  }

  ghost function AfterRun(setup: Setup, s: State, snapshot: Snapshot, env: Env): State {
    if Eligible(setup, s, snapshot) then AfterReload(s, env.reload) else AfterRestart(setup, s, env.restart)
  }

  /** Put the old file back, and restart from it. */
  function RolledBack(setup: Setup, s: State, before: Text, env: Env): (State, Result) {
    var restored := s.(active := Written(s.active, before, env.restore));
    if !setup.hasBinary then (restored, Err(RestartFailed))
    else (AfterRestart(setup, restored, env.rollback),
          Err(if env.rollback == Started then RestartFailed else RollbackFailed))
  }

  function Finished(s: State, snapshot: Snapshot): State {
    s.(remembered := Some(snapshot), phase := RunningPhase, applied := snapshot.version, hash := snapshot.hash,
       lastGoodAvailable := true)
  }

  ghost function Apply(setup: Setup, s: State, snapshot: Snapshot, env: Env): (State, Result) {
    var begun := Begun(s, snapshot);
    if Refusal(setup, snapshot, env).Some? then (begun.(phase := ConfigError), Err(Refusal(setup, snapshot, env).value))
    else
      var replaced := Replaced(Backed(begun, env), snapshot, env);
      if env.replace != Renamed then (replaced.(phase := ConfigError), Err(ReplaceFailed))
      else
        var run := AfterRun(setup, replaced, snapshot, env);
        if RunSucceeds(setup, replaced, snapshot, env) then (Finished(run, snapshot), Ok)
        else
          match OldConfig(s, env)
          case None => (run.(phase := ConfigError), Err(RestartFailed))
          case Some(before) =>
            var (s', r) := RolledBack(setup, run, before, env);
            (s'.(phase := ConfigError), r)
  }

  // ---------- the other operations ----------

  function Stop(s: State): State { s.(process := NoProcess, phase := Stopped, lastGoodAvailable := false) }

  /** RemoveAll of the secrets, the active file and the last-good file, in that order;
      `removed` of them succeed. The snapshot is forgotten only after the third. */
  function Clear(s: State, removed: nat): (State, Result) {
    var s1 := if removed >= 2 then s.(active := None) else s;
    if removed < 3 then (s1, Err(RemoveFailed))
    else (s1.(lastGood := None, remembered := None), Ok)
  }

  /** The process ends by itself. */
  function Exit(s: State): State {
    if s.process == NoProcess then s
    else s.(process := NoProcess, phase := if s.phase == RunningPhase then Offline else s.phase)
  }

  class Client {
    const setup: Setup
    var active: Option<Text>
    var lastGood: Option<Text>
    var process: Process
    var phase: Phase
    var desired: int
    var applied: int
    var hash: string
    var lastGoodAvailable: bool
    var remembered: Option<Snapshot>

    constructor (setup: Setup, active: Option<Text>, lastGood: Option<Text>, manifest: bool)
      ensures this.setup == setup
      ensures Contents() == State(active, lastGood, NoProcess, Stopped, 0, 0, "", manifest, None)
    {
      this.setup, this.active, this.lastGood := setup, active, lastGood;
      process, phase, desired, applied, hash := NoProcess, Stopped, 0, 0, "";
      lastGoodAvailable, remembered := manifest, None;
    }

    function Contents(): State
      reads this
    {
      State(active, lastGood, process, phase, desired, applied, hash, lastGoodAvailable, remembered)
    }

    /** Two loops over the keys of the two payloads. */
    method ReloadEligible(snapshot: Snapshot) returns (eligible: bool)
      ensures eligible <==> Eligible(setup, Contents(), snapshot)
    {
      if !setup.hasBinary || remembered.None? || process == NoProcess { return false; }
      var previous := remembered.value;
      if previous.user != snapshot.user || previous.generation != snapshot.generation { return false; }
      var keys := previous.payload.Keys;
      while keys != {}
        invariant keys <= previous.payload.Keys
        invariant forall k :: k in previous.payload.Keys - keys && k != "mappings" ==>
          At(previous.payload, k) == At(snapshot.payload, k)
      {
        var key :| key in keys;
        if key != "mappings" && previous.payload[key] != At(snapshot.payload, key) {
          assert At(previous.payload, key) != At(snapshot.payload, key);
          return false;
        }
        keys := keys - {key};
      }
      keys := snapshot.payload.Keys;
      while keys != {}
        invariant keys <= snapshot.payload.Keys
        invariant forall k :: k in snapshot.payload.Keys - keys && k != "mappings" ==>
          At(previous.payload, k) == At(snapshot.payload, k)
      {
        var key :| key in keys;
        if key != "mappings" && snapshot.payload[key] != At(previous.payload, key) {
          assert At(previous.payload, key) != At(snapshot.payload, key);
          return false;
        }
        keys := keys - {key};
      }
      return true;
    }

    method RestartProcess(outcome: Restart) returns (ok: bool)
      modifies this`process
      ensures Contents() == AfterRestart(setup, old(Contents()), outcome)
      ensures ok <==> RestartOk(setup, outcome)
    {
      if !setup.hasBinary { return true; }
      if outcome == RestartMismatch { return false; }
      process := NoProcess;
      if outcome != Started { return false; }
      process := Launched(active);
      return true;
    }

    method Fail(error: Error) returns (r: Result)
      modifies this`phase
      ensures Contents() == old(Contents()).(phase := ConfigError) && r == Err(error)
    {
      phase := ConfigError;
      return Err(error);
    }

    method ApplySnapshot(snapshot: Snapshot, env: Env) returns (r: Result)
      modifies this
      ensures (Contents(), r) == Apply(setup, old(Contents()), snapshot, env)
    {
      phase, desired := Applying, snapshot.version;
      if Refusal(setup, snapshot, env).Some? {
        r := Fail(Refusal(setup, snapshot, env).value);
        return;
      }
      var before := if env.readable then active else None;
      if before.Some? { lastGood := Written(lastGood, before.value, env.backup); }
      active := Written(active, Render(snapshot), env.replace);
      if env.replace != Renamed {
        r := Fail(ReplaceFailed);
        return;
      }
      var useReload := ReloadEligible(snapshot);
      var ok;
      if useReload {
        process := AfterReload(Contents(), env.reload).process;
        ok := env.reload == Reloaded;
      } else {
        ok := RestartProcess(env.restart);
      }
      if !ok {
        if before.Some? {
          active := Written(active, before.value, env.restore);
          if setup.hasBinary {
            var restarted := RestartProcess(env.rollback);
            if !restarted {
              r := Fail(RollbackFailed);
              return;
            }
          }
        }
        r := Fail(RestartFailed);
        return;
      }
      remembered, phase, applied, hash := Some(snapshot), RunningPhase, snapshot.version, snapshot.hash;
      lastGoodAvailable := true;
      return Ok;
    }

    method StopAll()
      modifies this
      ensures Contents() == Stop(old(Contents()))
    {
      process, phase, lastGoodAvailable := NoProcess, Stopped, false;
    }

    method ClearRuntimeSecrets(removed: nat) returns (r: Result)
      modifies this
      ensures (Contents(), r) == Clear(old(Contents()), removed)
    {
      if removed < 1 { return Err(RemoveFailed); }
      if removed < 2 { return Err(RemoveFailed); }
      active := None;
      if removed < 3 { return Err(RemoveFailed); }
      lastGood := None;
      remembered := None;
      return Ok;
    }
  }

  // ---------- what each operation does ----------

  /** After a stop, in any state, nothing runs; what is on disk, applied and remembered is as
      it was. */
  lemma StopStores(s: State)
    ensures var s' := Stop(s);
            && s'.process == NoProcess && s'.phase == Stopped && !s'.lastGoodAvailable
            && s'.active == s.active && s'.lastGood == s.lastGood && s'.applied == s.applied && s'.hash == s.hash
            && s'.remembered == s.remembered && s'.desired == s.desired
  {
  }

  /** Removing the secrets touches no process and nothing that is reported. The active file
      goes with the second removal; the last-good file and the memory with the third. */
  lemma ClearStores(s: State, removed: nat)
    ensures var (s', r) := Clear(s, removed);
            && (r == Ok <==> removed >= 3) && (removed < 3 ==> r == Err(RemoveFailed))
            && s'.active == (if removed < 2 then s.active else None)
            && s'.lastGood == (if removed < 3 then s.lastGood else None)
            && s'.remembered == (if removed < 3 then s.remembered else None)
            && s'.process == s.process && s'.phase == s.phase && s'.applied == s.applied && s'.hash == s.hash
            && s'.desired == s.desired && s'.lastGoodAvailable == s.lastGoodAvailable
  {
  }

  /** A process that ends by itself leaves the client offline, if it was running; where none
      runs, nothing changes. */
  lemma ExitStores(s: State)
    ensures var s' := Exit(s);
            && (s.process == NoProcess ==> s' == s) && s'.process == NoProcess
            && (s.process != NoProcess && s.phase == RunningPhase ==> s'.phase == Offline)
            && (s.phase != RunningPhase ==> s'.phase == s.phase)
            && s'.active == s.active && s'.lastGood == s.lastGood && s'.applied == s.applied && s'.hash == s.hash
            && s'.remembered == s.remembered && s'.desired == s.desired && s'.lastGoodAvailable == s.lastGoodAvailable
  {
  }

  /** The checks of an apply before it replaces the active file, in their order. */
  function ApplyChecks(setup: Setup, snapshot: Snapshot, env: Env): (e: Option<Error>) {
    if !(snapshot.schema == "v1" && 0 <= snapshot.version && snapshot.user != "" && 1 <= snapshot.generation)
    then Some(InvalidMetadata)
    else if !setup.supported then Some(VersionUnsupported)
    else if env.canceled then Some(Canceled)
    else if !env.secretsWritten then Some(SecretsFailed)
    else if setup.hasBinary && !env.servicesUp then Some(ServicesDown)
    else if !env.temporaryWritten then Some(TemporaryFailed)
    else if setup.hasBinary && !env.verified then Some(VerifyFailed)
    else None
  }

  /** An apply that fails a check only reports it. */
  lemma ApplyRefuses(setup: Setup, s: State, snapshot: Snapshot, env: Env)
    requires ApplyChecks(setup, snapshot, env).Some?
    ensures Apply(setup, s, snapshot, env)
            == (s.(phase := ConfigError, desired := snapshot.version), Err(ApplyChecks(setup, snapshot, env).value))
  {
  }

  /** The running process may be told to reload: the snapshots differ in their mappings only. */
  ghost predicate MayReload(setup: Setup, s: State, snapshot: Snapshot) {
    && setup.hasBinary && s.process != NoProcess && s.remembered.Some?
    && (var was := s.remembered.value;
        && was.user == snapshot.user && was.generation == snapshot.generation
        && forall key :: key != "mappings" ==>
             (if key in was.payload then was.payload[key] else Null)
             == (if key in snapshot.payload then snapshot.payload[key] else Null))
  }

  ghost predicate LoadsNew(setup: Setup, s: State, snapshot: Snapshot, env: Env) {
    if MayReload(setup, s, snapshot) then env.reload == Reloaded else setup.hasBinary ==> env.restart == Started
  }

  function NewText(snapshot: Snapshot): Text { Text(snapshot.version, snapshot.generation, snapshot.payload) }

  /** The active file that could be read. */
  function OldText(s: State, env: Env): Option<Text> { if env.readable then s.active else None }

  /** The last-good file gets the old text, if that could be read and written. */
  function KeptText(s: State, env: Env): Option<Text> {
    if env.readable && s.active.Some? && env.backup != NotRenamed then s.active else s.lastGood
  }

  lemma MayReloadIs(setup: Setup, s: State, snapshot: Snapshot)
    ensures Eligible(setup, s, snapshot) <==> MayReload(setup, s, snapshot)
  {
    if s.remembered.Some? {
      var p, q := s.remembered.value.payload, snapshot.payload;
      assert forall key :: At(p, key) == (if key in p then p[key] else Null);
      assert forall key :: At(q, key) == (if key in q then q[key] else Null);
    }
  }

  lemma ReplaceFailsStores(setup: Setup, s: State, snapshot: Snapshot, env: Env)
    requires ApplyChecks(setup, snapshot, env) == None && env.replace != Renamed
    ensures Apply(setup, s, snapshot, env)
            == (s.(phase := ConfigError, desired := snapshot.version, lastGood := KeptText(s, env),
                   active := if env.replace == NotRenamed then s.active else Some(NewText(snapshot))),
                Err(ReplaceFailed))
  {
  }

  /** A success reports, remembers and keeps what it applied. */
  lemma SuccessStores(setup: Setup, s: State, snapshot: Snapshot, env: Env)
    requires ApplyChecks(setup, snapshot, env) == None && env.replace == Renamed && LoadsNew(setup, s, snapshot, env)
    ensures Apply(setup, s, snapshot, env)
            == (State(Some(NewText(snapshot)), KeptText(s, env),
                      if setup.hasBinary then Loaded(NewText(snapshot)) else s.process,
                      RunningPhase, snapshot.version, snapshot.version, snapshot.hash, true, Some(snapshot)),
                Ok)
  {
    MayReloadIs(setup, s, snapshot);
    MayReloadIs(setup, Replaced(Backed(Begun(s, snapshot), env), snapshot, env), snapshot);
  }

  /** What runs after the attempt to load the new file has failed: a reload that was rejected
      part way leaves it open; a restart that found another binary does not stop it. */
  ghost function StillRunning(setup: Setup, s: State, snapshot: Snapshot, env: Env): Process {
    if MayReload(setup, s, snapshot) then (if env.reload == ReloadRejected(true) then Unsure else s.process)
    else if env.restart == RestartMismatch then s.process
    else NoProcess
  }

  /** A failed attempt puts the old file back, if it could be read, and restarts from it. */
  lemma FailureStores(setup: Setup, s: State, snapshot: Snapshot, env: Env)
    requires ApplyChecks(setup, snapshot, env) == None && env.replace == Renamed && !LoadsNew(setup, s, snapshot, env)
    ensures var (s', r) := Apply(setup, s, snapshot, env);
            var before := OldText(s, env);
            var final := if before == None || env.restore == NotRenamed then NewText(snapshot) else before.value;
            && s'.active == Some(final) && s'.lastGood == KeptText(s, env)
            && s'.process == (if before == None || env.rollback == RestartMismatch
                              then StillRunning(setup, s, snapshot, env)
                              else if env.rollback == Started then Loaded(final)
                              else NoProcess)
            && r == Err(if before == None || env.rollback == Started then RestartFailed else RollbackFailed)
            && s'.phase == ConfigError && s'.desired == snapshot.version
            && s' == s.(active := s'.active, lastGood := s'.lastGood, process := s'.process, phase := s'.phase,
                        desired := s'.desired)
  {
    MayReloadIs(setup, s, snapshot);
    MayReloadIs(setup, Replaced(Backed(Begun(s, snapshot), env), snapshot, env), snapshot);
  }

  // ---------- what a failed apply leaves ----------

  /** What is reported as applied, and what the supervisor remembers, changes only when
      an apply succeeds. */
  lemma FailureKeepsApplied(setup: Setup, s: State, snapshot: Snapshot, env: Env)
    requires Apply(setup, s, snapshot, env).1 != Ok
    ensures var s' := Apply(setup, s, snapshot, env).0;
            && s'.applied == s.applied && s'.hash == s.hash && s'.remembered == s.remembered
            && s'.phase == ConfigError && s'.desired == snapshot.version
  {
  }

  /** The new file is in place and nothing puts the old one back: the directory sync
      failed after the rename, or the old file could not be read or could not be restored. */
  predicate LosesFile(setup: Setup, s: State, snapshot: Snapshot, env: Env) {
    && Refusal(setup, snapshot, env).None? && s.active != Some(Render(snapshot))
    && (env.replace == RenamedUnsynced || (env.replace == Renamed && (!env.readable || env.restore == NotRenamed)))
  }

  /** A failed apply leaves the active file byte-identical in exactly the other cases. */
  lemma FileKeptIff(setup: Setup, s: State, snapshot: Snapshot, env: Env)
    requires s.active.Some? && Apply(setup, s, snapshot, env).1 != Ok
    ensures Apply(setup, s, snapshot, env).0.active == s.active <==> !LosesFile(setup, s, snapshot, env)
  {
  }

  /** Even then the old text is in the last-good file if its backup was written. */
  lemma OldTextSurvives(setup: Setup, s: State, snapshot: Snapshot, env: Env)
    requires s.active.Some? && env.readable && env.backup != NotRenamed
    requires Apply(setup, s, snapshot, env).1 != Ok
    ensures var s' := Apply(setup, s, snapshot, env).0; s'.active == s.active || s'.lastGood == s.active
  {
  }

  /** A process that is left running has loaded exactly the active file. */
  predicate Synced(s: State) {
    s.process == NoProcess || (s.active.Some? && s.process == Loaded(s.active.value))
  }

  /** The attempt to load the new file fails without stopping the process, and no rollback
      restarts it: the reload may have been partial, or the new file stays where the process
      has loaded another. */
  ghost predicate LeftBehind(setup: Setup, s: State, snapshot: Snapshot, env: Env) {
    && s.process != NoProcess && (Eligible(setup, s, snapshot) || env.restart == RestartMismatch)
    && (!env.readable || env.rollback == RestartMismatch)
    && ((Eligible(setup, s, snapshot) && env.reload == ReloadRejected(true))
        || ((!env.readable || env.restore == NotRenamed) && s.active != Some(Render(snapshot))))
  }

  /** The file is replaced under a running process without its being told, or the process
      is left behind by a failed attempt. */
  ghost predicate StrandsProcess(setup: Setup, s: State, snapshot: Snapshot, env: Env) {
    && Refusal(setup, snapshot, env).None?
    && match env.replace
       case NotRenamed => false
       case RenamedUnsynced => s.process != NoProcess && s.active != Some(Render(snapshot))
       case Renamed =>
         if RunSucceeds(setup, s, snapshot, env) then
           !setup.hasBinary && s.process != NoProcess && s.active != Some(Render(snapshot))
         else LeftBehind(setup, s, snapshot, env)
  }

  /** One apply, whatever its outcome, keeps the process in step iff it does not strand it. */
  lemma ProcessSyncedIff(setup: Setup, s: State, snapshot: Snapshot, env: Env)
    requires Synced(s)
    ensures Synced(Apply(setup, s, snapshot, env).0) <==> !StrandsProcess(setup, s, snapshot, env)
  {
    var replaced := Replaced(Backed(Begun(s, snapshot), env), snapshot, env);
    assert Eligible(setup, replaced, snapshot) <==> Eligible(setup, s, snapshot);
  }

  /** A successful apply leaves the new file, and a process that has loaded it. */
  lemma SuccessLoadsNew(setup: Setup, s: State, snapshot: Snapshot, env: Env)
    requires Apply(setup, s, snapshot, env).1 == Ok
    ensures var s' := Apply(setup, s, snapshot, env).0;
            && s'.active == Some(Render(snapshot)) && s'.remembered == Some(snapshot)
            && s'.applied == snapshot.version && s'.hash == snapshot.hash && s'.phase == RunningPhase
            && (setup.hasBinary ==> s'.process == Loaded(Render(snapshot)))
  {
  }

  // ---------- runs ----------

  datatype Op = ApplyOp(snapshot: Snapshot, env: Env) | StopOp | ClearOp(removed: nat) | ExitOp

  ghost function Exec(setup: Setup, s: State, op: Op): (State, Result) {
    match op
    case ApplyOp(snapshot, env) => Apply(setup, s, snapshot, env)
    case StopOp => (Stop(s), Ok)
    case ClearOp(removed) => Clear(s, removed)
    case ExitOp => (Exit(s), Ok)
  }

  /** Each step is the operation of its name. */
  lemma StepIs(setup: Setup, s: State, op: Op)
    ensures match op
            case ApplyOp(snapshot, env) => Exec(setup, s, op) == Apply(setup, s, snapshot, env)
            case StopOp => Exec(setup, s, op).0 == Stop(s)
            case ClearOp(removed) => Exec(setup, s, op) == Clear(s, removed)
            case ExitOp => Exec(setup, s, op).0 == Exit(s)
  {
  }

  ghost function Run(setup: Setup, s: State, ops: seq<Op>): State
    decreases |ops|
  {
    if ops == [] then s else Run(setup, Exec(setup, s, ops[0]).0, ops[1..])
  }

  /** Once stopped, nothing runs until the next apply. */
  lemma {:induction false} StoppedUntilApply(setup: Setup, s: State, ops: seq<Op>)
    requires s.process == NoProcess && forall i :: 0 <= i < |ops| ==> !ops[i].ApplyOp?
    ensures Run(setup, s, ops).process == NoProcess
    decreases |ops|
  {
    if ops != [] {
      assert Exec(setup, s, ops[0]).0.process == NoProcess;
      StoppedUntilApply(setup, Exec(setup, s, ops[0]).0, ops[1..]);
    }
  }

  /** After a stop in any state, whatever else is asked for and whatever fails. */
  lemma StopKeepsStopped(setup: Setup, s: State, ops: seq<Op>)
    requires forall i :: 0 <= i < |ops| ==> !ops[i].ApplyOp?
    ensures Run(setup, Exec(setup, s, StopOp).0, ops).process == NoProcess
  {
    StopStores(s);
    StoppedUntilApply(setup, Exec(setup, s, StopOp).0, ops);
  }

  /** A remembered snapshot comes with an active file, and is the applied one. */
  predicate SnapshotBacked(s: State) {
    s.remembered.Some? ==>
      s.active.Some? && s.applied == s.remembered.value.version && s.hash == s.remembered.value.hash
  }

  /** The active file is removed, but removing the last-good file fails. */
  predicate ForgetsFile(s: State, op: Op) { op.ClearOp? && op.removed == 2 && s.remembered.Some? }

  lemma StepBackedIff(setup: Setup, s: State, op: Op)
    requires SnapshotBacked(s)
    ensures SnapshotBacked(Exec(setup, s, op).0) <==> !ForgetsFile(s, op)
  {
    if op.ApplyOp? { ApplyStaysBacked(setup, s, op.snapshot, op.env); }
  }

  lemma ApplyStaysBacked(setup: Setup, s: State, snapshot: Snapshot, env: Env)
    requires SnapshotBacked(s)
    ensures SnapshotBacked(Apply(setup, s, snapshot, env).0)
  {
    if Apply(setup, s, snapshot, env).1 == Ok { SuccessLoadsNew(setup, s, snapshot, env); }
    else { FailureKeepsApplied(setup, s, snapshot, env); }
  }

  ghost predicate BackedThroughout(setup: Setup, s: State, ops: seq<Op>)
    decreases |ops|
  {
    SnapshotBacked(s) && (ops == [] || BackedThroughout(setup, Exec(setup, s, ops[0]).0, ops[1..]))
  }

  ghost predicate NeverForgets(setup: Setup, s: State, ops: seq<Op>)
    decreases |ops|
  {
    ops == [] || (!ForgetsFile(s, ops[0]) && NeverForgets(setup, Exec(setup, s, ops[0]).0, ops[1..]))
  }

  /** In a run a remembered snapshot is always backed by an active file iff no removal of
      the runtime secrets stops after the active file. */
  lemma {:induction false} BackedThroughoutIff(setup: Setup, s: State, ops: seq<Op>)
    requires SnapshotBacked(s)
    ensures BackedThroughout(setup, s, ops) <==> NeverForgets(setup, s, ops)
    ensures BackedThroughout(setup, s, ops) ==> SnapshotBacked(Run(setup, s, ops))
    decreases |ops|
  {
    if ops != [] {
      StepBackedIff(setup, s, ops[0]);
      if SnapshotBacked(Exec(setup, s, ops[0]).0) { BackedThroughoutIff(setup, Exec(setup, s, ops[0]).0, ops[1..]); }
    }
  }

  /** In such a run, whenever a snapshot would be loaded by a reload, and the active file
      can be read and written, a failed reload ends with the old file active, and
      unless the rollback is reported as failed, loaded. */
  lemma FailedReloadRollsBack(setup: Setup, s: State, ops: seq<Op>, snapshot: Snapshot, env: Env)
    requires SnapshotBacked(s) && NeverForgets(setup, s, ops)
    requires Eligible(setup, Run(setup, s, ops), snapshot) && Refusal(setup, snapshot, env).None?
    requires env.replace == Renamed && env.reload != Reloaded && env.readable && env.restore != NotRenamed
    ensures var before := Run(setup, s, ops);
            var (after, r) := Apply(setup, before, snapshot, env);
            && before.active.Some? && after.active == before.active
            && ((r == Err(RestartFailed) && after.process == Loaded(before.active.value)) || r == Err(RollbackFailed))
  {
    BackedThroughoutIff(setup, s, ops);
  }

  /** Removing the secrets while the third removal fails: the snapshot is remembered, a
      reload would be tried, and there is no file to go back to. */
  lemma ForgottenFileExample(s: State, snapshot: Snapshot)
    requires Eligible(Setup(true, true), s, snapshot)
    ensures var s' := Clear(s, 2).0;
            Eligible(Setup(true, true), s', snapshot) && s'.active.None? && !SnapshotBacked(s')
  {
  }

  /** An apply that strands the process, or a removal of the files under a running one. */
  ghost predicate Strands(setup: Setup, s: State, op: Op) {
    match op
    case ApplyOp(snapshot, env) => StrandsProcess(setup, s, snapshot, env)
    case ClearOp(removed) => removed >= 2 && s.process != NoProcess
    case _ => false
  }

  lemma StepSyncedIff(setup: Setup, s: State, op: Op)
    requires Synced(s)
    ensures Synced(Exec(setup, s, op).0) <==> !Strands(setup, s, op)
  {
    if op.ApplyOp? { ProcessSyncedIff(setup, s, op.snapshot, op.env); }
  }

  ghost predicate SyncedThroughout(setup: Setup, s: State, ops: seq<Op>)
    decreases |ops|
  {
    Synced(s) && (ops == [] || SyncedThroughout(setup, Exec(setup, s, ops[0]).0, ops[1..]))
  }

  ghost predicate NeverStrands(setup: Setup, s: State, ops: seq<Op>)
    decreases |ops|
  {
    ops == [] || (!Strands(setup, s, ops[0]) && NeverStrands(setup, Exec(setup, s, ops[0]).0, ops[1..]))
  }

  /** Over a run, whatever is running has always loaded exactly the active file iff no step
      strands it. */
  lemma {:induction false} SyncedThroughoutIff(setup: Setup, s: State, ops: seq<Op>)
    requires Synced(s)
    ensures SyncedThroughout(setup, s, ops) <==> NeverStrands(setup, s, ops)
    ensures SyncedThroughout(setup, s, ops) ==> Synced(Run(setup, s, ops))
    decreases |ops|
  {
    if ops != [] {
      StepSyncedIff(setup, s, ops[0]);
      if Synced(Exec(setup, s, ops[0]).0) { SyncedThroughoutIff(setup, Exec(setup, s, ops[0]).0, ops[1..]); }
    }
  }

  /** With a binary, files that can be read, no rename reported as failed after it took
      effect, and no failed rollback, an apply never strands the process. */
  lemma OrderlyApplyKeepsSynced(setup: Setup, s: State, snapshot: Snapshot, env: Env)
    requires Synced(s) && setup.hasBinary && env.readable && env.replace != RenamedUnsynced
    requires Apply(setup, s, snapshot, env).1 != Err(RollbackFailed)
    ensures !StrandsProcess(setup, s, snapshot, env)
  {
    ProcessSyncedIff(setup, s, snapshot, env);
  }

  // ---------- concrete failures ----------

  /** Version 1 is active and loaded. */
  const BEFORE := State(Some(Text(1, 1, map[])), None, Loaded(Text(1, 1, map[])), RunningPhase, 1, 1, "h1", true,
                        Some(Snapshot("v1", 1, "u", 1, "h1", map[])))

  const NEXT := Snapshot("v1", 2, "u", 1, "h2", map[])

  /** Everything goes well but what is given. */
  function But(replace: Rename, reload: Reload, restore: Rename, rollback: Restart): Env {
    Env(false, true, true, true, true, true, Renamed, replace, reload, Started, restore, rollback)
  }

  /** The directory cannot be synced after the rename: the apply fails, the new file is
      active, and the process runs on the old one. */
  lemma UnsyncedRenameExample()
    ensures var (s, r) := Apply(Setup(true, true), BEFORE, NEXT, But(RenamedUnsynced, Reloaded, Renamed, Started));
            && r == Err(ReplaceFailed) && s.active == Some(Text(2, 1, map[])) && s.process == Loaded(Text(1, 1, map[]))
            && s.applied == 1 && SnapshotBacked(BEFORE) && Synced(BEFORE) && !Synced(s)
  {
  }

  /** The reload is rejected and the old file cannot be put back: the apply fails, and the
      rollback starts the process on the file that was refused. */
  lemma FailedRestoreExample()
    ensures var (s, r) := Apply(Setup(true, true), BEFORE, NEXT,
                                But(Renamed, ReloadRejected(false), NotRenamed, Started));
            && r == Err(RestartFailed) && s.active == Some(Text(2, 1, map[])) && s.process == Loaded(Text(2, 1, map[]))
            && s.applied == 1
  {
  }
}
