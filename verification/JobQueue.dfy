/** The durable job queue (server/internal/jobs/worker.go): jobs with leases, claimed
    and finished by workers that may stall, and woken by the service. */
module JobQueue {
  import opened Wrappers

  type Id = nat
  type Owner = nat

  datatype Status = Pending | Running | RetryWait | Succeeded | Failed | Canceled

  /** The payload is None when the stored text does not decode. */
  datatype Job = Job(
    kind: string, status: Status, runAfter: int, attempts: int, maxAttempts: int,
    owner: Option<Owner>, expires: Option<int>, key: Option<string>, payload: Option<string>)

  datatype Queue = Queue(nextId: Id, jobs: map<Id, Job>)

  /** Retry delays and leases are in the unit of the model's instants. */
  datatype Worker = Worker(owner: Owner, lease: int, retryBase: int)

  datatype Answer =
    | Refused | Enqueued(id: Id)
    | NoJob | Claimed(id: Id) | Undecodable(id: Id)
    | Done | LeaseLost | PutBack | GaveUp

  predicate Live(s: Status) { s == Pending || s == Running || s == RetryWait }

  // ---------- the statements ----------

  predicate Duplicates(q: Queue, kind: string, key: Option<string>, id: Id) {
    id in q.jobs && q.jobs[id].kind == kind && key.Some? && q.jobs[id].key == key && Live(q.jobs[id].status)
  }

  const MAX_ATTEMPTS := 5

  function NewJob(kind: string, key: Option<string>, payload: Option<string>, now: int): Job {
    Job(kind, Pending, now, 0, MAX_ATTEMPTS, None, None, key, payload)
  }

  /** An insert that the unique index turns away answers with the job that is there. */
  ghost function Enqueue(q: Queue, kind: string, resource: string, key: Option<string>, payload: Option<string>,
                         now: int)
    : (Queue, Answer)
  {
    if kind == "" || resource == "" then (q, Refused)
    else if exists id :: Duplicates(q, kind, key, id) then
      var id :| Duplicates(q, kind, key, id);
      (q, Enqueued(id))
    else (Queue(q.nextId + 1, q.jobs[q.nextId := NewJob(kind, key, payload, now)]), Enqueued(q.nextId))
  }

  predicate Unlocked(job: Job, now: int) { job.expires.None? || job.expires.value <= now }

  predicate Due(job: Job, now: int) { Live(job.status) && job.runAfter <= now && Unlocked(job, now) }

  predicate IsFirstDue(q: Queue, now: int, id: Id) {
    && id in q.jobs && Due(q.jobs[id], now)
    && forall k | k in q.jobs && Due(q.jobs[k], now) ::
         q.jobs[id].runAfter < q.jobs[k].runAfter || (q.jobs[id].runAfter == q.jobs[k].runAfter && id <= k)
  }

  function Released(job: Job, status: Status): Job { job.(status := status, owner := None, expires := None) }

  function Taken(job: Job, w: Worker, now: int): Job {
    job.(status := Running, attempts := job.attempts + 1, owner := Some(w.owner), expires := Some(now + w.lease))
  }

  ghost function Claim(q: Queue, w: Worker, now: int): (Queue, Answer) {
    if !(exists id :: IsFirstDue(q, now, id)) then (q, NoJob)
    else
      var id :| IsFirstDue(q, now, id);
      if q.jobs[id].payload.None? then (q.(jobs := q.jobs[id := Released(q.jobs[id], Failed)]), Undecodable(id))
      else (q.(jobs := q.jobs[id := Taken(q.jobs[id], w, now)]), Claimed(id))
  }

  predicate Holds(q: Queue, w: Worker, id: Id) {
    id in q.jobs && q.jobs[id].status == Running && q.jobs[id].owner == Some(w.owner)
  }

  function Heartbeat(q: Queue, w: Worker, id: Id, now: int): (Queue, Answer) {
    if Holds(q, w, id) then (q.(jobs := q.jobs[id := q.jobs[id].(expires := Some(now + w.lease))]), Done) else (q, Done)
  }

  function Complete(q: Queue, w: Worker, id: Id): (Queue, Answer) {
    if Holds(q, w, id) then (q.(jobs := q.jobs[id := Released(q.jobs[id], Succeeded)]), Done) else (q, LeaseLost)
  }

  function Power(n: nat): nat { if n == 0 then 1 else 2 * Power(n - 1) }

  /** 1, 2, 4, ... times the base, at most 300 times. */
  function Backoff(attempts: int): nat {
    var p := Power(if attempts > 1 then attempts - 1 else 0);
    if p < 300 then p else 300
  }

  function Fail(q: Queue, w: Worker, id: Id, now: int): (Queue, Answer) {
    if !Holds(q, w, id) then (q, LeaseLost)
    else
      var job := q.jobs[id];
      if job.attempts >= job.maxAttempts then (q.(jobs := q.jobs[id := Released(job, Failed)]), GaveUp)
      else
        (q.(jobs := q.jobs[id := Released(job, RetryWait).(runAfter := now + Backoff(job.attempts) * w.retryBase)]),
         PutBack)
  }

  const DAY := 86400

  function Block(q: Queue, w: Worker, id: Id, now: int): (Queue, Answer) {
    if Holds(q, w, id) then (q.(jobs := q.jobs[id := Released(q.jobs[id], RetryWait).(runAfter := now + DAY)]), Done)
    else (q, Done)
  }

  datatype Handled = Handled | Blocked | Broken

  /** The service renews the payload of a user's deletion and makes it due
      (server/internal/service/service.go). */
  function Renew(q: Queue, id: Id, payload: Option<string>, now: int): Queue {
    if id in q.jobs && Live(q.jobs[id].status) then
      var job := q.jobs[id];
      q.(jobs := q.jobs[id := job.(payload := payload, runAfter := now,
                                   status := if job.status == RetryWait then Pending else job.status)])
    else q
  }

  /** At start the service makes all waiting jobs of one kind due. */
  function Wake(q: Queue, kind: string, now: int): Queue {
    q.(jobs := map id | id in q.jobs ::
         if q.jobs[id].kind == kind && q.jobs[id].status == RetryWait then q.jobs[id].(runAfter := now) else q.jobs[id])
  }

  // ---------- the table and its workers ----------

  class Database {
    var nextId: Id
    var jobs: map<Id, Job>

    constructor ()
      ensures Contents() == Queue(0, map[])
    {
      nextId, jobs := 0, map[];
    }

    function Contents(): Queue
      reads this
    {
      Queue(nextId, jobs)
    }

    method RenewJob(id: Id, payload: Option<string>, now: int)
      modifies this
      ensures Contents() == Renew(old(Contents()), id, payload, now)
    {
      if id in jobs && Live(jobs[id].status) {
        var status := if jobs[id].status == RetryWait then Pending else jobs[id].status;
        jobs := jobs[id := jobs[id].(payload := payload, runAfter := now, status := status)];
      }
    }

    method WakeJobs(kind: string, now: int)
      modifies this
      ensures Contents() == Wake(old(Contents()), kind, now)
    {
      jobs := map id | id in jobs ::
        if jobs[id].kind == kind && jobs[id].status == RetryWait then jobs[id].(runAfter := now) else jobs[id];
    }
  }

  class Store {
    const db: Database
    const worker: Worker

    constructor (db: Database, worker: Worker)
      ensures this.db == db && this.worker == worker
    {
      this.db, this.worker := db, worker;
    }

    method EnqueueJob(kind: string, resource: string, key: Option<string>, payload: Option<string>, now: int)
      returns (answer: Answer)
      modifies db
      ensures OneLivePerKey(old(db.Contents())) ==>
        (db.Contents(), answer) == Enqueue(old(db.Contents()), kind, resource, key, payload, now)
    {
      if kind == "" || resource == "" { return Refused; }
      if id :| id in db.jobs && Duplicates(db.Contents(), kind, key, id) { return Enqueued(id); }
      var id := db.nextId;
      db.jobs := db.jobs[id := NewJob(kind, key, payload, now)];
      db.nextId := db.nextId + 1;
      return Enqueued(id);
    }

    method ClaimJob(now: int) returns (answer: Answer, job: Option<Job>)
      modifies db
      ensures (db.Contents(), answer) == Claim(old(db.Contents()), worker, now)
      ensures job == if answer.Claimed? then Some(db.jobs[answer.id]) else None
    {
      if id :| id in db.jobs && IsFirstDue(db.Contents(), now, id) {
        FirstDueUnique(db.Contents(), now);
        var row := db.jobs[id];
        if row.payload.None? {
          db.jobs := db.jobs[id := row.(status := Failed, owner := None, expires := None)];
          return Undecodable(id), None;
        }
        row := row.(status := Running, attempts := row.attempts + 1, owner := Some(worker.owner),
                    expires := Some(now + worker.lease));
        db.jobs := db.jobs[id := row];
        return Claimed(id), Some(row);
      }
      return NoJob, None;
    }

    method HeartbeatJob(id: Id, now: int)
      modifies db
      ensures db.Contents() == Heartbeat(old(db.Contents()), worker, id, now).0
    {
      if id in db.jobs && db.jobs[id].status == Running && db.jobs[id].owner == Some(worker.owner) {
        db.jobs := db.jobs[id := db.jobs[id].(expires := Some(now + worker.lease))];
      }
    }

    method CompleteJob(id: Id) returns (answer: Answer)
      modifies db
      ensures (db.Contents(), answer) == Complete(old(db.Contents()), worker, id)
    {
      if id in db.jobs && db.jobs[id].status == Running && db.jobs[id].owner == Some(worker.owner) {
        db.jobs := db.jobs[id := db.jobs[id].(status := Succeeded, owner := None, expires := None)];
        return Done;
      }
      return LeaseLost;
    }

    method FailJob(id: Id, now: int) returns (answer: Answer)
      modifies db
      ensures (db.Contents(), answer) == Fail(old(db.Contents()), worker, id, now)
    {
      if id !in db.jobs || db.jobs[id].status != Running || db.jobs[id].owner != Some(worker.owner) {
        return LeaseLost;
      }
      var attempts, maxAttempts := db.jobs[id].attempts, db.jobs[id].maxAttempts;
      if attempts >= maxAttempts {
        db.jobs := db.jobs[id := db.jobs[id].(status := Failed, owner := None, expires := None)];
        return GaveUp;
      }
      var exponent := if attempts - 1 > 0 then attempts - 1 else 0;
      var seconds := if Power(exponent) < 300 then Power(exponent) else 300;
      db.jobs := db.jobs[id := db.jobs[id].(status := RetryWait, runAfter := now + seconds * worker.retryBase,
                                            owner := None, expires := None)];
      return PutBack;
    }

    method BlockJob(id: Id, now: int)
      modifies db
      ensures db.Contents() == Block(old(db.Contents()), worker, id, now).0
    {
      if id in db.jobs && db.jobs[id].status == Running && db.jobs[id].owner == Some(worker.owner) {
        db.jobs := db.jobs[id := db.jobs[id].(status := RetryWait, runAfter := now + DAY,
                                              owner := None, expires := None)];
      }
    }
  }

  lemma FirstDueUnique(q: Queue, now: int)
    ensures forall i, j :: IsFirstDue(q, now, i) && IsFirstDue(q, now, j) ==> i == j
  {
  }

  /** A worker finds nothing only when nothing is due. */
  lemma NoJobIffNoneDue(q: Queue, w: Worker, now: int)
    ensures Claim(q, w, now).1 == NoJob <==> forall id :: id in q.jobs ==> !Due(q.jobs[id], now)
  {
    var due := set id | id in q.jobs && Due(q.jobs[id], now);
    assert forall id :: id in q.jobs && Due(q.jobs[id], now) ==> id in due;
    if due != {} {
      var first := FirstOf(q, due);
      assert IsFirstDue(q, now, first);
    }
  }

  ghost function FirstOf(q: Queue, ids: set<Id>): (first: Id)
    requires ids != {} && ids <= q.jobs.Keys
    ensures first in ids
    ensures forall k :: k in ids ==>
      q.jobs[first].runAfter < q.jobs[k].runAfter || (q.jobs[first].runAfter == q.jobs[k].runAfter && first <= k)
  {
    var x :| x in ids;
    if ids == {x} then x
    else
      var rest := FirstOf(q, ids - {x});
      assert forall k :: k in ids <==> k == x || k in ids - {x};
      if q.jobs[x].runAfter < q.jobs[rest].runAfter || (q.jobs[x].runAfter == q.jobs[rest].runAfter && x <= rest)
      then x else rest
  }

  // ---------- what each operation does ----------

  /** The job may be run: it is not finished, its time has come, and no lease on it runs. */
  predicate Runnable(job: Job, now: int) {
    && job.status in {Pending, Running, RetryWait} && job.runAfter <= now
    && (job.expires == None || job.expires.value <= now)
  }

  /** A new job is due at once, free, and has five attempts. */
  lemma EnqueueStores(q: Queue, kind: string, resource: string, key: Option<string>, payload: Option<string>, now: int)
    requires kind != "" && resource != ""
    requires forall id :: id in q.jobs && q.jobs[id].kind == kind && q.jobs[id].key == key ==>
      key == None || q.jobs[id].status in {Succeeded, Failed, Canceled}
    ensures Enqueue(q, kind, resource, key, payload, now)
            == (Queue(q.nextId + 1, q.jobs[q.nextId := Job(kind, Pending, now, 0, 5, None, None, key, payload)]),
                Enqueued(q.nextId))
  {
  }

  /** Of the jobs that may be run, a claim takes the one whose time came first, and of equals
      the one of the lowest id; it starts an attempt under the worker's lease. A payload that
      does not decode fails the job for good. */
  lemma ClaimStores(q: Queue, w: Worker, now: int, id: Id)
    requires id in q.jobs && Runnable(q.jobs[id], now)
    requires forall k :: k in q.jobs && k != id && Runnable(q.jobs[k], now) ==>
      q.jobs[id].runAfter < q.jobs[k].runAfter || (q.jobs[id].runAfter == q.jobs[k].runAfter && id < k)
    ensures var job := q.jobs[id];
            Claim(q, w, now)
            == if job.payload == None
               then (q.(jobs := q.jobs[id := job.(status := Failed, owner := None, expires := None)]), Undecodable(id))
               else (q.(jobs := q.jobs[id := job.(status := Running, attempts := job.attempts + 1,
                                                  owner := Some(w.owner),
                                                  expires := Some(now + w.lease))]),
                     Claimed(id))
  {
    assert IsFirstDue(q, now, id);
    FirstDueUnique(q, now);
  }

  lemma ClaimIdles(q: Queue, w: Worker, now: int)
    requires forall k :: k in q.jobs ==> !Runnable(q.jobs[k], now)
    ensures Claim(q, w, now) == (q, NoJob)
  {
  }

  predicate Owns(q: Queue, w: Worker, id: Id) {
    id in q.jobs && q.jobs[id].status == Running && q.jobs[id].owner == Some(w.owner)
  }

  /** What a worker may do to a job it holds; a job it does not hold stays as it is. */
  lemma HeldStores(q: Queue, w: Worker, id: Id, now: int)
    requires Owns(q, w, id)
    ensures var job := q.jobs[id];
            var free := job.(owner := None, expires := None);
            && Heartbeat(q, w, id, now) == (q.(jobs := q.jobs[id := job.(expires := Some(now + w.lease))]), Done)
            && Complete(q, w, id) == (q.(jobs := q.jobs[id := free.(status := Succeeded)]), Done)
            && Block(q, w, id, now)
               == (q.(jobs := q.jobs[id := free.(status := RetryWait, runAfter := now + 24 * 60 * 60)]), Done)
            && Fail(q, w, id, now)
               == if job.attempts < job.maxAttempts
                  then (q.(jobs := q.jobs[id := free.(status := RetryWait,
                                                      runAfter := now + Backoff(job.attempts) * w.retryBase)]), PutBack)
                  else (q.(jobs := q.jobs[id := free.(status := Failed)]), GaveUp)
  {
  }

  lemma NotHeldStores(q: Queue, w: Worker, id: Id, now: int)
    requires !Owns(q, w, id)
    ensures Heartbeat(q, w, id, now) == (q, Done) && Block(q, w, id, now) == (q, Done)
    ensures Complete(q, w, id) == (q, LeaseLost) && Fail(q, w, id, now) == (q, LeaseLost)
  {
  }

  /** The service makes an unfinished job due, with another payload; one that is running goes
      on; and at start all waiting jobs of a kind. */
  lemma WokenStores(q: Queue, id: Id, kind: string, payload: Option<string>, now: int)
    ensures id in q.jobs && q.jobs[id].status in {Pending, Running, RetryWait} ==>
      Renew(q, id, payload, now)
      == q.(jobs := q.jobs[id := q.jobs[id].(payload := payload, runAfter := now,
                                             status := if q.jobs[id].status == Running then Running else Pending)])
    ensures !(id in q.jobs && q.jobs[id].status in {Pending, Running, RetryWait}) ==> Renew(q, id, payload, now) == q
    ensures Wake(q, kind, now).nextId == q.nextId && Wake(q, kind, now).jobs.Keys == q.jobs.Keys
    ensures forall k :: k in q.jobs ==>
      Wake(q, kind, now).jobs[k] == if q.jobs[k].kind == kind && q.jobs[k].status == RetryWait
                                    then q.jobs[k].(runAfter := now) else q.jobs[k]
  {
  }

  // ---------- runs ----------

  datatype Op =
    | EnqueueOp(kind: string, resource: string, key: Option<string>, payload: Option<string>, now: int)
    | ClaimOp(who: Worker, now: int)
    | HeartbeatOp(who: Worker, id: Id, now: int)
    | CompleteOp(who: Worker, id: Id)
    | FailOp(who: Worker, id: Id, now: int)
    | BlockOp(who: Worker, id: Id, now: int)
    | RenewOp(id: Id, payload: Option<string>, now: int)
    | WakeOp(kind: string, now: int)

  ghost function Exec(q: Queue, op: Op): (Queue, Answer) {
    match op
    case EnqueueOp(kind, resource, key, payload, now) => Enqueue(q, kind, resource, key, payload, now)
    case ClaimOp(w, now) => Claim(q, w, now)
    case HeartbeatOp(w, id, now) => Heartbeat(q, w, id, now)
    case CompleteOp(w, id) => Complete(q, w, id)
    case FailOp(w, id, now) => Fail(q, w, id, now)
    case BlockOp(w, id, now) => Block(q, w, id, now)
    case RenewOp(id, payload, now) => (Renew(q, id, payload, now), Done)
    case WakeOp(kind, now) => (Wake(q, kind, now), Done)
  }

  /** Each step is the operation of its name, with its arguments. */
  lemma StepIs(q: Queue, op: Op)
    ensures match op
            case EnqueueOp(kind, resource, key, payload, now) =>
              Exec(q, op) == Enqueue(q, kind, resource, key, payload, now)
            case ClaimOp(w, now) => Exec(q, op) == Claim(q, w, now)
            case HeartbeatOp(w, id, now) => Exec(q, op) == Heartbeat(q, w, id, now)
            case CompleteOp(w, id) => Exec(q, op) == Complete(q, w, id)
            case FailOp(w, id, now) => Exec(q, op) == Fail(q, w, id, now)
            case BlockOp(w, id, now) => Exec(q, op) == Block(q, w, id, now)
            case RenewOp(id, payload, now) => Exec(q, op).0 == Renew(q, id, payload, now)
            case WakeOp(kind, now) => Exec(q, op).0 == Wake(q, kind, now)
  {
  }

  ghost function Run(q: Queue, ops: seq<Op>): Queue
    decreases |ops|
  {
    if ops == [] then q else Run(Exec(q, ops[0]).0, ops[1..])
  }

  // ---------- invariants ----------

  ghost predicate OneLivePerKey(q: Queue) {
    forall a, b | a in q.jobs && b in q.jobs && SameKey(q.jobs[a], q.jobs[b]) ::
      Live(q.jobs[a].status) && Live(q.jobs[b].status) ==> a == b
  }

  predicate SameKey(a: Job, b: Job) { a.kind == b.kind && a.key.Some? && a.key == b.key }

  ghost predicate LocksAreRunning(q: Queue) {
    forall id {:trigger q.jobs[id]} :: id in q.jobs ==>
      && (q.jobs[id].status == Running <==> q.jobs[id].owner.Some?)
      && (q.jobs[id].owner.Some? <==> q.jobs[id].expires.Some?)
  }

  ghost predicate IdsBelow(q: Queue) { forall id :: id in q.jobs ==> id < q.nextId }

  ghost predicate Inv(q: Queue) { OneLivePerKey(q) && LocksAreRunning(q) && IdsBelow(q) }

  /** No job comes to life, or changes its kind or key. */
  ghost predicate NoneRevived(q: Queue, q': Queue) {
    && q'.jobs.Keys == q.jobs.Keys
    && forall id {:trigger q'.jobs[id]} :: id in q.jobs ==>
         && q'.jobs[id].kind == q.jobs[id].kind && q'.jobs[id].key == q.jobs[id].key
         && (Live(q'.jobs[id].status) ==> Live(q.jobs[id].status))
  }

  lemma NoneRevivedKeepsKeys(q: Queue, q': Queue)
    requires OneLivePerKey(q) && NoneRevived(q, q')
    ensures OneLivePerKey(q')
  {
  }

  lemma StepsReviveNone(q: Queue, op: Op)
    requires !op.EnqueueOp?
    ensures NoneRevived(q, Exec(q, op).0) && Exec(q, op).0.nextId == q.nextId
  {
    match op
    case ClaimOp(w, now) => ClaimRevivesNone(q, w, now);
    case FailOp(w, id, now) => FailRevivesNone(q, w, id, now);
    case WakeOp(kind, now) => WakeRevivesNone(q, kind, now);
    case _ =>
  }

  lemma ClaimRevivesNone(q: Queue, w: Worker, now: int)
    ensures NoneRevived(q, Claim(q, w, now).0) && Claim(q, w, now).0.nextId == q.nextId
  {
  }

  lemma FailRevivesNone(q: Queue, w: Worker, id: Id, now: int)
    ensures NoneRevived(q, Fail(q, w, id, now).0) && Fail(q, w, id, now).0.nextId == q.nextId
  {
  }

  lemma WakeRevivesNone(q: Queue, kind: string, now: int)
    ensures NoneRevived(q, Wake(q, kind, now)) && Wake(q, kind, now).nextId == q.nextId
  {
  }

  lemma StepKeepsLocks(q: Queue, op: Op)
    requires LocksAreRunning(q)
    ensures LocksAreRunning(Exec(q, op).0)
  {
  }

  lemma EnqueueKeepsKeys(q: Queue, kind: string, resource: string, key: Option<string>, payload: Option<string>,
                         now: int)
    requires OneLivePerKey(q) && IdsBelow(q)
    ensures var q' := Enqueue(q, kind, resource, key, payload, now).0; OneLivePerKey(q') && IdsBelow(q')
  {
    var q' := Enqueue(q, kind, resource, key, payload, now).0;
    if q' != q {
      forall b | b in q.jobs && SameKey(q'.jobs[q.nextId], q.jobs[b]) ensures !Live(q.jobs[b].status) {
        assert !Duplicates(q, kind, key, b);
      }
    }
  }

  lemma ExecKeepsInv(q: Queue, op: Op)
    requires Inv(q)
    ensures Inv(Exec(q, op).0)
  {
    StepKeepsLocks(q, op);
    if op.EnqueueOp? {
      EnqueueKeepsKeys(q, op.kind, op.resource, op.key, op.payload, op.now);
    } else {
      StepsReviveNone(q, op);
      NoneRevivedKeepsKeys(q, Exec(q, op).0);
    }
  }

  lemma {:induction false} RunKeepsInv(q: Queue, ops: seq<Op>)
    requires Inv(q)
    ensures Inv(Run(q, ops))
    decreases |ops|
  {
    if ops != [] {
      ExecKeepsInv(q, ops[0]);
      RunKeepsInv(Exec(q, ops[0]).0, ops[1..]);
    }
  }

  /** In every run from the empty table: a job is running iff it is locked, and at most
      one live job has a given kind and key. */
  lemma QueueIsSafe(ops: seq<Op>)
    ensures Inv(Run(Queue(0, map[]), ops))
  {
    RunKeepsInv(Queue(0, map[]), ops);
  }

  /** Enqueueing under a key leaves exactly one live job for it: the one answered. */
  lemma EnqueueDeduplicates(q: Queue, kind: string, resource: string, key: string, payload: Option<string>, now: int)
    requires Inv(q) && kind != "" && resource != ""
    ensures var (q', answer) := Enqueue(q, kind, resource, Some(key), payload, now);
            && answer.Enqueued? && Duplicates(q', kind, Some(key), answer.id)
            && (forall id :: Duplicates(q', kind, Some(key), id) ==> id == answer.id)
  {
    EnqueueKeepsKeys(q, kind, resource, Some(key), payload, now);
    var (q', answer) := Enqueue(q, kind, resource, Some(key), payload, now);
    forall id | Duplicates(q', kind, Some(key), id) ensures id == answer.id {
      assert SameKey(q'.jobs[id], q'.jobs[answer.id]);
    }
  }

  // ---------- final jobs ----------

  predicate Final(s: Status) { s == Succeeded || s == Failed || s == Canceled }

  lemma FinalStepStays(q: Queue, op: Op, id: Id)
    requires Inv(q) && id in q.jobs && Final(q.jobs[id].status)
    ensures var q' := Exec(q, op).0; id in q'.jobs && q'.jobs[id] == q.jobs[id]
  {
  }

  /** A job that succeeded or failed never changes again. */
  lemma {:induction false} FinalStays(q: Queue, ops: seq<Op>, id: Id)
    requires Inv(q) && id in q.jobs && Final(q.jobs[id].status)
    ensures var q' := Run(q, ops); id in q'.jobs && q'.jobs[id] == q.jobs[id]
    decreases |ops|
  {
    if ops != [] {
      FinalStepStays(q, ops[0], id);
      ExecKeepsInv(q, ops[0]);
      FinalStays(Exec(q, ops[0]).0, ops[1..], id);
    }
  }

  // ---------- fencing ----------

  ghost predicate Lost(q: Queue, owner: Owner, id: Id) { id in q.jobs && q.jobs[id].owner != Some(owner) }

  /** A step by which the owner may get the job (back). */
  ghost predicate Claims(q: Queue, op: Op, owner: Owner, id: Id) {
    op.ClaimOp? && op.who.owner == owner && Exec(q, op).1 == Claimed(id)
  }

  lemma LostStays(q: Queue, op: Op, owner: Owner, id: Id)
    requires Inv(q) && Lost(q, owner, id) && !Claims(q, op, owner, id)
    ensures Lost(Exec(q, op).0, owner, id)
  {
  }

  predicate Finishes(op: Op, owner: Owner, id: Id) {
    (op.HeartbeatOp? || op.CompleteOp? || op.FailOp? || op.BlockOp?) && op.who.owner == owner && op.id == id
  }

  ghost predicate NeverClaims(q: Queue, ops: seq<Op>, owner: Owner, id: Id)
    decreases |ops|
  {
    ops == [] || (!Claims(q, ops[0], owner, id) && NeverClaims(Exec(q, ops[0]).0, ops[1..], owner, id))
  }

  /** Once the job is no longer an owner's, because another worker took it over or
      because it is finished, nothing that owner does to it has any effect until it claims
      the job again; its Complete and Fail say that the lease is lost. */
  lemma {:induction false} Fenced(q: Queue, ops: seq<Op>, owner: Owner, id: Id, op: Op)
    requires Inv(q) && Lost(q, owner, id) && NeverClaims(q, ops, owner, id) && Finishes(op, owner, id)
    ensures var q' := Run(q, ops);
            && Exec(q', op).0 == q'
            && (op.CompleteOp? || op.FailOp? ==> Exec(q', op).1 == LeaseLost)
    decreases |ops|
  {
    if ops != [] {
      LostStays(q, ops[0], owner, id);
      ExecKeepsInv(q, ops[0]);
      Fenced(Exec(q, ops[0]).0, ops[1..], owner, id, op);
    }
  }

  /** A takeover is such a loss: whoever held the job, another owner's claim fences it. */
  lemma TakeoverLoses(q: Queue, w: Worker, now: int, owner: Owner)
    requires Claim(q, w, now).1.Claimed? && owner != w.owner
    ensures Lost(Claim(q, w, now).0, owner, Claim(q, w, now).1.id)
  {
  }

  // ---------- keeping a lease ----------

  /** Whenever anyone claims, the worker's last beat is less than one lease ago; and the
      worker does not finish the job. */
  ghost predicate KeepsBeating(ops: seq<Op>, w: Worker, id: Id, last: int)
    decreases |ops|
  {
    ops == [] ||
    match ops[0]
    case ClaimOp(_, now) => now < last + w.lease && KeepsBeating(ops[1..], w, id, last)
    case HeartbeatOp(who, j, now) =>
      if who.owner == w.owner && j == id then who == w && KeepsBeating(ops[1..], w, id, now)
      else KeepsBeating(ops[1..], w, id, last)
    case op => !Finishes(op, w.owner, id) && KeepsBeating(ops[1..], w, id, last)
  }

  ghost predicate HoldsUntil(q: Queue, w: Worker, id: Id, expires: int, attempts: int) {
    Holds(q, w, id) && q.jobs[id].expires == Some(expires) && q.jobs[id].attempts == attempts
  }

  lemma OtherStepsKeepLock(q: Queue, op: Op, w: Worker, id: Id, expires: int, attempts: int)
    requires HoldsUntil(q, w, id, expires, attempts) && IdsBelow(q)
    requires !Finishes(op, w.owner, id) && (op.ClaimOp? ==> op.now < expires)
    ensures HoldsUntil(Exec(q, op).0, w, id, expires, attempts)
  {
  }

  lemma BeatMovesLock(q: Queue, w: Worker, id: Id, expires: int, attempts: int, now: int)
    requires HoldsUntil(q, w, id, expires, attempts)
    ensures HoldsUntil(Heartbeat(q, w, id, now).0, w, id, now + w.lease, attempts)
  {
  }

  /** Such a worker is never taken over: it still holds the job, on the same attempt. */
  lemma {:induction false} NeverTakenOver(q: Queue, ops: seq<Op>, w: Worker, id: Id, last: int, attempts: int)
    requires Inv(q) && HoldsUntil(q, w, id, last + w.lease, attempts) && KeepsBeating(ops, w, id, last)
    ensures Holds(Run(q, ops), w, id) && Run(q, ops).jobs[id].attempts == attempts
    decreases |ops|
  {
    if ops != [] {
      var q1 := Exec(q, ops[0]).0;
      ExecKeepsInv(q, ops[0]);
      if ops[0].HeartbeatOp? && ops[0].who.owner == w.owner && ops[0].id == id {
        BeatMovesLock(q, w, id, last + w.lease, attempts, ops[0].now);
        NeverTakenOver(q1, ops[1..], w, id, ops[0].now, attempts);
      } else {
        OtherStepsKeepLock(q, ops[0], w, id, last + w.lease, attempts);
        NeverTakenOver(q1, ops[1..], w, id, last, attempts);
      }
    }
  }

  // ---------- a worker's turn ----------

  function Finish(q: Queue, w: Worker, id: Id, handled: Handled, now: int): (Queue, Answer) {
    match handled
    case Handled => Complete(q, w, id)
    case Blocked => Block(q, w, id, now)
    case Broken => Fail(q, w, id, now)
  }

  /** A claim; what everyone, the worker's own heartbeats included, does to the queue while
      its handler runs; and what the handler's answer leads to. */
  ghost function Turn(q: Queue, w: Worker, now: int, meanwhile: seq<Op>, handled: Handled, later: int)
    : (Queue, Answer)
  {
    var (q1, answer) := Claim(q, w, now);
    if !answer.Claimed? then (q1, answer) else Finish(Run(q1, meanwhile), w, answer.id, handled, later)
  }

  method RunOnce(store: Store, now: int, meanwhile: seq<Op>, handled: Handled, later: int) returns (answer: Answer)
    requires Inv(store.db.Contents())
    modifies store.db
    ensures (store.db.Contents(), answer)
            == Turn(old(store.db.Contents()), store.worker, now, meanwhile, handled, later)
    ensures Inv(store.db.Contents())
  {
    ghost var q := store.db.Contents();
    ExecKeepsInv(q, ClaimOp(store.worker, now));
    var claim, job := store.ClaimJob(now);
    if job.None? { return claim; }
    Interleave(store.db, meanwhile);
    FinishKeepsInv(store.db.Contents(), store.worker, claim.id, handled, later);
    match handled {
      case Blocked => store.BlockJob(claim.id, later); answer := Done;
      case Broken => answer := store.FailJob(claim.id, later);
      case Handled => answer := store.CompleteJob(claim.id);
    }
  }

  lemma FinishKeepsInv(q: Queue, w: Worker, id: Id, handled: Handled, now: int)
    requires Inv(q)
    ensures Inv(Finish(q, w, id, handled, now).0)
  {
    match handled
    case Handled => ExecKeepsInv(q, CompleteOp(w, id));
    case Blocked => ExecKeepsInv(q, BlockOp(w, id, now));
    case Broken => ExecKeepsInv(q, FailOp(w, id, now));
  }

  /** Steps of others, one after the other. */
  method Interleave(db: Database, ops: seq<Op>)
    requires Inv(db.Contents())
    modifies db
    ensures db.Contents() == Run(old(db.Contents()), ops) && Inv(db.Contents())
  {
    var i := 0;
    while i < |ops|
      invariant 0 <= i <= |ops| && Inv(db.Contents())
      invariant Run(db.Contents(), ops[i..]) == Run(old(db.Contents()), ops)
    {
      assert ops[i..][0] == ops[i] && ops[i..][1..] == ops[i + 1..];
      ExecKeepsInv(db.Contents(), ops[i]);
      Perform(db, ops[i]);
      i := i + 1;
    }
  }

  method Perform(db: Database, op: Op)
    requires Inv(db.Contents())
    modifies db
    ensures db.Contents() == Exec(old(db.Contents()), op).0
  {
    match op {
      case EnqueueOp(kind, resource, key, payload, now) =>
        var store := new Store(db, Worker(0, 0, 0));
        var _ := store.EnqueueJob(kind, resource, key, payload, now);
      case ClaimOp(w, now) => var store := new Store(db, w); var _, _ := store.ClaimJob(now);
      case HeartbeatOp(w, id, now) => var store := new Store(db, w); store.HeartbeatJob(id, now);
      case CompleteOp(w, id) => var store := new Store(db, w); var _ := store.CompleteJob(id);
      case FailOp(w, id, now) => var store := new Store(db, w); var _ := store.FailJob(id, now);
      case BlockOp(w, id, now) => var store := new Store(db, w); store.BlockJob(id, now);
      case RenewOp(id, payload, now) => db.RenewJob(id, payload, now);
      case WakeOp(kind, now) => db.WakeJobs(kind, now);
    }
  }

  /** Whatever the others do meanwhile: a worker that keeps beating lets go of its job at the
      end of its turn, which is finished, given up, or waiting to be due again, on the very
      attempt of its claim. */
  lemma TurnReleases(q: Queue, w: Worker, now: int, meanwhile: seq<Op>, handled: Handled, later: int, id: Id)
    requires Inv(q) && Claim(q, w, now).1 == Claimed(id) && KeepsBeating(meanwhile, w, id, now)
    ensures var q1 := Run(Claim(q, w, now).0, meanwhile);
            var (q', answer) := Turn(q, w, now, meanwhile, handled, later);
            && answer != LeaseLost && id in q1.jobs && id in q'.jobs && q1.jobs[id].attempts == q.jobs[id].attempts + 1
            && q'.jobs[id].owner == None && q'.jobs[id].expires == None
            && q'.jobs[id].status == (if handled == Handled then Succeeded
                                      else if handled == Broken && q1.jobs[id].attempts >= q1.jobs[id].maxAttempts
                                      then Failed
                                      else RetryWait)
            && (forall k :: k in q1.jobs && k != id ==> k in q'.jobs && q'.jobs[k] == q1.jobs[k])
  {
    ExecKeepsInv(q, ClaimOp(w, now));
    NeverTakenOver(Claim(q, w, now).0, meanwhile, w, id, now, q.jobs[id].attempts + 1);
  }

  /** A worker that another has taken the job from, and that does not claim it again, ends its
      turn without any effect; unless its handler answered that it is blocked, it is told. */
  lemma TurnIsFenced(q: Queue, w: Worker, now: int, before: seq<Op>, after: seq<Op>,
                     handled: Handled, later: int, id: Id)
    requires Inv(q) && Claim(q, w, now).1 == Claimed(id)
    requires var q1 := Run(Claim(q, w, now).0, before); Lost(q1, w.owner, id) && NeverClaims(q1, after, w.owner, id)
    ensures var (q', answer) := Turn(q, w, now, before + after, handled, later);
            q' == Run(Claim(q, w, now).0, before + after) && (answer == LeaseLost <==> handled != Blocked)
  {
    var q1 := Claim(q, w, now).0;
    ExecKeepsInv(q, ClaimOp(w, now));
    RunKeepsInv(q1, before);
    RunOfBoth(q1, before, after);
    match handled
    case Handled => Fenced(Run(q1, before), after, w.owner, id, CompleteOp(w, id));
    case Blocked => Fenced(Run(q1, before), after, w.owner, id, BlockOp(w, id, later));
    case Broken => Fenced(Run(q1, before), after, w.owner, id, FailOp(w, id, later));
  }

  lemma {:induction false} RunOfBoth(q: Queue, a: seq<Op>, b: seq<Op>)
    ensures Run(q, a + b) == Run(Run(q, a), b)
    decreases |a|
  {
    if a == [] {
      assert a + b == b;
    } else {
      assert (a + b)[1..] == a[1..] + b;
      RunOfBoth(Exec(q, a[0]).0, a[1..], b);
    }
  }

  // ---------- attempts ----------

  function Attempts(q: Queue, id: Id): int { if id in q.jobs then q.jobs[id].attempts else 0 }

  ghost function ClaimsOf(q: Queue, ops: seq<Op>, id: Id): nat
    decreases |ops|
  {
    if ops == [] then 0
    else
      (if ops[0].ClaimOp? && Exec(q, ops[0]).1 == Claimed(id) then 1 else 0)
      + ClaimsOf(Exec(q, ops[0]).0, ops[1..], id)
  }

  lemma StepCountsAttempts(q: Queue, op: Op, id: Id)
    requires IdsBelow(q)
    ensures Attempts(Exec(q, op).0, id)
            == Attempts(q, id) + (if op.ClaimOp? && Exec(q, op).1 == Claimed(id) then 1 else 0)
  {
  }

  /** The attempts of a job are the claims that got it, whatever became of them. */
  lemma {:induction false} AttemptsAreClaims(q: Queue, ops: seq<Op>, id: Id)
    requires Inv(q)
    ensures Attempts(Run(q, ops), id) == Attempts(q, id) + ClaimsOf(q, ops, id)
    decreases |ops|
  {
    if ops != [] {
      StepCountsAttempts(q, ops[0], id);
      ExecKeepsInv(q, ops[0]);
      AttemptsAreClaims(Exec(q, ops[0]).0, ops[1..], id);
    }
  }

  /** A failure is retried iff the job has been claimed less often than its limit. Claims
      that ended in Block count too, so blocking does use up the retry budget. */
  lemma FailureRetriedIff(ops: seq<Op>, w: Worker, id: Id, now: int)
    requires Holds(Run(Queue(0, map[]), ops), w, id)
    ensures var q := Run(Queue(0, map[]), ops);
            && (Fail(q, w, id, now).1 == PutBack <==> ClaimsOf(Queue(0, map[]), ops, id) < q.jobs[id].maxAttempts)
            && (Fail(q, w, id, now).1 == GaveUp <==> ClaimsOf(Queue(0, map[]), ops, id) >= q.jobs[id].maxAttempts)
  {
    AttemptsAreClaims(Queue(0, map[]), ops, id);
  }

  /** A worker that blocks the job each time it is due, n days running. */
  function BlockedDays(w: Worker, id: Id, now: int, n: nat): seq<Op>
    decreases n
  {
    if n == 0 then [] else [ClaimOp(w, now), BlockOp(w, id, now)] + BlockedDays(w, id, now + DAY, n - 1)
  }

  /** The only job of the queue, due from `now` on. */
  ghost predicate Alone(q: Queue, id: Id, now: int) {
    && q.jobs.Keys == {id} && Live(q.jobs[id].status) && q.jobs[id].expires.None? && q.jobs[id].payload.Some?
    && q.jobs[id].runAfter <= now
  }

  lemma AloneIsClaimed(q: Queue, w: Worker, id: Id, now: int)
    requires Alone(q, id, now)
    ensures Claim(q, w, now) == (q.(jobs := q.jobs[id := Taken(q.jobs[id], w, now)]), Claimed(id))
  {
    assert forall k :: k in q.jobs.Keys <==> k == id;
    assert IsFirstDue(q, now, id);
  }

  lemma BlockedDay(q: Queue, w: Worker, id: Id, now: int)
    requires Alone(q, id, now)
    ensures var q' := Block(Claim(q, w, now).0, w, id, now).0;
            && Alone(q', id, now + DAY) && q'.jobs[id].attempts == q.jobs[id].attempts + 1
            && q'.jobs[id].maxAttempts == q.jobs[id].maxAttempts
  {
    AloneIsClaimed(q, w, id, now);
    var q1 := Claim(q, w, now).0;
    assert q1.jobs.Keys == {id} && Block(q1, w, id, now).0.jobs.Keys == {id};
  }

  lemma RunOfTwo(q: Queue, ops: seq<Op>)
    requires |ops| >= 2
    ensures Run(q, ops) == Run(Exec(Exec(q, ops[0]).0, ops[1]).0, ops[2..])
  {
    assert ops[1..][1..] == ops[2..];
  }

  lemma {:induction false} DaysBlocked(q: Queue, w: Worker, id: Id, now: int, n: nat)
    requires Alone(q, id, now)
    ensures var q' := Run(q, BlockedDays(w, id, now, n));
            && Alone(q', id, now + n * DAY) && q'.jobs[id].attempts == q.jobs[id].attempts + n
            && q'.jobs[id].maxAttempts == q.jobs[id].maxAttempts
    decreases n
  {
    if n > 0 {
      var ops := BlockedDays(w, id, now, n);
      RunOfTwo(q, ops);
      assert ops[2..] == BlockedDays(w, id, now + DAY, n - 1);
      BlockedDay(q, w, id, now);
      DaysBlocked(Block(Claim(q, w, now).0, w, id, now).0, w, id, now + DAY, n - 1);
    }
  }

  /** So a job that a worker blocked on four days is given up at its first failure, for
      good, although it was never tried again after a failure. */
  lemma BlockingExhausts(w: Worker, kind: string, resource: string, payload: string, q: Queue)
    requires kind != "" && resource != ""
    requires q == Run(Queue(0, map[]), [EnqueueOp(kind, resource, None, Some(payload), 0)]
                      + BlockedDays(w, 0, 0, MAX_ATTEMPTS - 1))
    ensures var now := (MAX_ATTEMPTS - 1) * DAY;
            Claim(q, w, now).1 == Claimed(0) && Fail(Claim(q, w, now).0, w, 0, now).1 == GaveUp
  {
    var days := BlockedDays(w, 0, 0, MAX_ATTEMPTS - 1);
    var enqueue := EnqueueOp(kind, resource, None, Some(payload), 0);
    var q0 := Exec(Queue(0, map[]), enqueue).0;
    assert ([enqueue] + days)[1..] == days;
    assert q0.jobs.Keys == {0};
    DaysBlocked(q0, w, 0, 0, MAX_ATTEMPTS - 1);
    AloneIsClaimed(q, w, 0, (MAX_ATTEMPTS - 1) * DAY);
  }

  ghost function PutBacksOf(q: Queue, ops: seq<Op>, id: Id): nat
    decreases |ops|
  {
    if ops == [] then 0
    else (if ops[0].FailOp? && ops[0].id == id && Exec(q, ops[0]).1 == PutBack then 1 else 0)
         + PutBacksOf(Exec(q, ops[0]).0, ops[1..], id)
  }

  /** `putBacks` failures have put the job back so far, each on an attempt of its own. */
  ghost predicate WithinBudget(q: Queue, id: Id, putBacks: nat) {
    if id in q.jobs then
      var job := q.jobs[id];
      && 1 <= job.maxAttempts && putBacks <= job.maxAttempts - 1
      && putBacks <= job.attempts && (job.status == Running ==> putBacks + 1 <= job.attempts)
    else putBacks == 0
  }

  lemma StepWithinBudget(q: Queue, op: Op, id: Id, putBacks: nat)
    requires IdsBelow(q) && WithinBudget(q, id, putBacks)
    ensures WithinBudget(Exec(q, op).0, id,
                         putBacks + (if op.FailOp? && op.id == id && Exec(q, op).1 == PutBack then 1 else 0))
  {
  }

  lemma {:induction false} RunWithinBudget(q: Queue, ops: seq<Op>, id: Id, putBacks: nat)
    requires Inv(q) && WithinBudget(q, id, putBacks)
    ensures WithinBudget(Run(q, ops), id, putBacks + PutBacksOf(q, ops, id))
    decreases |ops|
  {
    if ops != [] {
      StepWithinBudget(q, ops[0], id, putBacks);
      ExecKeepsInv(q, ops[0]);
      RunWithinBudget(Exec(q, ops[0]).0, ops[1..], id,
                      putBacks + (if ops[0].FailOp? && ops[0].id == id && Exec(q, ops[0]).1 == PutBack then 1 else 0));
    }
  }

  /** In every run a job is put back by Fail at most max_attempts - 1 times. */
  lemma PutBacksBounded(ops: seq<Op>, id: Id)
    requires id in Run(Queue(0, map[]), ops).jobs
    ensures PutBacksOf(Queue(0, map[]), ops, id) <= Run(Queue(0, map[]), ops).jobs[id].maxAttempts - 1
  {
    RunWithinBudget(Queue(0, map[]), ops, id, 0);
  }

  // ---------- waiting ----------

  predicate Wakes(op: Op, id: Id, kind: string) { (op.RenewOp? && op.id == id) || (op.WakeOp? && op.kind == kind) }

  lemma WaitingStepStays(q: Queue, op: Op, id: Id)
    requires Inv(q) && id in q.jobs && q.jobs[id].status == RetryWait
    requires !Wakes(op, id, q.jobs[id].kind) && (op.ClaimOp? ==> op.now < q.jobs[id].runAfter)
    ensures var q' := Exec(q, op).0; id in q'.jobs && q'.jobs[id] == q.jobs[id]
  {
  }

  lemma {:induction false} WaitingStays(q: Queue, ops: seq<Op>, id: Id)
    requires Inv(q) && id in q.jobs && q.jobs[id].status == RetryWait
    requires forall i :: 0 <= i < |ops| ==>
      !Wakes(ops[i], id, q.jobs[id].kind) && (ops[i].ClaimOp? ==> ops[i].now < q.jobs[id].runAfter)
    ensures var q' := Run(q, ops); id in q'.jobs && q'.jobs[id] == q.jobs[id]
    decreases |ops|
  {
    if ops != [] {
      WaitingStepStays(q, ops[0], id);
      ExecKeepsInv(q, ops[0]);
      WaitingStays(Exec(q, ops[0]).0, ops[1..], id);
    }
  }

  /** The job a failure put back keeps its row, and in particular is not claimed, until
      its capped power-of-two backoff has passed or the service wakes it. */
  lemma PutBackWaits(q: Queue, w: Worker, id: Id, now: int, ops: seq<Op>)
    requires Inv(q) && Fail(q, w, id, now).1 == PutBack
    requires var due := now + Backoff(q.jobs[id].attempts) * w.retryBase;
             forall i :: 0 <= i < |ops| ==>
               !Wakes(ops[i], id, q.jobs[id].kind) && (ops[i].ClaimOp? ==> ops[i].now < due)
    ensures var q' := Run(Fail(q, w, id, now).0, ops);
            && id in q'.jobs && q'.jobs[id].status == RetryWait
            && q'.jobs[id].runAfter == now + Backoff(q.jobs[id].attempts) * w.retryBase
            && q'.jobs[id].attempts == q.jobs[id].attempts
  {
    ExecKeepsInv(q, FailOp(w, id, now));
    WaitingStays(Fail(q, w, id, now).0, ops, id);
  }

  lemma {:induction false} PowerGrows(a: nat, b: nat)
    requires a <= b
    ensures Power(a) <= Power(b)
  {
    if a < b { PowerGrows(a, b - 1); }
  }

  /** The delays, in units of the worker's base. */
  lemma BackoffIs(attempts: int)
    ensures attempts <= 1 ==> Backoff(attempts) == 1
    ensures 1 <= attempts <= 9 ==> Backoff(attempts) == [1, 2, 4, 8, 16, 32, 64, 128, 256][attempts - 1]
    ensures attempts > 9 ==> Backoff(attempts) == 300
  {
    assert Power(0) == 1 && Power(1) == 2 && Power(2) == 4 && Power(3) == 8 && Power(4) == 16;
    assert Power(5) == 32 && Power(6) == 64 && Power(7) == 128 && Power(8) == 256;
    if attempts > 9 { BackoffGrows(9, attempts); }
  }

  /** Delays never shrink from one attempt to the next, and stop growing at 300. */
  lemma BackoffGrows(a: int, b: int)
    requires a <= b
    ensures 1 <= Backoff(a) <= Backoff(b) <= 300
    ensures b >= 10 ==> Backoff(b) == 300
    ensures 1 <= a <= 9 ==> Backoff(a) == Power(a - 1)
  {
    PowerGrows(0, if a > 1 then a - 1 else 0);
    PowerGrows(if a > 1 then a - 1 else 0, if b > 1 then b - 1 else 0);
    if b >= 10 { PowerGrows(9, b - 1); }
    if 1 <= a <= 9 { PowerGrows(a - 1, 8); }
    assert Power(8) == 256 && Power(9) == 512;
  }
}
