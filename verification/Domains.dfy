/** Domain bindings, their DNS records, and the compensating deletion of a user
    (server/internal/service/service.go and cloudflare_jobs.go). */
module Domains {
  import opened Wrappers
  import opened Schema
  import opened Mappings
  import opened Identity
  import opened DnsSync

  // ---------- domain bindings ----------

  /** `otherQuota` is the verdict of the quota checks on the operations and
      certificates tables. */
  function CreateDomainRefusal(t: Tables, user: Id, req: DomainRequest, otherQuota: bool): Option<Error> {
    if user !in t.users || t.users[user].status != ActiveUser then Some(Forbidden)
    else if !VersionAgrees(req.expectedVersion, t.users[user].desired) then Some(ConfigConflict)
    else if !OwnsMapping(t, user, req.mapping) || t.mappings[req.mapping].proxyType != Http
        then Some(HttpMappingRequired)
    else if |set d | d in t.domains && t.domains[d].owner == user && t.domains[d].status != DeletedDomain|
            >= t.users[user].maxDomains || otherQuota
    then Some(DomainQuota)
    else if exists d | d in t.domains :: t.domains[d].hostname == req.hostname then Some(DomainReserved)
    else None
  }

  /** Row ids in the order they are drawn: key, domain, DNS record, operation. The
      record is an intent: the provider has nothing yet. */
  function CreateDomain(t: Tables, who: AuthContext, req: DomainRequest, otherQuota: bool, key: Option<string>)
    : (Tables, Result<Reply>)
  {
    var k := RecordKey(who.user, who.generation, CreateDomainAt, KeyOf(key, t.nextId));
    if !req.textValid then (t, Err(InvalidRequest))
    else if k in t.records then (t, Replay(t.records[k], DomainBody(req)))
    else
      match CreateDomainRefusal(t, who.user, req, otherQuota)
      case Some(e) => (t, Err(e))
      case None =>
        var d := t.nextId + 1;
        (t.(nextId := t.nextId + 4,
            users := BumpDesired(t.users, who.user),
            domains := t.domains[d := Domain(who.user, req.mapping, req.hostname, req.mode, PendingDns)],
            dns := t.dns[d + 1 := DnsRow(who.user, Some(d), ExternalRef("", ""), req.spec, false, false, 0)],
            records := t.records[k := Record(DomainBody(req), DomainReply(d))]),
         Ok(DomainReply(d)))
  }

  /** Row ids in the order they are drawn: key, operation. */
  function DeleteDomain(t: Tables, who: AuthContext, d: Id, key: Option<string>): (Tables, Result<Reply>) {
    var k := RecordKey(who.user, who.generation, DeleteDomainAt(d), KeyOf(key, t.nextId));
    if k in t.records then (t, Replay(t.records[k], EmptyBody))
    else if d !in t.domains || t.domains[d].owner != who.user || t.domains[d].status == DeletedDomain
    then (t, Err(NotFound))
    else if who.user !in t.users then (t, Err(StorageError))
    else
      (t.(nextId := t.nextId + 2,
          users := BumpDesired(t.users, who.user),
          domains := t.domains[d := t.domains[d].(status := DeletingDomain)],
          records := t.records[k := Record(EmptyBody, OperationReply(t.nextId + 1))]),
       Ok(OperationReply(t.nextId + 1)))
  }

  predicate Leaving(s: DomainStatus) { s == DeletingDomain || s == DeletedDomain }

  function SetDomainStatus(t: Tables, d: Id, status: DomainStatus): Tables
    requires d in t.domains
  {
    t.(domains := t.domains[d := t.domains[d].(status := status)])
  }

  /** Certificate, router and DNS-failure transitions of a domain that is not being
      deleted; and an operator's DNS action or retry, which moves any domain, even one that
      is being deleted. */
  function AdvanceDomain(t: Tables, d: Id, status: DomainStatus, operator: bool): Tables {
    if d !in t.domains || status == DeletedDomain || t.domains[d].status == DeletedDomain then t
    else if !operator && (Leaving(status) || Leaving(t.domains[d].status)) then t
    else SetDomainStatus(t, d, status)
  }

  // ---------- the DNS rows of one domain ----------

  ghost predicate IsLatestDns(dns: map<Id, DnsRow>, d: Id, r: Id) {
    && r in dns && dns[r].domain == Some(d)
    && forall q :: q in dns && dns[q].domain == Some(d) ==> dns[q].synced <= dns[r].synced
  }

  /** The row of the domain that was synchronised last. */
  ghost function LatestDns(dns: map<Id, DnsRow>, d: Id): Option<Id> {
    if r :| IsLatestDns(dns, d, r) then Some(r) else None
  }

  ghost function LatestRow(dns: map<Id, DnsRow>, d: Id): Option<DnsRow> {
    match LatestDns(dns, d)
    case None => None
    case Some(r) => Some(dns[r])
  }

  predicate PanelManaged(row: DnsRow) {
    row.managed && row.external.zone != "" && row.external.record != ""
  }

  function ClearDns(t: Tables, d: Id): Tables {
    t.(dns := map r | r in t.dns && t.dns[r].domain != Some(d) :: t.dns[r])
  }

  function DropDomain(t: Tables, d: Id): Tables {
    if d in t.domains && t.domains[d].status == DeletingDomain then t.(domains := t.domains - {d}) else t
  }

  // ---------- synchronisation of the DNS record of a domain ----------

  function NextStatus(mode: HttpsMode): DomainStatus { if mode == HttpOnly then PendingRouter else PendingCertificate }

  function SavedRow(domain: Domain, d: Id, save: Decision, now: int): DnsRow
    requires save.Save?
  {
    DnsRow(domain.owner, Some(d), ExternalRef(save.zone, save.record.id),
           DnsSpec(save.record.kind, save.record.content, save.record.ttl), save.managed, save.adopted, now)
  }

  function AddDnsRow(t: Tables, row: DnsRow): Tables {
    t.(nextId := t.nextId + 1, dns := t.dns[t.nextId := row])
  }

  function ReplaceDnsRow(t: Tables, d: Id, row: DnsRow): Tables { AddDnsRow(ClearDns(t, d), row) }

  /** Separate statements, not a transaction: the old rows are deleted, the new one is
      inserted, the domain moves on. `reach` of them succeed (three or more: all). */
  function SaveDns(t: Tables, d: Id, save: Decision, reach: nat, now: int): Tables
    requires d in t.domains && save.Save?
  {
    var row := SavedRow(t.domains[d], d, save, now);
    if reach == 0 then t
    else if reach == 1 then ClearDns(t, d)
    else if reach == 2 then ReplaceDnsRow(t, d, row)
    else SetDomainStatus(ReplaceDnsRow(t, d, row), d, NextStatus(t.domains[d].mode))
  }

  ghost function SyncDecision(t: Tables, d: Id, fallback: DnsSpec, action: SyncAction, answers: Answers): Decision
    requires d in t.domains
  {
    Decide(LatestRow(t.dns, d), t.domains[d].mode, fallback, action, answers)
  }

  function Synced(t: Tables, d: Id, decision: Decision, reach: nat, now: int): Tables
    requires d in t.domains
  {
    match decision
    case Cancelled => SetDomainStatus(t, d, PendingDns)
    case Unresolved => SetDomainStatus(t, d, DnsError)
    case Aborted => t
    case Crashed => t
    case Save(_, _, _, _) => SaveDns(t, d, decision, reach, now)
  }

  /** The domain_dns_sync job. A domain that is gone or being deleted is left alone. */
  ghost function SyncDns(t: Tables, d: Id, fallback: DnsSpec, action: SyncAction, answers: Answers, reach: nat,
                         now: int)
    : Tables
  {
    if d !in t.domains || Leaving(t.domains[d].status) then t
    else Synced(t, d, SyncDecision(t, d, fallback, action, answers), reach, now)
  }

  // ---------- external cleanup of one domain ----------

  datatype ProviderOutcome = NoToken | Undecryptable | PermissionDenied | ProviderFailed | ProviderRemoved

  /** finalizeDeletedDomain is a sequence of separate statements; `reach` of them
      succeed (three or more: all). The second part of the result says whether one
      failed. */
  function FinalizeDomain(t: Tables, d: Id, reach: nat): (Tables, bool) {
    if reach == 0 then (t, true)
    else if reach == 1 then (ClearDns(t, d), true)
    else
      var t2 := DropDomain(ClearDns(t, d), d);
      if reach == 2 then (t2, true)
      else (if d in t.domains then FinalizeMapping(t2, t.domains[d].mapping) else t2, false)
  }

  /** The domain_delete job. A missing token or a refused permission is reported on
      the operation and is not an error of the job. */
  ghost function CleanUpDomain(t: Tables, d: Id, outcome: ProviderOutcome, reach: nat): (Tables, bool) {
    match LatestDns(t.dns, d)
    case None => FinalizeDomain(t, d, reach)
    case Some(r) =>
      if !PanelManaged(t.dns[r]) then FinalizeDomain(t, d, reach)
      else match outcome
        case NoToken => (t, false)
        case PermissionDenied => (t, false)
        case Undecryptable => (t, true)
        case ProviderFailed => (t, true)
        case ProviderRemoved => FinalizeDomain(t.(removed := t.removed + {t.dns[r].external}), d, reach)
  }

  // ---------- deletion of a user ----------

  /** The user and everything it owns is marked; its sessions end at once. */
  function Doomed(t: Tables, user: Id, force: bool): Tables
    requires user in t.users
  {
    var u := t.users[user];
    t.(nextId := t.nextId + 2,
       users := t.users[user := u.(status := DeletingUser, generation := u.generation + 1, desired := u.desired + 1)],
       sessions := RevokeSessions(t.sessions, user, false),
       runtimes := RevokeRuntimes(t.runtimes, user),
       domains := map d | d in t.domains ::
         if t.domains[d].owner == user && t.domains[d].status != DeletedDomain
         then t.domains[d].(status := DeletingDomain) else t.domains[d],
       mappings := map m | m in t.mappings ::
         if t.mappings[m].owner == user && t.mappings[m].lifecycle != Deleted
         then t.mappings[m].(lifecycle := Deleting, enabled := false) else t.mappings[m],
       deletions := t.deletions[user := Deletion(t.nextId + 1, force)])
  }

  /** Row ids in the order they are drawn: key, operation. */
  function DeleteUser(t: Tables, who: AuthContext, user: Id, force: bool, key: Option<string>)
    : (Tables, Result<Reply>)
  {
    var k := RecordKey(who.user, who.generation, DeleteUserAt(user), KeyOf(key, t.nextId));
    if !who.admin then (t, Err(Forbidden))
    else if k in t.records then (t, Replay(t.records[k], ForceBody(force)))
    else if user !in t.users || t.users[user].admin || t.users[user].status == DeletedUser then (t, Err(NotFound))
    else if who.user !in t.users then (t, Err(StorageError))
    else if t.users[user].status == DeletingUser then
      if user !in t.deletions then (t, Err(NotFound))
      else
        var open := t.deletions[user];
        var reply := OperationReply(open.operation);
        (t.(nextId := t.nextId + 1,
            deletions := t.deletions[user := open.(forced := open.forced || force)],
            records := t.records[k := Record(ForceBody(force), reply)]),
         Ok(reply))
    else
      var reply := OperationReply(t.nextId + 1);
      (Doomed(t, user, force).(records := t.records[k := Record(ForceBody(force), reply)]), Ok(reply))
  }

  /** What the environment does to the cleanup of one domain: the provider's answer,
      how far finalizing gets, and, when forced, whether the residue row is stored and
      how far the second finalizing gets. */
  datatype DomainPlan = DomainPlan(domain: Id, outcome: ProviderOutcome, reach: nat, residueStored: bool,
                                   forcedReach: nat)

  ghost function ResidueName(t: Tables, d: Id): Option<ExternalRef> {
    match LatestDns(t.dns, d)
    case None => None
    case Some(r) =>
      if t.dns[r].external.zone == "" && t.dns[r].external.record == "" then None else Some(t.dns[r].external)
  }

  function AddResidue(t: Tables, residue: Residue): Tables {
    t.(nextId := t.nextId + 1, residues := t.residues[t.nextId := residue])
  }

  /** One turn of the job's loop; the second part of the result says whether the job
      stops here with an error. */
  ghost function DeleteDomainOfUser(t: Tables, operation: Id, force: bool, plan: DomainPlan): (Tables, bool) {
    var (t1, failed) := CleanUpDomain(t, plan.domain, plan.outcome, plan.reach);
    if !failed && plan.domain !in t1.domains then (t1, false)
    else if !force || !plan.residueStored then (t1, true)
    else
      var t2 := AddResidue(t1, Residue(operation, plan.domain, ResidueName(t1, plan.domain)));
      FinalizeDomain(t2, plan.domain, plan.forcedReach)
  }

  ghost function DeleteDomainsOfUser(t: Tables, operation: Id, force: bool, work: seq<DomainPlan>): (Tables, bool)
    decreases |work|
  {
    if work == [] then (t, false)
    else
      var (t1, stopped) := DeleteDomainOfUser(t, operation, force, work[0]);
      if stopped then (t1, true) else DeleteDomainsOfUser(t1, operation, force, work[1..])
  }

  /** What is left of the job after its loop: the second listing, and how far it gets. */
  datatype Finale = Finale(mappings: seq<Id>, finalized: nat, committed: bool)

  function Reached(rest: Finale): seq<Id> {
    if rest.finalized < |rest.mappings| then rest.mappings[..rest.finalized] else rest.mappings
  }

  function FinalizeMappings(t: Tables, work: seq<Id>): Tables
    decreases |work|
  {
    if work == [] then t else FinalizeMappings(FinalizeMapping(t, work[0]), work[1..])
  }

  /** Deleting the user row cascades to everything the user owns. */
  function RemoveUser(t: Tables, user: Id): Tables {
    t.(users := t.users - {user},
       sessions := map s | s in t.sessions && t.sessions[s].user != user :: t.sessions[s],
       credentials := t.credentials - {user},
       runtimes := map r | r in t.runtimes && t.runtimes[r].user != user :: t.runtimes[r],
       mappings := map m | m in t.mappings && t.mappings[m].owner != user :: t.mappings[m],
       revisions := map r | r in t.revisions && !BelongsTo(t.mappings, t.revisions[r].mapping, user) :: t.revisions[r],
       leases := map l | l in t.leases && !BelongsTo(t.mappings, t.leases[l].mapping, user) :: t.leases[l],
       domains := map d | d in t.domains && t.domains[d].owner != user :: t.domains[d],
       dns := map r | r in t.dns && t.dns[r].owner != user :: t.dns[r],
       records := map k | k in t.records && k.user != user :: t.records[k],
       snapshots := map k | k in t.snapshots && k.0 != user :: t.snapshots[k])
  }

  predicate OwnsNothing(t: Tables, user: Id) {
    && (forall m | m in t.mappings :: t.mappings[m].owner != user)
    && (forall d | d in t.domains :: t.domains[d].owner != user)
  }

  predicate AwaitsRemoval(t: Tables, user: Id, d: Id) {
    d in t.domains && t.domains[d].owner == user && t.domains[d].status == DeletingDomain
  }

  predicate AwaitsDrop(t: Tables, user: Id, m: Id) {
    m in t.mappings && t.mappings[m].owner == user && t.mappings[m].lifecycle == Deleting && !BlockedByDomain(t, m)
  }

  /** `work` is an answer of the query for the user's deleting domains. */
  ghost predicate ListsDomains(t: Tables, user: Id, work: seq<DomainPlan>) {
    && (forall i, j :: 0 <= i < j < |work| ==> work[i].domain != work[j].domain)
    && (forall d :: AwaitsRemoval(t, user, d) <==> exists i :: 0 <= i < |work| && work[i].domain == d)
  }

  /** `work` is an answer of the query for the user's deleting mappings without domains. */
  ghost predicate ListsMappings(t: Tables, user: Id, work: seq<Id>) {
    && (forall i, j :: 0 <= i < j < |work| ==> work[i] != work[j])
    && (forall m :: AwaitsDrop(t, user, m) <==> m in work)
  }

  /** The user_delete job. `work` and `mappings` are the answers of its two queries, in
      any order; lists that are not stand for no run of the job. `finalized` is how many
      of the mappings are finalized before a statement fails (all, if it is at least their
      number), and `committed` whether the last transaction is. */
  ghost function DeleteUserExternal(t: Tables, user: Id, operation: Id, force: bool, work: seq<DomainPlan>,
                                    rest: Finale)
    : (Tables, Result<()>)
  {
    if user !in t.users || t.users[user].admin then (t, Ok(()))
    else if t.users[user].status != DeletingUser || !ListsDomains(t, user, work) then (t, Err(CleanupFailed))
    else
      var (t1, stopped) := DeleteDomainsOfUser(t, operation, force, work);
      if stopped || !ListsMappings(t1, user, rest.mappings) then (t1, Err(CleanupFailed))
      else
        var t2 := FinalizeMappings(t1, Reached(rest));
        if rest.finalized < |rest.mappings| then (t2, Err(CleanupFailed))
        else if !OwnsNothing(t2, user) then (t2, Err(Waiting))
        else if !rest.committed then (t2, Err(StorageError))
        else (RemoveUser(t2, user), Ok(()))
  }
}
