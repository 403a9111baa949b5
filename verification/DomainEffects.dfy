/** What each operation on domains, their DNS records and the deletion of users answers and
    stores, read off the tables and the arguments alone. */
module DomainEffects {
  import opened Wrappers
  import opened Text
  import opened Schema
  import opened Mappings
  import opened Identity
  import opened DnsSync
  import opened Domains
  import opened Service
  import opened MappingEffects
  import opened AccountEffects

  // ---------- bindings ----------

  function BoundDomains(t: Tables, u: Id): set<Id> {
    set d | d in t.domains && t.domains[d].owner == u && t.domains[d].status != DeletedDomain
  }

  /** The checks of a binding, in their order. */
  function BindChecks(t: Tables, user: Id, req: DomainRequest, otherQuota: bool): Option<Error> {
    if !(user in t.users && t.users[user].status == ActiveUser) then Some(Forbidden)
    else if req.expectedVersion.Some? && req.expectedVersion.value != t.users[user].desired then Some(ConfigConflict)
    else if !(req.mapping in t.mappings && t.mappings[req.mapping].owner == user
              && t.mappings[req.mapping].lifecycle != Deleted && t.mappings[req.mapping].proxyType == Http)
    then Some(HttpMappingRequired)
    else if t.users[user].maxDomains <= |BoundDomains(t, user)| || otherQuota then Some(DomainQuota)
    else if exists d :: d in t.domains && t.domains[d].hostname == req.hostname then Some(DomainReserved)
    else None
  }

  /** A binding starts with its DNS pending, and a row for the record that is wanted but not
      yet at the provider. */
  lemma BindDecides(t: Tables, who: AuthContext, req: DomainRequest, otherQuota: bool, key: Option<string>)
    ensures var (t', r) := CreateDomain(t, who, req, otherQuota, key);
            var k, checks := WriteKey(t, who, CreateDomainAt, key), BindChecks(t, who.user, req, otherQuota);
            if req.textValid && k !in t.records && checks == None then
              && r == Ok(DomainReply(t.nextId + 1))
              && t' == t.(nextId := t.nextId + 4, users := t.users[who.user := Counted(t.users[who.user])],
                          domains := t.domains[t.nextId + 1 :=
                            Domain(who.user, req.mapping, req.hostname, req.mode, PendingDns)],
                          dns := t.dns[t.nextId + 2 :=
                            DnsRow(who.user, Some(t.nextId + 1), ExternalRef("", ""), req.spec, false, false, 0)],
                          records := t.records[k := Record(DomainBody(req), r.value)])
            else (t', r) == Refused(t, req.textValid, k, DomainBody(req), checks)
  {
    assert (set d | d in t.domains && t.domains[d].owner == who.user && t.domains[d].status != DeletedDomain)
           == BoundDomains(t, who.user);
  }

  function UnbindChecks(t: Tables, user: Id, d: Id): Option<Error> {
    if !(d in t.domains && t.domains[d].owner == user && t.domains[d].status != DeletedDomain) then Some(NotFound)
    else if user !in t.users then Some(StorageError)
    else None
  }

  lemma UnbindDecides(t: Tables, who: AuthContext, d: Id, key: Option<string>)
    ensures var (t', r) := DeleteDomain(t, who, d, key);
            var k, checks := WriteKey(t, who, DeleteDomainAt(d), key), UnbindChecks(t, who.user, d);
            if k !in t.records && checks == None then
              && r == Ok(OperationReply(t.nextId + 1))
              && t' == t.(nextId := t.nextId + 2, users := t.users[who.user := Counted(t.users[who.user])],
                          domains := t.domains[d := t.domains[d].(status := DeletingDomain)],
                          records := t.records[k := Record(EmptyBody, r.value)])
            else (t', r) == Refused(t, true, k, EmptyBody, checks)
  {
  }

  /** A transition moves one existing domain; only an operator moves one that is being
      deleted, or marks one. */
  lemma AdvanceDecides(t: Tables, d: Id, status: DomainStatus, operator: bool)
    ensures AdvanceDomain(t, d, status, operator)
            == if d in t.domains && DeletedDomain !in {status, t.domains[d].status}
                  && (operator || DeletingDomain !in {status, t.domains[d].status})
               then t.(domains := t.domains[d := t.domains[d].(status := status)]) else t
  {
  }

  // ---------- synchronisation ----------

  /** The record says what is wanted: equal up to the case of letters. */
  predicate Says(r: Listed, kind: string, content: string, proxied: bool) {
    Lower(r.kind) == Lower(kind) && Lower(r.content) == Lower(content) && r.proxied == proxied
  }

  /** What a domain's record is to say: the specification of its latest row, else the default;
      proxied exactly in the provider's proxy mode. */
  function Sought(t: Tables, d: Id, row: Option<Id>, fallback: DnsSpec): Listed
    requires d in t.domains && (row.Some? ==> row.value in t.dns)
  {
    var spec := if row.Some? then t.dns[row.value].spec else fallback;
    Listed("", spec.kind, spec.content, t.domains[d].mode == CloudflareProxy, spec.ttl)
  }

  /** `row` is the domain's row that was synchronised last, if it has any. */
  ghost predicate IsRow(t: Tables, d: Id, row: Option<Id>) {
    match row
    case None => forall r :: r in t.dns ==> t.dns[r].domain != Some(d)
    case Some(r) =>
      && r in t.dns && t.dns[r].domain == Some(d)
      && forall q :: q in t.dns && t.dns[q].domain == Some(d) && q != r ==> t.dns[q].synced < t.dns[r].synced
  }

  lemma RowIsLatest(t: Tables, d: Id, row: Option<Id>)
    requires IsRow(t, d, row)
    ensures LatestDns(t.dns, d) == row
  {
    if row.Some? { assert IsLatestDns(t.dns, d, row.value); }
  }

  /** No answer of the provider is needed, or one is not to be had. */
  function SyncStops(managed: bool, action: SyncAction, answers: Answers): Option<Decision> {
    if action == CancelSync then Some(Cancelled)
    else if answers.token == TokenMissing then Some(Unresolved)
    else if answers.token == TokenUnreadable then Some(Aborted)
    else if answers.zone == Denied then Some(Unresolved)
    else if answers.zone == Unavailable then Some(Aborted)
    else if answers.zone == Told(None) then Some(Unresolved)
    else if answers.records == Denied then Some(Unresolved)
    else if answers.records == Unavailable then Some(Aborted)
    else if action == Resync && !managed then Some(Unresolved)
    else None
  }

  lemma SyncStopsWhen(t: Tables, d: Id, fallback: DnsSpec, action: SyncAction, answers: Answers, row: Option<Id>)
    requires d in t.domains && IsRow(t, d, row)
    ensures var stop := SyncStops(row.Some? && t.dns[row.value].managed, action, answers);
            && (stop.Some? ==> SyncDecision(t, d, fallback, action, answers) == stop.value)
            && (stop.None? ==>
                  && answers.zone.Told? && answers.zone.value.Some? && answers.records.Told? && action != CancelSync
                  && SyncDecision(t, d, fallback, action, answers)
                     == Choose(answers.zone.value.value, answers.records.value, Sought(t, d, row, fallback), action,
                               answers.upserted))
  {
    RowIsLatest(t, d, row);
  }

  /** Record i is the first that says what is wanted; to resynchronise, with the same time to
      live. */
  ghost predicate FirstSays(records: seq<Listed>, want: Listed, action: SyncAction, i: nat) {
    && i < |records| && Says(records[i], want.kind, want.content, want.proxied)
    && (action == Resync ==> records[i].ttl == want.ttl)
    && forall j :: 0 <= j < i ==>
         !(Says(records[j], want.kind, want.content, want.proxied) && (action == Resync ==> records[j].ttl == want.ttl))
  }

  lemma {:induction false} FirstSaysIsFound(records: seq<Listed>, want: Listed, action: SyncAction, i: nat)
    requires FirstSays(records, want, action, i)
    ensures FirstMatch(records, want, action == Resync) == Some(records[i])
  {
    if i > 0 {
      assert !Matches(records[0], want, action == Resync);
      assert forall j :: 0 <= j < |records[1..]| ==> records[1..][j] == records[j + 1];
      FirstSaysIsFound(records[1..], want, action, i - 1);
    }
  }

  lemma {:induction false} NoneSaysIsNotFound(records: seq<Listed>, want: Listed, action: SyncAction)
    requires forall i: nat :: !FirstSays(records, want, action, i)
    ensures FirstMatch(records, want, action == Resync) == None
  {
    if FirstMatch(records, want, action == Resync).Some? {
      var _ := LeastSays(records, want, action);
    }
  }

  lemma {:induction false} LeastSays(records: seq<Listed>, want: Listed, action: SyncAction) returns (i: nat)
    requires FirstMatch(records, want, action == Resync).Some?
    ensures FirstSays(records, want, action, i)
  {
    if Matches(records[0], want, action == Resync) {
      i := 0;
    } else {
      var j := LeastSays(records[1..], want, action);
      i := j + 1;
      assert forall k :: 0 <= k < |records[1..]| ==> records[1..][k] == records[k + 1];
    }
  }

  function AfterUpsert(zone: string, answer: Told<Listed>, adopted: bool): Decision {
    if answer == Denied then Unresolved
    else if answer == Unavailable || answer.value.id == "" then Aborted
    else Save(zone, answer.value, true, adopted)
  }

  predicate Same(r: Listed, want: Listed) {
    r.kind == want.kind && r.content == want.content && r.proxied == want.proxied && r.ttl == want.ttl
  }

  /** A record that says what is wanted is taken as it is: as one found, or to resynchronise as
      the panel's own; unless it is to be overwritten and differs. */
  lemma ChooseFound(zone: string, records: seq<Listed>, want: Listed, action: SyncAction, answer: Told<Listed>, i: nat)
    requires FirstSays(records, want, action, i) && records[i].id != "" && action != CancelSync
    ensures Choose(zone, records, want, action, answer)
            == if (action == Overwrite || action == Resync) && !Same(records[i], want)
               then AfterUpsert(zone, answer, true)
               else Save(zone, records[i], action == Resync, action != Resync)
  {
    FirstSaysIsFound(records, want, action, i);
  }

  /** Where none does: a check leaves other records alone, an adoption takes the first, and
      everything else writes the wanted one. */
  lemma ChooseUnfound(zone: string, records: seq<Listed>, want: Listed, action: SyncAction, answer: Told<Listed>)
    requires (forall i: nat :: !FirstSays(records, want, action, i)) && action != CancelSync
    ensures Choose(zone, records, want, action, answer)
            == if action == Check && records != [] then Unresolved
               else if action == Adopt && records == [] then Crashed
               else if action == Adopt && records[0].id != "" then Save(zone, records[0], false, true)
               else AfterUpsert(zone, answer, action == Adopt)
  {
    NoneSaysIsNotFound(records, want, action);
  }

  /** A domain that is gone or leaving is left alone; otherwise the decision is carried out. */
  lemma SyncDecides(t: Tables, d: Id, fallback: DnsSpec, action: SyncAction, answers: Answers, reach: nat, now: int)
    ensures var t' := SyncDns(t, d, fallback, action, answers, reach, now);
            if d !in t.domains || t.domains[d].status in {DeletingDomain, DeletedDomain} then t' == t
            else
              var decision := SyncDecision(t, d, fallback, action, answers);
              match decision
              case Cancelled => t' == t.(domains := t.domains[d := t.domains[d].(status := PendingDns)])
              case Unresolved => t' == t.(domains := t.domains[d := t.domains[d].(status := DnsError)])
              case Aborted => t' == t
              case Crashed => t' == t
              case Save(_, _, _, _) => t' == SaveDns(t, d, decision, reach, now)
  {
  }

  /** The domain's own rows are gone, and no other. */
  ghost predicate RowsGone(t: Tables, dns: map<Id, DnsRow>, d: Id) {
    && (forall r :: r in dns <==> r in t.dns && t.dns[r].domain != Some(d))
    && (forall r :: r in dns ==> dns[r] == t.dns[r])
  }

  /** As far as its statements get: the domain's rows go, the new one comes, the domain moves
      on to the router, or to its certificate. */
  lemma SaveStores(t: Tables, d: Id, save: Decision, reach: nat, now: int, gone: map<Id, DnsRow>)
    requires d in t.domains && save.Save? && RowsGone(t, gone, d)
    ensures var t' := SaveDns(t, d, save, reach, now);
            var row := DnsRow(t.domains[d].owner, Some(d), ExternalRef(save.zone, save.record.id),
                              DnsSpec(save.record.kind, save.record.content, save.record.ttl),
                              save.managed, save.adopted, now);
            var next := if t.domains[d].mode == HttpOnly then PendingRouter else PendingCertificate;
            && (reach == 0 ==> t' == t)
            && (reach == 1 ==> t' == t.(dns := gone))
            && (reach == 2 ==> t' == t.(nextId := t.nextId + 1, dns := gone[t.nextId := row]))
            && (reach > 2 ==> t' == t.(nextId := t.nextId + 1, dns := gone[t.nextId := row],
                                       domains := t.domains[d := t.domains[d].(status := next)]))
  {
    var row := SavedRow(t.domains[d], d, save, now);
    ReplaceStores(t, d, row, gone);
    if reach == 0 { assert SaveDns(t, d, save, reach, now) == t; }
    else if reach == 1 { assert SaveDns(t, d, save, reach, now) == ClearDns(t, d); }
    else if reach == 2 { assert SaveDns(t, d, save, reach, now) == ReplaceDnsRow(t, d, row); }
    else {
      MovedOn(t, d, save, reach, now, ReplaceDnsRow(t, d, row));
    }
  }

  lemma ReplaceStores(t: Tables, d: Id, row: DnsRow, gone: map<Id, DnsRow>)
    requires RowsGone(t, gone, d)
    ensures ClearDns(t, d) == t.(dns := gone)
    ensures ReplaceDnsRow(t, d, row) == t.(nextId := t.nextId + 1, dns := gone[t.nextId := row])
  {
    assert ClearDns(t, d).dns == gone;
  }

  lemma MovedOn(t: Tables, d: Id, save: Decision, reach: nat, now: int, t2: Tables)
    requires d in t.domains && save.Save? && reach > 2
    requires t2 == ReplaceDnsRow(t, d, SavedRow(t.domains[d], d, save, now)) && t2.domains == t.domains
    ensures SaveDns(t, d, save, reach, now)
            == t2.(domains := t.domains[d := t.domains[d].(status :=
                                if t.domains[d].mode == HttpOnly then PendingRouter else PendingCertificate)])
  {
  }

  // ---------- removal of a domain ----------

  /** As far as its statements get: the rows of the domain go, the domain goes if it is being
      deleted, and its mapping is finalized. */
  lemma FinalizeDomainStores(t: Tables, d: Id, reach: nat, gone: map<Id, DnsRow>)
    requires RowsGone(t, gone, d)
    ensures var (t', failed) := FinalizeDomain(t, d, reach);
            var t1 := t.(dns := gone);
            var t2 := if d in t.domains && t.domains[d].status == DeletingDomain
                      then t1.(domains := t.domains - {d}) else t1;
            && (failed <==> reach < 3)
            && (reach == 0 ==> t' == t)
            && (reach == 1 ==> t' == t1)
            && (reach == 2 ==> t' == t2)
            && (reach > 2 ==> t' == if d in t.domains then FinalizeMapping(t2, t.domains[d].mapping) else t2)
  {
    assert ClearDns(t, d) == t.(dns := gone);
  }

  /** The provider is asked exactly for a record that the panel manages and can name; the job
      fails where the token cannot be read or the provider fails, and waits where there is no
      token or no permission. */
  lemma CleanUpDecides(t: Tables, d: Id, outcome: ProviderOutcome, reach: nat, row: Option<Id>)
    requires IsRow(t, d, row)
    ensures var asked := row.Some? && t.dns[row.value].managed && t.dns[row.value].external.zone != ""
                         && t.dns[row.value].external.record != "";
            CleanUpDomain(t, d, outcome, reach)
            == if !asked then FinalizeDomain(t, d, reach)
               else match outcome
                 case ProviderRemoved =>
                   FinalizeDomain(t.(removed := t.removed + {t.dns[row.value].external}), d, reach)
                 case NoToken => (t, false)
                 case PermissionDenied => (t, false)
                 case Undecryptable => (t, true)
                 case ProviderFailed => (t, true)
  {
    RowIsLatest(t, d, row);
  }

  // ---------- deletion of a user ----------

  /** The user's sessions end, and its generation and desired version move on; and everything
      it owns is marked. */
  lemma DoomedStores(t: Tables, user: Id, force: bool)
    requires user in t.users
    ensures var t', row := Doomed(t, user, force), t.users[user];
            && Revokes(t, t', SessionsOf(t, user), RuntimesOf(t, user))
            && t' == t.(nextId := t.nextId + 2,
                        users := t.users[user := row.(status := DeletingUser, generation := row.generation + 1,
                                                      desired := row.desired + 1)],
                        sessions := t'.sessions, runtimes := t'.runtimes, domains := t'.domains,
                        mappings := t'.mappings,
                        deletions := t.deletions[user := Deletion(t.nextId + 1, force)])
  {
  }

  lemma DoomedMarks(t: Tables, user: Id, force: bool)
    requires user in t.users
    ensures var t' := Doomed(t, user, force);
            && t'.domains.Keys == t.domains.Keys && t'.mappings.Keys == t.mappings.Keys
            && (forall d :: d in t.domains ==>
                  if t.domains[d].owner == user && t.domains[d].status != DeletedDomain
                  then Marked(t.domains[d], t'.domains[d]) else t'.domains[d] == t.domains[d])
            && (forall m :: m in t.mappings ==>
                  if t.mappings[m].owner == user && t.mappings[m].lifecycle != Deleted
                  then t'.mappings[m] == t.mappings[m].(lifecycle := Deleting, enabled := false)
                  else t'.mappings[m] == t.mappings[m])
  {
  }

  function DeleteUserChecks(t: Tables, who: AuthContext, user: Id): Option<Error> {
    if !(user in t.users && !t.users[user].admin && t.users[user].status != DeletedUser) then Some(NotFound)
    else if who.user !in t.users then Some(StorageError)
    else if t.users[user].status == DeletingUser && user !in t.deletions then Some(NotFound)
    else None
  }

  /** The first request marks; a further one only escalates, and answers with the first. */
  lemma DeleteUserDecides(t: Tables, who: AuthContext, user: Id, force: bool, key: Option<string>)
    requires who.admin
    ensures var (t', r) := DeleteUser(t, who, user, force, key);
            var k, checks := WriteKey(t, who, DeleteUserAt(user), key), DeleteUserChecks(t, who, user);
            if k in t.records || checks != None then (t', r) == Refused(t, true, k, ForceBody(force), checks)
            else if t.users[user].status == DeletingUser then
              && r == Ok(OperationReply(t.deletions[user].operation))
              && t' == t.(nextId := t.nextId + 1,
                          deletions := t.deletions[user := Deletion(t.deletions[user].operation,
                                                                    t.deletions[user].forced || force)],
                          records := t.records[k := Record(ForceBody(force), r.value)])
            else
              && r == Ok(OperationReply(t.nextId + 1))
              && t' == Doomed(t, user, force).(records := t.records[k := Record(ForceBody(force), r.value)])
  {
  }

  lemma DeleteUserForbidden(t: Tables, who: AuthContext, user: Id, force: bool, key: Option<string>)
    requires !who.admin
    ensures DeleteUser(t, who, user, force, key) == (t, Err(Forbidden))
  {
  }

  /** One turn of the loop: a domain that is still there, or whose cleanup failed, stops the
      job; unless it is forced, and a residue with the name of its record can be stored: then
      the domain is finalized all the same. */
  lemma TurnDecides(t: Tables, operation: Id, force: bool, plan: DomainPlan, t1: Tables, failed: bool, row: Option<Id>,
                    name: Option<ExternalRef>)
    requires (t1, failed) == CleanUpDomain(t, plan.domain, plan.outcome, plan.reach) && IsRow(t1, plan.domain, row)
    requires name == if row == None || t1.dns[row.value].external == ExternalRef("", "") then None
                     else Some(t1.dns[row.value].external)
    ensures DeleteDomainOfUser(t, operation, force, plan)
            == if !failed && plan.domain !in t1.domains then (t1, false)
               else if force && plan.residueStored then
                 FinalizeDomain(t1.(nextId := t1.nextId + 1,
                                    residues := t1.residues[t1.nextId := Residue(operation, plan.domain, name)]),
                                plan.domain, plan.forcedReach)
               else (t1, true)
  {
    RowIsLatest(t1, plan.domain, row);
    NameIs(t1, plan.domain, row);
    TurnIs(t, operation, force, plan, t1, failed);
  }

  lemma TurnIs(t: Tables, operation: Id, force: bool, plan: DomainPlan, t1: Tables, failed: bool)
    requires (t1, failed) == CleanUpDomain(t, plan.domain, plan.outcome, plan.reach)
    ensures DeleteDomainOfUser(t, operation, force, plan)
            == if !failed && plan.domain !in t1.domains then (t1, false)
               else if force && plan.residueStored then
                 FinalizeDomain(AddResidue(t1, Residue(operation, plan.domain, ResidueName(t1, plan.domain))),
                                plan.domain, plan.forcedReach)
               else (t1, true)
  {
  }

  lemma NameIs(t: Tables, d: Id, row: Option<Id>)
    requires LatestDns(t.dns, d) == row && (row.Some? ==> row.value in t.dns)
    ensures ResidueName(t, d)
            == if row == None || t.dns[row.value].external == ExternalRef("", "") then None
               else Some(t.dns[row.value].external)
  {
  }

  /** The loop goes on to the next domain iff the turn did not stop it. */
  lemma LoopDecides(t: Tables, operation: Id, force: bool, work: seq<DomainPlan>)
    ensures work == [] ==> DeleteDomainsOfUser(t, operation, force, work) == (t, false)
    ensures work != [] ==>
      var (t1, stopped) := DeleteDomainOfUser(t, operation, force, work[0]);
      DeleteDomainsOfUser(t, operation, force, work)
      == if stopped then (t1, true) else DeleteDomainsOfUser(t1, operation, force, work[1..])
  {
  }

  predicate Unowned(t: Tables, user: Id) {
    && (forall m :: m in t.mappings ==> t.mappings[m].owner != user)
    && (forall d :: d in t.domains ==> t.domains[d].owner != user)
  }

  /** The job for a user that is being deleted: the user goes iff the loop got through, all
      listed mappings were finalized, nothing is owned any more, and the last transaction is
      committed. */
  lemma DeleteUserJobDecides(t: Tables, user: Id, operation: Id, force: bool, work: seq<DomainPlan>, rest: Finale,
                             t1: Tables, stopped: bool)
    requires user in t.users && !t.users[user].admin && t.users[user].status == DeletingUser
             && ListsDomains(t, user, work)
    requires (t1, stopped) == DeleteDomainsOfUser(t, operation, force, work) && ListsMappings(t1, user, rest.mappings)
    ensures DeleteUserExternal(t, user, operation, force, work, rest)
            == if stopped then (t1, Err(CleanupFailed))
               else if rest.finalized < |rest.mappings|
               then (FinalizeMappings(t1, rest.mappings[..rest.finalized]), Err(CleanupFailed))
               else
                 var t2 := FinalizeMappings(t1, rest.mappings);
                 if !Unowned(t2, user) then (t2, Err(Waiting))
                 else if !rest.committed then (t2, Err(StorageError))
                 else (RemoveUser(t2, user), Ok(()))
  {
    assert forall t2 :: OwnsNothing(t2, user) <==> Unowned(t2, user);
  }

  lemma DeleteUserJobIdle(t: Tables, user: Id, operation: Id, force: bool, work: seq<DomainPlan>, rest: Finale)
    ensures user !in t.users || t.users[user].admin ==>
      DeleteUserExternal(t, user, operation, force, work, rest) == (t, Ok(()))
    ensures user in t.users && !t.users[user].admin && t.users[user].status != DeletingUser ==>
      DeleteUserExternal(t, user, operation, force, work, rest) == (t, Err(CleanupFailed))
  {
  }

  /** What the two queries of the job select. */
  lemma ListedAre(t: Tables, user: Id, work: seq<DomainPlan>, mappings: seq<Id>)
    ensures ListsDomains(t, user, work) ==>
      forall d :: (exists i :: 0 <= i < |work| && work[i].domain == d)
                  <==> d in t.domains && t.domains[d].owner == user && t.domains[d].status == DeletingDomain
    ensures ListsMappings(t, user, mappings) ==>
      forall m :: m in mappings
                  <==> m in t.mappings && t.mappings[m].owner == user && t.mappings[m].lifecycle == Deleting
                       && forall d :: BoundTo(t, d, m) ==> t.domains[d].status == DeletedDomain
  {
    if ListsDomains(t, user, work) {
      forall d ensures AwaitsRemoval(t, user, d) <==>
                       d in t.domains && t.domains[d].owner == user && t.domains[d].status == DeletingDomain {}
      forall d ensures AwaitsRemoval(t, user, d) <==> exists i :: 0 <= i < |work| && work[i].domain == d {}
    }
    if ListsMappings(t, user, mappings) {
      forall m ensures BlockedByDomain(t, m) <==> exists d :: BoundTo(t, d, m) && t.domains[d].status != DeletedDomain {
        if d :| BoundTo(t, d, m) && t.domains[d].status != DeletedDomain { assert BlockedByDomain(t, m); }
      }
      forall m ensures AwaitsDrop(t, user, m) <==> m in mappings {}
    }
  }

  /** The rows of the user, and those that hang on the user's mappings, are gone; every other
      row is as it was. */
  lemma RemoveUserStores(t: Tables, user: Id)
    ensures var t' := RemoveUser(t, user);
            && t'.users == t.users - {user} && t'.credentials == t.credentials - {user}
            && (forall s :: s in t'.sessions <==> s in t.sessions && t.sessions[s].user != user)
            && (forall s :: s in t'.sessions ==> t'.sessions[s] == t.sessions[s])
            && (forall r :: r in t'.runtimes <==> r in t.runtimes && t.runtimes[r].user != user)
            && (forall r :: r in t'.runtimes ==> t'.runtimes[r] == t.runtimes[r])
            && (forall m :: m in t'.mappings <==> m in t.mappings && t.mappings[m].owner != user)
            && (forall m :: m in t'.mappings ==> t'.mappings[m] == t.mappings[m])
            && (forall r :: r in t'.revisions <==> r in t.revisions && !Of(t, t.revisions[r].mapping, user))
            && (forall r :: r in t'.revisions ==> t'.revisions[r] == t.revisions[r])
            && (forall l :: l in t'.leases <==> l in t.leases && !Of(t, t.leases[l].mapping, user))
            && (forall l :: l in t'.leases ==> t'.leases[l] == t.leases[l])
  {
  }

  lemma RemoveUserStoresToo(t: Tables, user: Id)
    ensures var t' := RemoveUser(t, user);
            && (forall d :: d in t'.domains <==> d in t.domains && t.domains[d].owner != user)
            && (forall d :: d in t'.domains ==> t'.domains[d] == t.domains[d])
            && (forall r :: r in t'.dns <==> r in t.dns && t.dns[r].owner != user)
            && (forall r :: r in t'.dns ==> t'.dns[r] == t.dns[r])
            && (forall k :: k in t'.records <==> k in t.records && k.user != user)
            && (forall k :: k in t'.records ==> t'.records[k] == t.records[k])
            && (forall k :: k in t'.snapshots <==> k in t.snapshots && k.0 != user)
            && (forall k :: k in t'.snapshots ==> t'.snapshots[k] == t.snapshots[k])
            && t'.nextId == t.nextId && t'.residues == t.residues && t'.removed == t.removed
            && t'.deletions == t.deletions
  {
  }

  // ---------- the signed configuration ----------

  lemma SnapshotStores(t: Tables, who: AuthContext, hash: int)
    ensures TakeSnapshot(t, who, hash)
            == if who.user in t.users
               then (t.(snapshots := t.snapshots[(who.user, t.users[who.user].desired) := hash]), Ok(()))
               else (t, Err(NotFound))
  {
  }
}
