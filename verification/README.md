# FRP panel platform: a verified model

The platform hands out TCP, UDP and HTTP tunnels. A control server keeps users, sessions,
mappings with immutable revisions, leases on public ports, domain bindings and DNS records
in one database; a client on each user's machine applies the signed configuration to an FRPC
process; a router serves domains from signed snapshots. This project models the parts whose
correctness spans operations, and proves what holds of them over every run.

How the files fit together:

- `Wrappers`, `Text`, `Sets`: optional values, string functions on ASCII text, sizes of sets.
- `Schema`, `Mappings`, `Identity`, `DnsSync`, `Domains`, `Service`: the tables, what each service method
  and each job does to them, and the service as a state machine (`Service.Exec`, `Service.Run`,
  `Service.Reachable`) over any interleaving of callers, jobs and provider answers.
- `MappingEffects`, `AccountEffects`, `DomainEffects`: for each of these operations and jobs, exactly
  when it is accepted, what it answers otherwise, and which fields of which rows it sets, read off the
  tables and the arguments alone.
- `MappingInvariants`, `Invariants`, `DomainInvariants`, `Decay`, `Growth`: the invariants, and
  that every step keeps them.
- `Admission`, `Quotas`, `MappingSafety`, `Leasing`, `ApplyRefinement`, `AppliedVersions`, `Rollback`,
  `ConfigAgreement`, `Sessions`, `Idempotency`, `Compensation`, `ClaimedRecords`, `ForcedDeletion`: the
  theorems about the service.
- `Witnesses`, `ExceededQuota`, `SharedPort`, `OmittedHost`, `ForgottenRecord`: concrete states and runs
  in which the service does not meet a property, next to the general lemmas behind them.
- `Panel`: the service in its own form, methods that update the tables in place, statement by
  statement inside a transaction, each proved to do what its specification does and to keep all
  invariants.
- `JobQueue`, `Supervisor`, `Router`, `RateLimiter`, `Zones`: the durable job queue, the client's
  process supervisor, router snapshots, the request limiter and the choice of a DNS zone, each
  with its classes and loops and the runs over them.

Where the code does not meet a property, the model keeps the code as it is, and the exact
condition is proved instead:

- An update that asks again for the port of the mapping's own pending lease deletes that lease
  and does not insert it again (`Leasing.StepKeepsLeasedIff`, `Leasing.LeasedThroughoutIff`). The
  port is then free, and two mappings can use it (`SharedPort.RerequestSharesPort`,
  `SharedPort.SharedPortExample`).
- The quota on ports leased for what is pending does not hold. A create for an HTTP mapping skips it,
  and with it the port range and the port that FRPS listens on, but leases the port it asks for; an
  update of a running mapping makes its active lease count as well; enabling a running mapping again
  does so too, and exceeds the quota on waiting mappings (`Quotas.StepJudged`,
  `Quotas.PortsThroughoutIff`, `Quotas.AwaitingThroughoutIff`, `ExceededQuota.HttpPortExample`,
  `ExceededQuota.MoveExample`, `ExceededQuota.EnableExample`). The quota on mappings does hold
  (`Quotas.MappingsAlwaysWithin`). An update may also move a TCP or UDP mapping to the port that FRPS
  listens on, which a create may not (`ExceededQuota.MoveExample`).
- A forced deletion of a user does not complete, although none of the panel's own statements fails,
  once one of the user's domains or mappings is not being deleted any more: an operator's DNS action
  or retry moves a deleting domain back, and a second request marks nothing
  (`ForcedDeletion.ForceCompletesIff`, `ForcedDeletion.OperatorUnmarks`,
  `ForcedDeletion.SecondRequestMarksNothing`, `ForcedDeletion.StuckExample`).
- A DNS record that the panel created is forgotten when a synchronisation with the action check,
  adopt or overwrite finds it unchanged: the record is stored again as not managed. The service
  queues such a check by itself for every domain that waits for the router. A later deletion of the
  domain neither calls the provider nor leaves a residue (`Compensation.RecheckForgets`,
  `ForgottenRecord.RecheckLoses`, `ForgottenRecord.RecordLost`). A resynchronisation forgets it only
  between its two statements (`Compensation.ResyncForgetsIff`). A record whose row could not be stored
  is never remembered, and a check that finds it later takes it for one that was there before
  (`ClaimedRecords.RetryAdopts`). The exact conditions, for every step and over every run, are in
  `Compensation.StepRemembersIff`, `Compensation.RememberedThroughoutIff`,
  `ClaimedRecords.StepLeaksIff` and `ClaimedRecords.CompleteThroughoutIff`.
- Adopting where the provider lists no record indexes an empty list (`DnsSync.CrashesIff`).
- The comment on `BlockedError` says that blocking does not use up the retry budget. It does: the
  claim has counted the attempt (`JobQueue.FailureRetriedIff`); a job blocked on four days is given
  up at its first failure (`JobQueue.BlockingExhausts`).
- A failed apply in the client can leave the new configuration file active
  (`Supervisor.FileKeptIff`, `Supervisor.FailedRestoreExample`), also under a process that has loaded
  the old one (`Supervisor.SyncedThroughoutIff`, `Supervisor.UnsyncedRenameExample`), and removing the
  runtime secrets can leave a remembered snapshot without a file to roll back to
  (`Supervisor.BackedThroughoutIff`, `Supervisor.ForgottenFileExample`).
- A router build that fails after publishing its file repeats its version, which the router then
  refuses (`Router.RepeatedVersionRefused`); one that fails between inserting its row and
  updating the state blocks all later builds (`Router.InsertedRowBlocks`).
- FullConfig lists at most 200 mappings and domains, and leaves out domains that are being
  removed, which authorization still accepts (`ConfigAgreement.ConfigAgrees`,
  `OmittedHost.OmittedIff`, `OmittedHost.OmittedHostExample`).
- The request limiter keeps its bound of less than two budgets in a window while a key's bucket is
  there. A reset, or a table of more than 4096 keys that is cleared, drops it, and each drop adds one
  budget to the bound, exactly (`RateLimiter.WindowBound`, `RateLimiter.BoundAttained`,
  `RateLimiter.ResetBreaks`, `RateLimiter.ClearingBreaks`).

Assumptions. Row ids, session tokens, runtime credentials and secrets come from one counter and
never repeat. Hashes are injective, so a row holds what was hashed; signatures and MACs are
symbolic terms. Instants are integers. One service method, and one run of a job handler, is one
step. ApplyResult reads the desired version before its transaction
(server/internal/service/service.go:1313-1335), and Enqueue inserts and then selects
(server/internal/jobs/worker.go:76-84): both are one step here. A transaction takes effect or does
not, and fails where the model says so, on a schema constraint for example. Statements outside a
transaction can fail one by one, and the environment chooses which do or how far they get: the
revocations of SetUserStatus, ResetUserPassword and Logout, the credential of a new user, the idle
time of an accepted token, the three writes of a DNS synchronisation, the cleanup of a domain, and
the mappings and the last transaction of a user's deletion.

## Model

| member | source | states |
|---|---|---|
| DomainInvariants.ExecKeepsInv | server/internal/service/service.go:607-1435 | every step of the service, with any arguments, any provider answer and any failure among the statements it runs outside a transaction, keeps all invariants of all tables |
| DomainInvariants.ReachableInv | server/internal/service/service.go:228-2008 | every state that any run reaches from the fresh database satisfies all invariants |
| MappingEffects.CreateDecides | server/internal/service/service.go:607-687 | a create takes effect iff a list of checks on the request and the tables passes, for the port it asks for or else the lowest free one; otherwise it changes nothing and answers with the first check that fails, or from the record of its key |
| MappingEffects.CreateStores | server/internal/service/service.go:669-701 | every field of the mapping, revision, lease and record that an accepted create adds, and nothing else but the version |
| MappingEffects.UpdateDecides | server/internal/service/service.go:707-804 | an update takes effect iff a list of checks passes, with the port to use written out; otherwise it changes nothing and answers with the first that fails |
| MappingEffects.UpdateKeepsPort | server/internal/service/service.go:749-756 | an accepted update of a TCP or UDP mapping without a port, or with port 0, gives its new revision the port of the pending revision, else of the active one |
| MappingEffects.UpdateStores | server/internal/service/service.go:787-818 | every field of the row, the new revision, with the number after the largest, and the record; the wish, the observation and the active revision stay |
| MappingEffects.UpdateReplaces | server/internal/service/service.go:775-804 | the pending revision is superseded and its pending lease goes, no other revision or lease changes, and a new port gets a pending lease |
| MappingEffects.ToggleStores | server/internal/service/service.go:919-988 | an accepted toggle sets the wish and the lifecycle of its mapping and nothing else of it |
| MappingEffects.DeleteDecides | server/internal/service/service.go:829-917 | a deletion takes effect iff the caller owns the mapping; it marks the mapping and every domain bound to it, and removes nothing |
| MappingEffects.ApplyDecides | server/internal/service/service.go:1309-1333 | a report is believed iff it is about the current version of an active user and, if it gives a hash, about the snapshot of it; otherwise it changes nothing |
| MappingEffects.SuccessStores | server/internal/service/service.go:1344-1367 | after a believed success each mapping of the user is observed running, points to what was pending if anything was, stays deleting if it was, and else runs or is disabled as it is wanted; no other mapping changes |
| MappingEffects.SuccessRevisions | server/internal/service/service.go:1344-1351 | the status of each revision afterwards |
| MappingEffects.SuccessLeases | server/internal/service/service.go:1356-1363 | which leases stay, and that they name the revisions now active |
| MappingEffects.FailureStores | server/internal/service/service.go:1415-1426 | after a believed failure each mapping of the user that is deleted, disabled or deleting keeps its lifecycle and observation, every other one has a configuration error and is offline; nothing is pending, what was active stays |
| MappingEffects.FailureRevisions | server/internal/service/service.go:1415-1424 | the status of each revision, and which leases stay |
| MappingEffects.FinalizeMappingDecides | server/internal/service/cloudflare_jobs.go:405-420 | a mapping goes iff it is being deleted and no domain is bound to it |
| MappingEffects.DropMappingStores | server/internal/service/cloudflare_jobs.go:405-420 | its revisions, leases and domains go with it, and nothing else does |
| AccountEffects.CreateUserDecides | server/internal/service/service.go:1495-1531 | who may add a user, and the row and the credential it starts with |
| AccountEffects.SetUserStatusDecides | server/internal/service/service.go:1533-1553 | who may change a status; the new status and generation; which sessions and runtime credentials end |
| AccountEffects.ResetUserPasswordDecides | server/internal/service/service.go:1555-1579 | who may reset a password; the new password and generation; which sessions and runtime credentials end |
| AccountEffects.LogoutStores | server/internal/service/service.go:409-417 | exactly the caller's session, and the runtime credentials issued with it, are revoked |
| AccountEffects.LoginDecides | server/internal/service/service.go:280-362 | a login is decided by the row of the user of that name; what each refusal means |
| AccountEffects.LoggedInStores | server/internal/service/service.go:310-356 | every field of the session and runtime credential that a login adds; on the client's channel, and only there, the user's other client sessions end and its generation moves on |
| AccountEffects.AuthenticateDecides | server/internal/service/service.go:369-397 | what each answer to a token means, and the idle time of an accepted one |
| AccountEffects.ResetDecides | server/internal/service/service.go:1592-1686 | whose secret may be rotated by whom, and every field that changes |
| AccountEffects.ProxyDecides | server/internal/service/service.go:1976-2007 | what each verdict on a proxy means |
| AccountEffects.AuthorizeDecides | server/internal/service/service.go:1950-2007 | what each verdict on a request means, by the one live credential it names |
| DomainEffects.BindDecides | server/internal/service/service.go:1023-1127 | when a binding is accepted, and the domain and the DNS row it adds |
| DomainEffects.UnbindDecides | server/internal/service/service.go:1215-1267 | when a deletion of a domain is accepted, and that it only marks the domain |
| DomainEffects.AdvanceDecides | server/internal/service/service.go:1129-1213 | only an operator's action moves a domain that is being deleted |
| DomainEffects.SyncStopsWhen | server/internal/service/cloudflare_jobs.go:493-546 | where a synchronisation stops before it looks at the listed records; what is wanted, and that it is proxied exactly in the provider's proxy mode |
| DomainEffects.ChooseFound | server/internal/service/cloudflare_jobs.go:547-587 | a listed record that says what is wanted is taken as it is, unless it is to be overwritten and differs |
| DomainEffects.ChooseUnfound | server/internal/service/cloudflare_jobs.go:555-587 | where none does, a check leaves other records alone, an adoption takes the first, and everything else writes the wanted one |
| DomainEffects.SyncDecides | server/internal/service/cloudflare_jobs.go:486-588 | what each decision leads to; a domain that is gone or leaving is left alone |
| DomainEffects.SaveStores | server/internal/service/cloudflare_jobs.go:588-758 | every field of the row that is stored and the status the domain moves on to, as far as the statements get |
| DomainEffects.FinalizeDomainStores | server/internal/service/cloudflare_jobs.go:353-374 | what is gone after each of the statements |
| DomainEffects.CleanUpDecides | server/internal/service/cloudflare_jobs.go:315-351 | the provider is asked exactly for a record that the panel manages and can name; what each answer leads to |
| DomainEffects.DoomedStores | server/internal/service/service.go:1798-1820 | a first request for a deletion ends the user's sessions and runtime credentials and moves its generation and version on; no other user's change |
| DomainEffects.DoomedMarks | server/internal/service/service.go:1810-1815 | it marks every domain and mapping of the user, and none of another |
| DomainEffects.DeleteUserDecides | server/internal/service/service.go:1694-1850 | a first request marks, a further one only escalates and answers with the first; what each refusal means |
| DomainEffects.TurnDecides | server/internal/service/cloudflare_jobs.go:218-248 | when a turn of the deletion's loop stops it; the residue that a forced one stores, with the name of the record |
| DomainEffects.DeleteUserJobDecides | server/internal/service/cloudflare_jobs.go:249-290 | the user goes iff the loop got through, all listed mappings were finalized, nothing is owned any more, and the last transaction is committed |
| DomainEffects.RemoveUserStores | server/internal/service/cloudflare_jobs.go:282-284 | exactly the user's accounts, mappings, revisions and leases are gone |
| DomainEffects.RemoveUserStoresToo | server/internal/service/cloudflare_jobs.go:282-284 | and its domains, DNS rows, records and snapshots |
| MappingInvariants.UpdateKeepsInv | server/internal/service/service.go:707-827 | an update, refused or not, keeps pointers, statuses, numbering, leases, lifecycles and versions consistent |
| MappingInvariants.SettledKeepsInv | server/internal/service/service.go:1335-1371 | so does the transition of a successful apply, for all the mappings of the user at once |
| MappingInvariants.AbandonedKeepsInv | server/internal/service/service.go:1407-1432 | and that of a failed apply |
| MappingSafety.LeasesAreSafe | server/internal/service/service.go:680-804 | in every reachable state no port has two leases and no mapping two of one role; each lease names a revision of its own mapping and holds its port; a pending lease names the pending revision, an active one the active revision if there is one |
| MappingSafety.RevisionsAreSafe | server/internal/service/service.go:775-796 | in every reachable state a revision is pending, or active, iff its mapping points to it as such; a mapping's numbers are exactly 1..n without repetition; the pending one is larger than all others, the active one included |
| MappingSafety.AppliedWithinDesired | server/internal/service/service.go:1317-1364 | in every reachable state the applied version is at most the desired one |
| Mappings.FirstFree | server/internal/service/service.go:2195-2206 | the port allocated is in the range and free, and every earlier port of the range is leased; none is found only if all are leased |
| Admission.CreateWithinQuotas | server/internal/service/service.go:633-668 | a create that takes effect leaves its active user within the quotas on mappings and on waiting mappings; that of a TCP or UDP proxy also within the quota on pending ports, with a port in the range that FRPS itself does not use |
| Admission.UpdateWithinQuotas | server/internal/service/service.go:733-765 | an update that takes effect is of the caller's own mapping and adds a waiting mapping only within the quota; the port of a TCP or UDP proxy is in range; a new port is leased only by a user below the quota on pending ports |
| Quotas.CountAfterUpdate | server/internal/service/service.go:757-804 | after an update the user's pending ports are those before, without the mapping's pending lease, with its active lease if the mapping did not wait before, and with the new port if there is one |
| Quotas.StepJudged | server/internal/service/service.go:607-988 | every step by anyone keeps each user within the quota on mappings; within the quota on waiting mappings iff it does not enable a mapping at the limit; and within the quota on pending ports iff it is none of: a create at the limit of a mapping that is neither TCP nor UDP and asks for a port, an update that makes an active lease count at the limit, an enabling that does |
| Quotas.MappingsAlwaysWithin | server/internal/service/service.go:641-644 | in every state of every run a user is within the quota on mappings |
| Quotas.AwaitingThroughoutIff | server/internal/service/service.go:645-651 | in every state of a run within the quota on waiting mappings iff no step enables one at the limit |
| Quotas.PortsThroughoutIff | server/internal/service/service.go:651-804 | in every state of a run within the quota on pending ports iff no step is of those three kinds |
| Quotas.InitiallyWithin | server/internal/service/service.go:228-277 | from the fresh database everyone starts within all of them |
| Quotas.LeasesBindPortIff | server/internal/service/service.go:651-686 | a create leases the port that FRPS listens on iff it is for a mapping that is neither TCP nor UDP and asks for it |
| ExceededQuota.HttpPortExample | server/internal/service/service.go:651-686 | a sound state and an HTTP create that succeeds beyond the quota, on the port of FRPS |
| ExceededQuota.MoveExample | server/internal/service/service.go:749-804 | a sound state and an update that ends with two pending ports where one is allowed, on the port of FRPS, which a create is refused |
| ExceededQuota.EnableExample | server/internal/service/service.go:919-988 | a sound state and an enabling that exceeds the quota on waiting mappings |
| Admission.DomainWithinQuota | server/internal/service/service.go:1062-1105 | a binding that takes effect is for the user's own HTTP mapping, within the quota |
| Admission.CreateAnswers | server/internal/service/service.go:669-701 | the answer to a create describes the mapping and the pending first revision as stored, these are what was asked for, and they fit the schema's constraints |
| Admission.UpdateAnswers | server/internal/service/service.go:787-818 | the same of an update and the new pending revision |
| Admission.LoginGrantedTo | server/internal/service/service.go:281-309 | a login is granted only to the active user of that name and password, on the channel of its role |
| Admission.ResetConcerns | server/internal/service/service.go:1592-1673 | a secret is rotated by its own user or for another by an administrator, with a valid proof; it is new, no other changes, and the user's sessions and runtime credentials are revoked |
| Leasing.UpdateKeepsLeasedIff | server/internal/service/service.go:757-804 | one update keeps every active and pending port leased iff it does not repeat the port that the mapping's own pending lease holds |
| Leasing.StepKeepsLeasedIff | server/internal/service/service.go:607-1435 | any step of the service keeps them leased iff it is no update that takes effect and does so |
| Leasing.LeasedThroughoutIff | server/internal/service/service.go:757-804 | in a run all ports stay leased in every state iff no step is such an update |
| Leasing.NoSharedPorts | server/internal/service/service.go:676-686 | from the fresh database, in every such run, no two mappings of any users share an active or pending port |
| Leasing.RerequestFreesPort | server/internal/service/service.go:780-804 | such an update leaves its port without any lease |
| SharedPort.RerequestSharesPort | server/internal/service/service.go:680-804 | after such an update a create by anyone who is within the quotas, and whose chosen port it is, succeeds, and two mappings use the port |
| SharedPort.RerequestExample | server/internal/service/service.go:780-804 | a state that satisfies all invariants and an update that succeeds there and leaves a pending port without a lease |
| SharedPort.SharedPortExample | server/internal/service/service.go:633-804 | in that state another user's create then succeeds on the port, and both mappings use it |
| ApplyRefinement.SuccessRefines | server/internal/service/service.go:1335-1367 | the six set-wise statements of a successful apply have the effect of one transition on each mapping of the user, its revisions and its leases |
| ApplyRefinement.FailureRefines | server/internal/service/service.go:1415-1426 | the same for the four statements of a failed apply |
| ApplyRefinement.SettledRow | server/internal/service/service.go:1344-1355 | after a success nothing of the user is pending; what was pending is active, and the old active revision is superseded only where something was pending |
| ApplyRefinement.SettledUserLeases | server/internal/service/service.go:1356-1363 | after a success the user's leases are exactly those that hold an active revision's port, all of role active and naming that revision |
| ApplyRefinement.SettledFrame | server/internal/service/service.go:1344-1367 | no mapping, revision or user row of another user changes |
| ApplyRefinement.SettledLeaseFrame | server/internal/service/service.go:1356-1363 | no lease of another user's mapping changes |
| AppliedVersions.AppliedOrigin | server/internal/service/service.go:1309-1435 | over any run a user's applied version is the one it had, or 0 for a new user, or was the desired version of the active user when a successful apply of it was accepted in the run |
| AppliedVersions.AppliedWasHandedOut | server/internal/service/service.go:1270-1367 | from the fresh database: if that apply gave a hash, an earlier step had signed and handed out the user's configuration with that hash while that very version was desired |
| Rollback.RunStands | server/internal/service/service.go:707-988 | over any run in which no successful apply of the user is accepted and none of its own rows is removed, whatever all callers and jobs do, each mapping of the user keeps its active revision, that revision's row and exactly its active leases, and the user the applied version |
| Rollback.FailedApplyRestores | server/internal/service/service.go:1407-1432 | a failed apply at the end of such a run leaves all that as before the run, and no pending pointer, revision or lease of the user |
| ConfigAgreement.EntriesState | server/internal/service/service.go:1278-1292 | every entry is of a listed mapping that is wanted and not being deleted, states its name, type, local address, ports and number as its row and its pending, else active, revision have them, and names exactly the listed domains bound to it that are not being removed |
| ConfigAgreement.HostsOfExactly | server/internal/service/service.go:1278-1285 | an entry's domains are exactly the listed ones of its mapping that are not being removed |
| ConfigAgreement.ConfigAgrees | server/internal/service/service.go:1270-1292 | in every sound state, for listings in any order: a NewProxy request passes the checks on its mapping, and the mapping is within the 200 listed, iff the configuration has an entry with its revision, port, type and hostname |
| ConfigAgreement.SmallListingsAgree | server/internal/service/service.go:1950-2008 | with at most 200 mappings and a live credential, authorizeFRP accepts a NewProxy request iff the configuration has an entry that it opens |
| OmittedHost.OmittedIff | server/internal/service/service.go:1278-1285 | no configuration names the hostname of an accepted request iff its domain is being removed or beyond the listed page |
| OmittedHost.DeletionKeepsVerdicts | server/internal/service/service.go:1215-2003 | asking for a domain's deletion changes the verdict on no proxy of any user |
| OmittedHost.OmittedHostExample | server/internal/service/service.go:1278-2003 | a concrete state in which authorizeFRP accepts the proxy of a deleting domain that no listing names |
| ConfigAgreement.EntriesInOrder | server/internal/service/service.go:1282-1292 | there is one entry for each listed mapping that is wanted and not being deleted, in the order of the listing |
| Sessions.OneClientToken | server/internal/service/service.go:310-319 | at most one client token of a user authenticates |
| Sessions.LoginReplaces | server/internal/service/service.go:280-356 | a client login that is granted lets the token it answers with in at once, and every earlier client token of the user of that name is rejected as replaced |
| Sessions.ReplacedForEver | server/internal/service/service.go:369-397 | a token rejected as replaced is rejected after every run and at every time |
| Sessions.AuthenticatedIff | server/internal/service/service.go:369-393 | a token is accepted iff its session is not revoked, expired or idle, its user is active, and a client session is of the current generation |
| Sessions.AcceptedFromLiveLogin | server/internal/service/service.go:1950-2007 | authorizeFRP accepts a request iff it comes with an unexpired runtime credential, the only one issued with the active user's one live client session, of the current generation, with the user's secret if any, and asks for an allowed operation |
| Sessions.ReplacedRuntimeForEver | server/internal/service/service.go:1952-1965 | once its session is revoked or of an older generation, a runtime credential is never accepted again in any run |
| Idempotency.SucceededWrite | server/internal/service/service.go:620-701 | every write that succeeds leaves its request and its answer recorded under its key |
| Idempotency.RecordedWrite | server/internal/service/service.go:620-632 | every write whose key is recorded changes nothing and answers from the record, or refuses another request |
| Idempotency.ReplayedForEver | server/internal/service/service.go:719-732 | after a keyed write succeeded, the same write gets the same answer and changes nothing after any run in which its caller still exists |
| Idempotency.ReuseRefused | server/internal/service/service.go:621-624 | after any such run another valid request under the same key is refused and changes nothing |
| Idempotency.VersionConsumedOnce | server/internal/service/service.go:638-744 | per user and expected version at most one write takes effect in any run: a later success is the replay of a record |
| Compensation.CleanUpRemembers | server/internal/service/cloudflare_jobs.go:315-374 | one cleanup of a domain, whatever the provider answers and however far it gets, never forgets a managed record |
| Compensation.StepRemembersIff | server/internal/service/cloudflare_jobs.go:183-758 | any step of the service, with retries, force, and failures between any two statements, keeps the memory of a managed record iff it is not a synchronisation of its domain that deletes the row and does not insert the same record again as managed |
| Compensation.RememberedThroughoutIff | server/internal/service/cloudflare_jobs.go:183-758 | over any run the record is remembered in every state iff no step is such a synchronisation |
| Compensation.GoneIsAccounted | server/internal/service/cloudflare_jobs.go:183-290 | after any such run, if the domain or its user is gone, the provider has deleted the record or a residue of the domain names it |
| Compensation.RecheckForgets | server/internal/service/cloudflare_jobs.go:547-588 | a check, adoption or overwrite that finds the panel's own record unchanged is such a synchronisation, in every state |
| Compensation.ResyncForgetsIff | server/internal/service/cloudflare_jobs.go:577-758 | a resynchronisation that finds it unchanged is one iff it stops between deleting and inserting the row |
| DnsSync.ManagedIffWritten | server/internal/service/cloudflare_jobs.go:547-587 | a synchronisation stores the record as the panel's own iff it writes it in that very step or was asked to resynchronise |
| DnsSync.CrashesIff | server/internal/service/cloudflare_jobs.go:559-562 | it indexes an empty list iff it is to adopt and the provider lists nothing |
| ForgottenRecord.RecheckLoses | server/internal/service/cloudflare_jobs.go:315-758 | in every state: such a check, then the owner's deletion of the domain and its job, and nothing remembers the record, whatever the provider would answer |
| ForgottenRecord.RecordLost | server/internal/service/cloudflare_jobs.go:72-97 | a concrete state that satisfies all invariants and a run of three steps that loses the record, the first being the check that the service queues itself |
| ClaimedRecords.StepLeaksIff | server/internal/service/cloudflare_jobs.go:570-758 | a record that is remembered, or that the step writes at the provider, is remembered after the step iff the step does not forget it and stores its row, with a zone |
| ClaimedRecords.CompleteThroughoutIff | server/internal/service/cloudflare_jobs.go:477-758 | over any run the panel remembers in every state all the records it has written since the start iff no step leaves one without |
| ClaimedRecords.RetryAdopts | server/internal/service/cloudflare_jobs.go:547-588 | a check that finds such a record does not make the panel remember it |
| Compensation.GoneOwnsNothing | server/internal/service/cloudflare_jobs.go:243-256 | in every reachable state a user that is gone has no mapping and no domain |
| ForcedDeletion.ForceCompletesIff | server/internal/service/cloudflare_jobs.go:218-290 | for every combination of provider answers and failures of the first cleanup, if the panel's own residue and cleanup statements succeed: one forced run removes the user iff every domain and mapping of the user is still being deleted; otherwise it waits, and the condition still fails for the next run |
| ForcedDeletion.RequestMarksAll | server/internal/service/service.go:1753-1830 | the first request for the deletion brings the condition about |
| ForcedDeletion.SecondRequestMarksNothing | server/internal/service/service.go:1727-1752 | a further request, forced or not, changes no user, domain or mapping |
| ForcedDeletion.OperatorUnmarks | server/internal/service/service.go:1176-1198 | an operator's DNS action on a deleting domain undoes the condition for its user |
| ForcedDeletion.StuckExample | server/internal/service/service.go:1176-1752 | a sound state with everything being deleted; after an operator's action on the domain and a forced request, every forced run answers that it waits |
| Panel.App.AllocatePort | server/internal/service/service.go:2195-2206 | the loop finds the first free port |
| Panel.App.Create | server/internal/service/service.go:607-705 | creates the mapping, its revision and its lease, or rolls everything back |
| Panel.App.LatestNumber | server/internal/service/service.go:787-790 | the loop finds the largest revision number of a mapping, 0 if it has none |
| Panel.App.Update | server/internal/service/service.go:707-827 | supersedes what was pending and adds the next revision and its lease, or rolls everything back |
| Panel.App.Toggle | server/internal/service/service.go:919-988 | changes the wish and the lifecycle, and consumes a version |
| Panel.App.Delete | server/internal/service/service.go:829-917 | marks the mapping and its domains for deletion |
| Panel.App.Apply | server/internal/service/service.go:1309-1430 | the statements, one after the other, do the per-mapping transition |
| Panel.App.FullConfig | server/internal/service/service.go:1270-1292 | the loops build exactly the entries of the listed page |
| Panel.App.BindDomain | server/internal/service/service.go:1023-1127 | reserves the hostname with an intended DNS record, or rolls everything back |
| Panel.App.UnbindDomain | server/internal/service/service.go:1215-1267 | marks the domain for deletion |
| Panel.App.SelectRecord | server/internal/service/cloudflare_jobs.go:549-555 | the loop finds the first listed record that says what is wanted |
| Panel.App.ChooseRecord | server/internal/service/cloudflare_jobs.go:547-587 | which record the domain gets, and whether it counts as the panel's own |
| Panel.App.SyncDomainDns | server/internal/service/cloudflare_jobs.go:477-758 | the synchronisation of a domain, as far as its statements get |
| Panel.App.AddUser | server/internal/service/service.go:1495-1531 | inserts the user and then its credential; the user stays without one if the second insert fails |
| Panel.App.LogIn | server/internal/service/service.go:280-362 | replaces the user's client sessions by one of a new generation, or refuses |
| Panel.App.AuthenticateToken | server/internal/service/service.go:369-397 | the verdict on a token, and the idle time moved when it is accepted and the write succeeds |
| Panel.App.SetStatus | server/internal/service/service.go:1533-1553 | moves the user to a new generation; disabling then revokes the sessions and the runtime credentials, as far as the two statements succeed |
| Panel.App.ResetPassword | server/internal/service/service.go:1555-1579 | moves the user to a new generation and revokes in the same way |
| Panel.App.LogOut | server/internal/service/service.go:409-417 | revokes the session and, if that statement succeeds, the runtime credential issued with it; only a failure of the first is reported |
| Panel.App.ResetCredential | server/internal/service/service.go:1592-1686 | rotates the secret, moves generation and version, and revokes all sessions and runtime credentials |
| Panel.App.RequestUserDeletion | server/internal/service/service.go:1694-1850 | marks the user and all it owns, or escalates the deletion under way |
| Panel.App.FinalizeDeletedDomain | server/internal/service/cloudflare_jobs.go:353-374 | the statements before a failure stay done |
| Panel.App.DeleteDomainExternal | server/internal/service/cloudflare_jobs.go:315-351 | what each provider answer leads to |
| Panel.App.FinalizeDeletedMappings | server/internal/service/cloudflare_jobs.go:376-420 | drops exactly the user's deleting mappings that have no domain, in the order of their listing, up to the first that fails |
| Panel.App.DeleteUserJob | server/internal/service/cloudflare_jobs.go:183-290 | the loop over the user's domains, the mappings, and the removal of the user, each as far as it gets |
| JobQueue.Store.EnqueueJob | server/internal/jobs/worker.go:63-88 | inserts the job, or answers with the live one of the same key |
| JobQueue.Store.ClaimJob | server/internal/jobs/worker.go:90-158 | takes the due job that is first by time and id, or fails one whose payload does not decode |
| JobQueue.Store.HeartbeatJob | server/internal/jobs/worker.go:160-164 | extends the lease of a job the worker holds, and nothing else |
| JobQueue.Store.CompleteJob | server/internal/jobs/worker.go:166-175 | finishes a job the worker holds, or reports the lost lease |
| JobQueue.Store.FailJob | server/internal/jobs/worker.go:177-198 | gives the job up, or puts it back with its backoff |
| JobQueue.Store.BlockJob | server/internal/jobs/worker.go:200-214 | puts the job back for a day |
| JobQueue.RunOnce | server/internal/jobs/worker.go:237-276 | one turn of a worker: a claim, any steps of anyone while the handler runs, and what its answer leads to |
| JobQueue.TurnReleases | server/internal/jobs/worker.go:237-276 | whatever the others do meanwhile, a worker that keeps beating ends its turn by letting go of its job, on the attempt of its claim, with the status its outcome calls for, and touches no other |
| JobQueue.TurnIsFenced | server/internal/jobs/worker.go:166-276 | a worker that lost the job during its turn ends it without any effect, and is told unless its handler blocked |
| JobQueue.ClaimStores | server/internal/jobs/worker.go:90-158 | of the jobs that may be run the one whose time came first is taken, and of equals the one of the lowest id; every field that changes |
| JobQueue.HeldStores | server/internal/jobs/worker.go:160-214 | every field that Heartbeat, Complete, Fail and Block change of a job that the worker holds |
| JobQueue.EnqueueStores | server/internal/jobs/worker.go:63-88 | every field of a new job |
| JobQueue.WokenStores | server/internal/service/service.go:1852-1880 | what renewing a user's deletion and waking the waiting jobs change |
| JobQueue.NoJobIffNoneDue | server/internal/jobs/worker.go:102-105 | a claim finds nothing iff nothing is due |
| JobQueue.QueueIsSafe | server/internal/jobs/worker.go:63-214 | in every run a job is running iff it is locked, and at most one live job has a given type and key |
| JobQueue.EnqueueDeduplicates | server/internal/jobs/worker.go:76-87 | enqueueing under a key leaves exactly one live job for it, the one answered |
| JobQueue.FinalStays | server/internal/jobs/worker.go:102-134 | a job that succeeded or failed never changes again in any run |
| JobQueue.Fenced | server/internal/jobs/worker.go:160-214 | once a job is no longer an owner's, that owner's Heartbeat, Complete, Fail and Block change nothing in any run until it claims the job again |
| JobQueue.TakeoverLoses | server/internal/jobs/worker.go:134-140 | a claim by another owner is such a loss |
| JobQueue.NeverTakenOver | server/internal/jobs/worker.go:134-164 | a worker whose last beat is less than one lease ago at every claim keeps its job, on the same attempt, over any run |
| JobQueue.AttemptsAreClaims | server/internal/jobs/worker.go:134 | in every run the attempts of a job are the claims that got it |
| JobQueue.FailureRetriedIff | server/internal/jobs/worker.go:190-197 | a failure is retried iff the job was claimed less often than its limit, claims that ended in Block included |
| JobQueue.BlockingExhausts | server/internal/jobs/worker.go:190-214 | a job blocked on max_attempts - 1 days, from the empty queue on, is given up at its first failure |
| JobQueue.PutBacksBounded | server/internal/jobs/worker.go:190-197 | in every run Fail puts a job back at most max_attempts - 1 times |
| JobQueue.PutBackWaits | server/internal/jobs/worker.go:194-196 | a job put back is not claimed before its backoff has passed, unless the service wakes it |
| JobQueue.BackoffIs | server/internal/jobs/worker.go:194-195 | the delays: 1, 2, 4, up to 256, then 300 |
| JobQueue.BackoffGrows | server/internal/jobs/worker.go:194-195 | delays never shrink, and stop at 300 |
| Supervisor.Client.ApplySnapshot | client/internal/supervisor/supervisor.go:303-382 | the steps of an apply, with every outcome of files, binary and process |
| Supervisor.Client.StopAll | client/internal/supervisor/supervisor.go:524-541 | the process is gone and nothing else but the status changes |
| Supervisor.Client.ReloadEligible | client/internal/supervisor/supervisor.go:384-406 | the two loops hold iff both payloads agree on every key but mappings, a missing key reading as null |
| Supervisor.StopStores | client/internal/supervisor/supervisor.go:524-541 | after a stop in any state nothing runs, and the files, what is applied and what is remembered are as they were |
| Supervisor.StopKeepsStopped | client/internal/supervisor/supervisor.go:524-563 | after a stop nothing runs until the next apply, over any run |
| Supervisor.ClearStores | client/internal/supervisor/supervisor.go:544-563 | which files and what memory are gone after each removal, and that no process is touched |
| Supervisor.ExitStores | client/internal/supervisor/supervisor.go:495-512 | a process that ends leaves the client offline if it was running, and nothing else changes |
| Supervisor.ApplyRefuses | client/internal/supervisor/supervisor.go:303-338 | the checks before the active file is replaced, and that a failed one only reports |
| Supervisor.SuccessStores | client/internal/supervisor/supervisor.go:339-382 | every field after a successful apply |
| Supervisor.FailureStores | client/internal/supervisor/supervisor.go:346-366 | every field after a failed one: the file put back, the process restarted from it or left as it was, and the error |
| Supervisor.FailureKeepsApplied | client/internal/supervisor/supervisor.go:303-382 | a failed apply changes neither the applied version nor the hash nor the remembered snapshot |
| Supervisor.FileKeptIff | client/internal/supervisor/supervisor.go:339-365 | a failed apply leaves the active file as it was iff the rename did not take effect before its directory sync failed, and the old file could be read and put back |
| Supervisor.OldTextSurvives | client/internal/supervisor/supervisor.go:339-356 | otherwise the last-good file has the old text, if its backup was written |
| Supervisor.ProcessSyncedIff | client/internal/supervisor/supervisor.go:303-382 | one apply, whatever its outcome, leaves whatever runs with exactly the active file loaded iff it does not replace the file under a process without its being told, and no failed attempt leaves the process unrestarted after a partial reload or with another file than it had loaded |
| Supervisor.SuccessLoadsNew | client/internal/supervisor/supervisor.go:343-381 | a successful apply leaves the new file, and a process that has loaded it |
| Supervisor.SyncedThroughoutIff | client/internal/supervisor/supervisor.go:303-563 | over any run whatever is running has always loaded exactly the active file iff no step is such an apply, or a removal of the files under a running process |
| Supervisor.OrderlyApplyKeepsSynced | client/internal/supervisor/supervisor.go:303-382 | with a binary, readable files, no rename that took effect and yet failed, and no failed rollback, no apply is one |
| Supervisor.UnsyncedRenameExample | client/internal/supervisor/supervisor.go:339-345 | a rename whose directory sync fails leaves the new file under the old process |
| Supervisor.FailedRestoreExample | client/internal/supervisor/supervisor.go:346-365 | a failed apply that cannot put the old file back leaves the new file active and loaded, with the old version reported as applied |
| Supervisor.BackedThroughoutIff | client/internal/supervisor/supervisor.go:544-563 | over a run a remembered snapshot always has an active file and is the applied one iff no removal of the secrets stops after the active file |
| Supervisor.FailedReloadRollsBack | client/internal/supervisor/supervisor.go:346-365 | in such a run a failed reload always has an old file to go back to, and goes back to it |
| Supervisor.ForgottenFileExample | client/internal/supervisor/supervisor.go:544-563 | otherwise a reload is still tried, without one |
| Router.VerifiesIffBuilt | server/internal/router/snapshot.go:31-64 | a v1 snapshot verifies under a key iff it is what Build makes with that key |
| Router.TamperEvident | server/internal/router/snapshot.go:42-64 | with the MAC of a built snapshot, no other content and no other key verifies |
| Router.LoadsKeepFirstGreatest | server/internal/router/runtime.go:98-109 | over any sequence of loads the router holds the first valid snapshot of the greatest version |
| Router.Runtime.ServeRequest | server/internal/router/runtime.go:120-158 | the loops select the first control route of the host, else its first business route |
| Router.ServedAsBuilt | server/internal/router/runtime.go:129-158 | from the domains to the answer: control hosts always reach control; another host is forwarded, redirected, unavailable or unknown exactly as its domain and mapping say |
| Router.Control.BuildRouterSnapshot | server/internal/service/router_service.go:130-204 | builds the routes, publishes the file, marks the old rows superseded and records the new one, as far as it gets |
| Router.Watcher.ReloadIfChanged | server/internal/router/watcher.go:47-67 | loads a file whose fingerprint is new, once |
| Router.NormalizesName | server/internal/router/runtime.go:216-244 | a host is compared by its small letters, without surrounding white space and a final dot |
| Router.NormalizesNameAndPort | server/internal/router/runtime.go:216-244 | and without its port |
| Router.PublishedAnswers | server/internal/service/router_service.go:153-185 | the file that a build leaves answers every request by the site and the domains that the build saw: control hosts from the control target, domains from the business target |
| Router.TakenAnswers | server/internal/router/watcher.go:47-67 | and so does the router after one turn of the watcher, if it was not ahead |
| Router.PublishedRecords | server/internal/service/router_service.go:186-199 | the rows and versions recorded, as far as the build gets |
| Router.StepAgreesIff | server/internal/service/router_service.go:153-199 | published and database versions stay equal over a step iff it is no build that stops after publishing |
| Router.AgreesThroughoutIff | server/internal/service/router_service.go:153-199 | in every state of a run they are equal iff no step is such a build, whatever the watcher does; and then the router is never ahead |
| Router.PublishedReachesRouter | server/internal/router/watcher.go:47-67 | over all smooth runs the versions agree, the router never exceeds them, and one turn of the watcher makes it equal |
| Router.RepeatedVersionRefused | server/internal/service/router_service.go:153-199 | after such a build the next one repeats its version, and a router that took the first refuses the second |
| Router.InsertedRowBlocks | server/internal/service/router_service.go:194-199 | after a build that inserted its row only, no later build in any run updates the state |
| RateLimiter.Limiter.Call | server/internal/httpapi/rate_limit.go:27-47 | the answer and the new table of one call |
| RateLimiter.CallDecides | server/internal/httpapi/rate_limit.go:27-47 | whether a call counts in the stored bucket, and the time that a denial tells: what is left of the window, at least a second |
| RateLimiter.WindowBound | server/internal/httpapi/rate_limit.go:27-53 | in any run in which time does not run back, no half-open interval of one window holds more than (2 + n) * limit - 1 calls of a key that were let through, where n is how often the key's bucket is dropped |
| RateLimiter.SurvivesIff | server/internal/httpapi/rate_limit.go:27-53 | the bucket survives the run iff n is 0 |
| RateLimiter.FewKeysSurvive | server/internal/httpapi/rate_limit.go:30-32 | with at most 4096 keys every run without a reset of the key keeps its bucket |
| RateLimiter.ResetBreaks | server/internal/httpapi/rate_limit.go:49-53 | a budget, a reset and a budget again: 2 * limit calls at one instant, for every limit |
| RateLimiter.ClearingBreaks | server/internal/httpapi/rate_limit.go:27-47 | a budget, calls of 4096 other keys and a budget again: 2 * limit calls at one instant, for every limit |
| RateLimiter.BoundAttained | server/internal/httpapi/rate_limit.go:34-53 | for every limit, window and n some run with at most n drops reaches that number |
| RateLimiter.DeniedWhenFull | server/internal/httpapi/rate_limit.go:34-43 | a call is denied iff a full budget was let through since the start of its bucket, less than a window ago |
| RateLimiter.WaitingHelps | server/internal/httpapi/rate_limit.go:38-42 | a denied key that waits the time it was told is let through |
| RateLimiter.TableBounded | server/internal/httpapi/rate_limit.go:30-32 | in every run, resets included, the table has at most 4097 keys |
| RateLimiter.NothingPasses | server/internal/httpapi/rate_limit.go:37-43 | without a positive limit nothing is let through |
| Zones.MatchZone | server/internal/providers/cloudflare/zones.go:11-29 | finds the eligible zone with the longest name, the earliest listed among equals, and fails iff none is eligible |
| Zones.NormalizesName | server/internal/providers/cloudflare/zones.go:12-15 | names are compared by their small letters, without surrounding white space and a final dot |
| Zones.CoversIsLabelSuffix | server/internal/providers/cloudflare/zones.go:16 | the textual test is the subdomain relation of section 3.1 of RFC 1034: the name's labels are the last labels of the hostname |
| Zones.CoveringNamesAreNested | server/internal/providers/cloudflare/zones.go:25-27 | of two eligible names the one with more dots is longer and ends in the other; equal dots mean equal names |
| Zones.StableSortIsStable | server/internal/providers/cloudflare/zones.go:25-27 | the sort orders by dots and keeps the order of equals |

## Left out

- HTTP handlers, the WebSocket transport, the ACME client, Cloudflare's HTTP calls, front ends, scripts, dashboards, audit rows, metrics and backups: I/O, or members without a claim that spans operations.
- Operations rows: their phases, steps and messages; of a user's deletion the model keeps the operation's id and whether force was requested.
- Certificates and the quota on pending operations and certificate jobs: their verdict is the parameter `otherQuota` of CreateDomain.
- Regular expressions on names and addresses, and IDNA: their verdict is the field `textValid` of a request; surrounding white space is taken to be trimmed.
- Text of time stamps: RFC 3339 text drops trailing zeros, so its order is not always that of time; instants are integers here.
- Password hashing, encryption and reauthentication tickets: a password is compared directly, and the verdict of a reauthentication is a parameter.
- ChangeCredentials: it changes a username, under the same constraint that no two users share one, or a password, and no modelled session, generation or version.
- The expiry of idempotency records: the code stores it and never reads it.
- Finer interleavings: between the statements of one service method or one job handler; the desired version that ApplyResult reads before its transaction; the jobs it enqueues and the mappings it finalizes after it, which are steps of their own here.
- Panel.App: the stored snapshot of a configuration and the certificate, router and operator transitions of a domain exist as specification functions only.
- Panel.App.SyncDomainDns: the zone that matches is an answer of the environment (`Zones.MatchZone` models the choice); a record that the provider wrote although it answered with an error, or without an id, has no name to track; no other step comes between its statements.
- Panel.App.FullConfig: builds the entries; the snapshot's envelope, hash and signature are a given hash in `Service.TakeSnapshot`.
- JobQueue: the stored error messages, and the goroutine of the heartbeats; they are steps of their own, also within `JobQueue.Turn`.
- Supervisor: the secret files, which an apply overwrites before it verifies the configuration and does not restore; the recovery of an orphaned process at start; and the moment between an FRPC exit and the supervisor noticing it.
- Supervisor.Client.ClearRuntimeSecrets: runs beside the queue in the code and is one step here.
- Router: certificates, request bodies and headers, and the domain and operation states that a build finalizes.
- Zones, Router: text is ASCII; white space and case are handled for it only.
