/** How a record of the panel's own is lost: a synchronisation that finds it unchanged
    stores it as adopted; the deletion of its domain then neither calls the provider nor
    leaves a residue. */
module ForgottenRecord {
  import opened Wrappers
  import opened Schema
  import opened Mappings
  import opened MappingInvariants
  import opened Identity
  import opened DnsSync
  import opened Domains
  import opened Service
  import opened Invariants
  import opened DomainInvariants
  import opened Decay
  import opened Compensation
  import opened Witnesses

  /** A domain with no record that the panel knows as its own. */
  ghost predicate Unmanaged(t: Tables, d: Id) {
    forall r :: r in t.dns && t.dns[r].domain == Some(d) ==> !PanelManaged(t.dns[r])
  }

  ghost predicate Lost(t: Tables, x: Managed) { x.domain !in t.domains && !Accounted(t, x) }

  // ---------- the three steps, one by one ----------

  lemma ReplacedUnmanaged(t: Tables, d: Id, row: DnsRow)
    requires !PanelManaged(row) && row.domain == Some(d)
    ensures Unmanaged(ReplaceDnsRow(t, d, row), d) && Unmanaged(ClearDns(t, d), d)
  {
  }

  lemma SavedUnmanaged(t: Tables, d: Id, decision: Decision, reach: nat, now: int)
    requires d in t.domains && decision.Save? && reach >= 1 && !decision.managed
    ensures Unmanaged(SaveDns(t, d, decision, reach, now), d)
  {
    ReplacedUnmanaged(t, d, SavedRow(t.domains[d], d, decision, now));
    if reach >= 2 { SavedIs(t, d, decision, reach, now); }
  }

  lemma RecheckUnmanages(t: Tables, op: Op, x: Managed)
    requires Inv(t) && Tracked(t, x)
    requires op.SyncDnsOp? && op.domain == x.domain
             && (op.action == Check || op.action == Adopt || op.action == Overwrite)
    requires ListsOwn(t, x, op.fallback, op.answers, false) && op.reach >= 1
    ensures var decision := SyncDecision(t, x.domain, op.fallback, op.action, op.answers);
            decision.Save? && !decision.managed
  {
    DomainPart(t);
    TrackedIsLatest(t, x);
  }

  lemma DeleteMarks(t: Tables, who: AuthContext, d: Id, key: Option<string>)
    requires d in t.domains && t.domains[d].owner == who.user && t.domains[d].status != DeletedDomain
    requires who.user in t.users
             && RecordKey(who.user, who.generation, DeleteDomainAt(d), KeyOf(key, t.nextId)) !in t.records
    ensures var t' := DeleteDomain(t, who, d, key).0;
            && d in t'.domains && t'.domains[d].status == DeletingDomain
            && t'.dns == t.dns && t'.residues == t.residues && t'.removed == t.removed
  {
  }

  /** Whatever the provider would answer, it is not asked. */
  lemma CleanUpUnmanaged(t: Tables, d: Id, outcome: ProviderOutcome, x: Managed)
    requires Unmanaged(t, d) && d in t.domains && t.domains[d].status == DeletingDomain
    ensures var t' := CleanUpDomain(t, d, outcome, 3).0;
            d !in t'.domains && t'.removed == t.removed && t'.residues == t.residues
  {
    var t2 := DropDomain(ClearDns(t, d), d);
    assert CleanUpDomain(t, d, outcome, 3) == FinalizeDomain(t, d, 3);
    DropDomainAndMapping(t2, t.domains[d].mapping, d);
  }

  lemma DropDomainAndMapping(t: Tables, m: Id, d: Id)
    requires d !in t.domains
    ensures var t' := FinalizeMapping(t, m); d !in t'.domains && t'.removed == t.removed && t'.residues == t.residues
  {
  }

  // ---------- together ----------

  lemma SaveKeepsDomain(t: Tables, d: Id, decision: Decision, reach: nat, now: int)
    requires d in t.domains && t.domains[d].status != DeletedDomain && decision.Save?
    ensures var t' := SaveDns(t, d, decision, reach, now);
            t'.domains == t.domains
            || t'.domains == t.domains[d := t.domains[d].(status := NextStatus(t.domains[d].mode))]
  {
    var t2 := ReplaceDnsRow(t, d, SavedRow(t.domains[d], d, decision, now));
    ReplaceDnsRowOnly(t, d, SavedRow(t.domains[d], d, decision, now));
    if reach == 1 { assert SaveDns(t, d, decision, reach, now).domains == t.domains; }
    else if reach == 2 { assert SaveDns(t, d, decision, reach, now) == t2; }
    else if reach >= 3 {
      assert SaveDns(t, d, decision, reach, now) == SetDomainStatus(t2, d, NextStatus(t.domains[d].mode));
    }
  }

  lemma OwnerIs(t: Tables, x: Managed)
    requires DomainInv(t) && Tracked(t, x)
    ensures x.domain in t.domains && t.domains[x.domain].owner == x.owner && x.owner in t.users
  {
  }

  lemma DeleteThenCleanUp(t: Tables, who: AuthContext, key: Option<string>, outcome: ProviderOutcome, x: Managed)
    requires x.domain in t.domains && t.domains[x.domain].owner == who.user
             && t.domains[x.domain].status != DeletedDomain
    requires who.user in t.users && Unmanaged(t, x.domain) && !Accounted(t, x)
    requires forall k :: k in t.records ==> k.endpoint != DeleteDomainAt(x.domain)
    ensures var t2 := DeleteDomain(t, who, x.domain, key).0;
            var t3 := CleanUpDomain(t2, x.domain, outcome, 3).0;
            x.domain !in t3.domains && !Accounted(t3, x)
  {
    var t2 := DeleteDomain(t, who, x.domain, key).0;
    DeleteMarks(t, who, x.domain, key);
    CleanUpUnmanaged(t2, x.domain, outcome, x);
    SameLedgers(t, CleanUpDomain(t2, x.domain, outcome, 3).0, x);
  }

  ghost predicate Rechecks(t: Tables, sync: Op, x: Managed) {
    && sync.SyncDnsOp? && sync.domain == x.domain
    && (sync.action == Check || sync.action == Adopt || sync.action == Overwrite)
    && ListsOwn(t, x, sync.fallback, sync.answers, false) && !Leaving(t.domains[x.domain].status) && sync.reach >= 1
  }

  ghost function Rechecked(t: Tables, sync: Op): Tables
    requires sync.SyncDnsOp?
  {
    SyncDns(t, sync.domain, sync.fallback, sync.action, sync.answers, sync.reach, sync.now)
  }

  lemma RecheckSaves(t: Tables, sync: Op, x: Managed)
    requires Inv(t) && Tracked(t, x) && Rechecks(t, sync, x)
    ensures exists decision: Decision ::
      && decision.Save? && !decision.managed && x.domain in t.domains
      && Rechecked(t, sync) == SaveDns(t, x.domain, decision, sync.reach, sync.now)
  {
    RecheckUnmanages(t, sync, x);
    var decision := SyncDecision(t, x.domain, sync.fallback, sync.action, sync.answers);
    assert Rechecked(t, sync) == SaveDns(t, x.domain, decision, sync.reach, sync.now);
  }

  lemma RecheckLeaves(t: Tables, sync: Op, x: Managed)
    requires Inv(t) && Tracked(t, x) && !Accounted(t, x) && Rechecks(t, sync, x)
    ensures var t1 := Rechecked(t, sync);
            && Unmanaged(t1, x.domain) && !Accounted(t1, x) && t1.users == t.users && t1.records == t.records
            && x.owner in t1.users && x.domain in t1.domains && t1.domains[x.domain].owner == x.owner
            && t1.domains[x.domain].status != DeletedDomain
  {
    RecheckSaves(t, sync, x);
    var decision: Decision :| decision.Save? && !decision.managed && x.domain in t.domains
                    && Rechecked(t, sync) == SaveDns(t, x.domain, decision, sync.reach, sync.now);
    DomainPart(t);
    OwnerIs(t, x);
    SavedLeaves(t, decision, sync.reach, sync.now, x);
  }

  lemma SavedLeaves(t: Tables, decision: Decision, reach: nat, now: int, x: Managed)
    requires x.domain in t.domains && t.domains[x.domain].owner == x.owner
             && t.domains[x.domain].status != DeletedDomain
    requires decision.Save? && !decision.managed && reach >= 1 && !Accounted(t, x)
    ensures var t1 := SaveDns(t, x.domain, decision, reach, now);
            && Unmanaged(t1, x.domain) && !Accounted(t1, x) && t1.users == t.users && t1.records == t.records
            && x.domain in t1.domains && t1.domains[x.domain].owner == x.owner
               && t1.domains[x.domain].status != DeletedDomain
  {
    SavedUnmanaged(t, x.domain, decision, reach, now);
    SaveDnsOnly(t, x.domain, decision, reach, now);
    SaveKeepsDomain(t, x.domain, decision, reach, now);
    SameLedgers(t, SaveDns(t, x.domain, decision, reach, now), x);
  }

  /** Finding the record again, then deleting its domain, loses it: for every state, every
      such synchronisation and every answer of the provider. */
  lemma RecheckLoses(t: Tables, sync: Op, who: AuthContext, key: Option<string>, outcome: ProviderOutcome, x: Managed)
    requires Inv(t) && Tracked(t, x) && !Accounted(t, x) && who.user == x.owner && Rechecks(t, sync, x)
    requires forall k :: k in t.records ==> k.endpoint != DeleteDomainAt(x.domain)
    ensures var t2 := DeleteDomain(Rechecked(t, sync), who, x.domain, key).0;
            var t3 := CleanUpDomain(t2, x.domain, outcome, 3).0;
            Lost(t3, x)
  {
    RecheckLeaves(t, sync, x);
    DeleteThenCleanUp(Rechecked(t, sync), who, key, outcome, x);
  }

  // ---------- a concrete run ----------

  const SPEC := DnsSpec("CNAME", "frp.example.com", 300)

  /** User 1 has domain 4 on mapping 2; row 5 is the record that the panel created. */
  function WithRecord(): Tables {
    Initial("").(
      nextId := 100,
      users := People(Ann(), Bob()),
      mappings := map[2 := Mapping(1, "web", Http, Running, true, ObservedRunning, Some(3), None)],
      revisions := map[3 := Revision(2, 1, "127.0.0.1", 80, None, Active)],
      domains := map[4 := Domain(1, 2, "www.example.com", HttpOnly, PendingRouter)],
      dns := map[5 := DnsRow(1, Some(4), ExternalRef("zone", "record"), SPEC, true, false, 0)])
  }

  const OWN := Managed(1, 4, ExternalRef("zone", "record"))

  /** What the service itself queues for a domain that waits for the router. */
  const RECHECK := SyncDnsOp(
    4, SPEC, Check,
    Answers(TokenUsable, Told(Some("zone")), Told([Listed("record", "CNAME", "frp.example.com", false, 300)]),
            Unavailable), 3, 1)

  lemma WithRecordRevisions()
    ensures RevisionRules(WithRecord().mappings, WithRecord().revisions)
  {
    OneRunning(WithRecord().mappings, WithRecord().revisions, 2, 3);
  }

  lemma WithRecordSides()
    ensures LeaseRules(WithRecord().mappings, WithRecord().revisions, WithRecord().leases) && SideRules(WithRecord())
  {
    NothingLeased(WithRecord());
    SidesOfOne(WithRecord(), Ann(), Bob(), 2, 3);
  }

  lemma WithRecordAccounts()
    ensures AuthInv(WithRecord())
  {
    PeopleDiffer(Ann(), Bob());
    NobodyLoggedIn(WithRecord());
  }

  lemma WithRecordDomains()
    ensures DomainInv(WithRecord())
  {
  }

  lemma WithRecordInv()
    ensures Inv(WithRecord())
  {
    WithRecordRevisions();
    WithRecordSides();
    WithRecordAccounts();
    WithRecordDomains();
    MakeInv(WithRecord());
  }

  lemma WithRecordTracked()
    ensures Tracked(WithRecord(), OWN) && !Accounted(WithRecord(), OWN)
  {
    assert Tracks(WithRecord().dns, OWN, 5);
  }

  lemma RecheckFinds(want: Listed)
    requires want == Listed("", "CNAME", "frp.example.com", false, 300)
    ensures var found := Listed("record", "CNAME", "frp.example.com", false, 300);
            FirstMatch([found], want, false) == Some(found) && !Differs(found, want)
  {
  }

  lemma RecheckLists(t: Tables)
    requires t == WithRecord()
    ensures ListsOwn(t, OWN, RECHECK.fallback, RECHECK.answers, false)
  {
    WithRecordTracked();
    WithRecordDomains();
    TrackedIsLatest(t, OWN);
    RecheckFinds(Wanted(LatestRow(t.dns, 4), t.domains[4].mode, SPEC));
  }

  lemma SyncIsStep(t: Tables, cfg: Config, sync: Op)
    requires sync.SyncDnsOp?
    ensures Exec(t, cfg, sync).0 == Rechecked(t, sync)
  {
  }

  lemma DeleteIsStep(t: Tables, cfg: Config, who: AuthContext, d: Id, key: Option<string>)
    ensures Exec(t, cfg, DeleteDomainOp(who, d, key)).0 == DeleteDomain(t, who, d, key).0
  {
  }

  lemma CleanUpIsStep(t: Tables, cfg: Config, d: Id, outcome: ProviderOutcome)
    ensures Exec(t, cfg, DeleteDomainJob(d, outcome, 3)).0 == CleanUpDomain(t, d, outcome, 3).0
  {
  }

  ghost function Third(t: Tables, cfg: Config, a: Op, b: Op, c: Op): Tables {
    Exec(Exec(Exec(t, cfg, a).0, cfg, b).0, cfg, c).0
  }

  lemma RunOfThree(t: Tables, cfg: Config, ops: seq<Op>)
    requires |ops| == 3
    ensures Run(t, cfg, ops) == Third(t, cfg, ops[0], ops[1], ops[2])
  {
    var t1 := Exec(t, cfg, ops[0]).0;
    var t2 := Exec(t1, cfg, ops[1]).0;
    assert Run(t1, cfg, ops[1..]) == Run(t2, cfg, ops[1..][1..]);
    assert Run(t2, cfg, ops[1..][1..]) == Run(Exec(t2, cfg, ops[2]).0, cfg, ops[1..][1..][1..]);
  }

  lemma ThirdLoses(t: Tables, cfg: Config, sync: Op, who: AuthContext, key: Option<string>, outcome: ProviderOutcome,
                   x: Managed)
    requires Inv(t) && Tracked(t, x) && !Accounted(t, x) && who.user == x.owner && Rechecks(t, sync, x)
    requires forall k :: k in t.records ==> k.endpoint != DeleteDomainAt(x.domain)
    ensures Lost(Third(t, cfg, sync, DeleteDomainOp(who, x.domain, key), DeleteDomainJob(x.domain, outcome, 3)), x)
  {
    SyncIsStep(t, cfg, sync);
    DeleteIsStep(Rechecked(t, sync), cfg, who, x.domain, key);
    CleanUpIsStep(DeleteDomain(Rechecked(t, sync), who, x.domain, key).0, cfg, x.domain, outcome);
    RecheckLoses(t, sync, who, key, outcome, x);
  }

  /** The run is such a synchronisation, the owner's deletion of the domain, and its job. */
  ghost predicate Loses(t: Tables, ops: seq<Op>, x: Managed) {
    && Inv(t) && Tracked(t, x) && !Accounted(t, x)
    && (forall k :: k in t.records ==> k.endpoint != DeleteDomainAt(x.domain))
    && |ops| == 3 && Rechecks(t, ops[0], x)
    && ops[1].DeleteDomainOp? && ops[1].who.user == x.owner && ops[1].domain == x.domain
    && ops[2].DeleteDomainJob? && ops[2].domain == x.domain && ops[2].reach == 3
  }

  /** Every such run ends without the domain, and with nothing that remembers its record. */
  lemma RunLoses(t: Tables, cfg: Config, ops: seq<Op>, x: Managed)
    requires Loses(t, ops, x)
    ensures Lost(Run(t, cfg, ops), x)
  {
    ThirdLoses(t, cfg, ops[0], ops[1].who, ops[1].key, ops[2].outcome, x);
    RunOfThree(t, cfg, ops);
  }

  function LosingRun(outcome: ProviderOutcome): seq<Op> {
    [RECHECK, DeleteDomainOp(AuthContext(1, false, 1, 0), 4, None), DeleteDomainJob(4, outcome, 3)]
  }

  lemma RecheckRechecks(t: Tables, sync: Op)
    requires t == WithRecord() && sync.SyncDnsOp? && sync.domain == 4 && sync.action == Check && sync.reach == 3
    requires ListsOwn(t, OWN, sync.fallback, sync.answers, false)
    ensures Rechecks(t, sync, OWN)
  {
  }

  lemma Losing(t: Tables, ops: seq<Op>, x: Managed)
    requires Inv(t) && Tracked(t, x) && !Accounted(t, x) && t.records == map[] && |ops| == 3 && Rechecks(t, ops[0], x)
    requires ops[1].DeleteDomainOp? && ops[1].who.user == x.owner && ops[1].domain == x.domain
    requires ops[2].DeleteDomainJob? && ops[2].domain == x.domain && ops[2].reach == 3
    ensures Loses(t, ops, x)
  {
  }

  lemma LosingRunLoses(t: Tables, outcome: ProviderOutcome)
    requires t == WithRecord()
    ensures Loses(t, LosingRun(outcome), OWN)
  {
    WithRecordInv();
    WithRecordTracked();
    RecheckLists(t);
    RecheckRechecks(t, RECHECK);
    LosingRunShape(t, LosingRun(outcome), outcome);
    Losing(t, LosingRun(outcome), OWN);
  }

  lemma LosingRunShape(t: Tables, ops: seq<Op>, outcome: ProviderOutcome)
    requires t == WithRecord() && ops == LosingRun(outcome)
    ensures t.records == map[] && |ops| == 3 && ops[0] == RECHECK
    ensures ops[1].DeleteDomainOp? && ops[1].who.user == OWN.owner && ops[1].domain == OWN.domain
    ensures ops[2].DeleteDomainJob? && ops[2].domain == OWN.domain && ops[2].reach == 3
  {
  }

  /** The check that the service queues by itself, and then the user's deletion of the
      domain, leave the record at the provider, with nothing that remembers it. */
  lemma RecordLost(t: Tables, cfg: Config, ops: seq<Op>, outcome: ProviderOutcome)
    requires t == WithRecord() && ops == LosingRun(outcome)
    ensures Inv(t) && Tracked(t, OWN) && Lost(Run(t, cfg, ops), OWN)
  {
    LosingRunLoses(t, outcome);
    RunLoses(t, cfg, ops, OWN);
  }
}
