/** The records that synchronisations write at the provider for the panel, from the moment
    they are there. When the panel's memory of all of them is complete: while no step forgets
    one, and none ends between writing a record and storing its row. */
module ClaimedRecords {
  import opened Wrappers
  import opened Schema
  import opened Mappings
  import opened MappingInvariants
  import opened Identity
  import opened DnsSync
  import opened Domains
  import opened Service
  import opened Invariants
  import opened DomainInvariants
  import opened Decay
  import opened Compensation

  /** The record that the step makes the panel's own: the provider wrote it on the panel's
      request, or it is to be resynchronised. */
  ghost function Claimed(t: Tables, op: Op): Option<Managed> {
    if !op.SyncDnsOp? || op.domain !in t.domains || Leaving(t.domains[op.domain].status) then None
    else
      var decision := SyncDecision(t, op.domain, op.fallback, op.action, op.answers);
      if decision.Save? && decision.managed
      then Some(Managed(t.domains[op.domain].owner, op.domain, ExternalRef(decision.zone, decision.record.id)))
      else None
  }

  /** The step leaves record x without anything that remembers it: it forgets x, or claims x
      and does not store a row that names its zone. */
  ghost predicate Leaks(t: Tables, op: Op, x: Managed) {
    if Remembered(t, x) then Forgets(t, op, x)
    else Claimed(t, op) == Some(x) && (op.reach < 2 || x.external.zone == "")
  }

  lemma ChosenHasId(zone: string, records: seq<Listed>, want: Listed, action: SyncAction, answer: Told<Listed>)
    ensures var save := Choose(zone, records, want, action, answer); save.Save? ==> save.record.id != ""
  {
  }

  lemma DecidedHasId(row: Option<DnsRow>, mode: HttpsMode, fallback: DnsSpec, action: SyncAction, answers: Answers)
    ensures var save := Decide(row, mode, fallback, action, answers); save.Save? ==> save.record.id != ""
  {
    if answers.zone.Told? && answers.zone.value.Some? && answers.records.Told? {
      ChosenHasId(answers.zone.value.value, answers.records.value, Wanted(row, mode, fallback), action,
                  answers.upserted);
    }
  }

  lemma InsertedTracks(t: Tables, row: DnsRow, x: Managed)
    requires row.domain == Some(x.domain) && row.owner == x.owner && row.external == x.external && !Accounted(t, x)
    ensures Remembered(ReplaceDnsRow(t, x.domain, row), x) <==> PanelManaged(row)
  {
    var t2 := ReplaceDnsRow(t, x.domain, row);
    SameLedgers(t, t2, x);
    TrackedAfterInsert(ClearDns(t, x.domain), x, t2, row);
  }

  lemma SaveStores(t: Tables, decision: Decision, reach: nat, now: int, x: Managed)
    requires x.domain in t.domains && t.domains[x.domain].owner == x.owner && decision.Save? && decision.managed
    requires decision.record.id != "" && x.external == ExternalRef(decision.zone, decision.record.id)
             && !Remembered(t, x)
    ensures Remembered(SaveDns(t, x.domain, decision, reach, now), x) <==> reach >= 2 && x.external.zone != ""
  {
    ClearedForgets(t, x);
    if reach >= 2 {
      SavedAlike(t, x.domain, decision, reach, now, x);
      InsertedTracks(t, SavedRow(t.domains[x.domain], x.domain, decision, now), x);
    }
  }

  lemma ClaimStores(t: Tables, cfg: Config, op: Op, x: Managed)
    requires Claimed(t, op) == Some(x) && !Remembered(t, x)
    ensures Remembered(Exec(t, cfg, op).0, x) <==> !Leaks(t, op, x)
  {
    var d := op.domain;
    var decision := SyncDecision(t, d, op.fallback, op.action, op.answers);
    DecidedHasId(LatestRow(t.dns, d), t.domains[d].mode, op.fallback, op.action, op.answers);
    SaveStores(t, decision, op.reach, op.now, x);
    SyncIs(t, cfg, op);
  }

  lemma SyncIs(t: Tables, cfg: Config, op: Op)
    requires op.SyncDnsOp?
    ensures Exec(t, cfg, op).0 == SyncDns(t, op.domain, op.fallback, op.action, op.answers, op.reach, op.now)
  {
  }

  /** A record that was remembered, or is claimed in the step, is remembered after it iff the
      step does not leak it. */
  lemma StepLeaksIff(t: Tables, cfg: Config, op: Op, x: Managed)
    requires Inv(t) && (Remembered(t, x) || Claimed(t, op) == Some(x))
    ensures Remembered(Exec(t, cfg, op).0, x) <==> !Leaks(t, op, x)
  {
    if Remembered(t, x) { StepRemembersIff(t, cfg, op, x); } else { ClaimStores(t, cfg, op, x); }
  }

  // ---------- runs ----------

  ghost predicate Complete(t: Tables, xs: set<Managed>) { forall x :: x in xs ==> Remembered(t, x) }

  ghost function WithClaim(xs: set<Managed>, t: Tables, op: Op): set<Managed> {
    var claimed := Claimed(t, op);
    if claimed.Some? then xs + {claimed.value} else xs
  }

  /** In every state of the run, all records in xs and all claimed since are remembered. */
  ghost predicate CompleteThroughout(t: Tables, cfg: Config, ops: seq<Op>, xs: set<Managed>)
    decreases |ops|
  {
    Complete(t, xs)
    && (ops == [] || CompleteThroughout(Exec(t, cfg, ops[0]).0, cfg, ops[1..], WithClaim(xs, t, ops[0])))
  }

  ghost predicate NeverLeaks(t: Tables, cfg: Config, ops: seq<Op>, xs: set<Managed>)
    decreases |ops|
  {
    ops == []
    || ((forall x :: x in WithClaim(xs, t, ops[0]) ==> !Leaks(t, ops[0], x))
        && NeverLeaks(Exec(t, cfg, ops[0]).0, cfg, ops[1..], WithClaim(xs, t, ops[0])))
  }

  lemma StepCompleteIff(t: Tables, cfg: Config, op: Op, xs: set<Managed>)
    requires Inv(t) && Complete(t, xs)
    ensures Complete(Exec(t, cfg, op).0, WithClaim(xs, t, op))
            <==> forall x :: x in WithClaim(xs, t, op) ==> !Leaks(t, op, x)
  {
    forall x | x in WithClaim(xs, t, op) ensures Remembered(Exec(t, cfg, op).0, x) <==> !Leaks(t, op, x) {
      StepLeaksIff(t, cfg, op, x);
    }
  }

  /** Over any run the memory of all claimed records is complete in every state iff no step
      leaks one. */
  lemma {:induction false} CompleteThroughoutIff(t: Tables, cfg: Config, ops: seq<Op>, xs: set<Managed>)
    requires Inv(t) && Complete(t, xs)
    ensures CompleteThroughout(t, cfg, ops, xs) <==> NeverLeaks(t, cfg, ops, xs)
    decreases |ops|
  {
    if ops != [] {
      var t1, xs1 := Exec(t, cfg, ops[0]).0, WithClaim(xs, t, ops[0]);
      StepCompleteIff(t, cfg, ops[0], xs);
      ExecKeepsInv(t, cfg, ops[0]);
      if Complete(t1, xs1) { CompleteThroughoutIff(t1, cfg, ops[1..], xs1); }
    }
  }

  // ---------- a record whose row was never stored ----------

  /** The check that is tried again finds the record, as the panel wanted it. */
  ghost predicate FindsUnstored(t: Tables, op: Op, x: Managed) {
    && op.SyncDnsOp? && op.action == Check && op.domain == x.domain
    && ListsOwn(t, x, op.fallback, op.answers, false) && x.external.record != ""
  }

  lemma FoundIsNotManaged(t: Tables, op: Op, x: Managed)
    requires FindsUnstored(t, op, x)
    ensures var decision := SyncDecision(t, x.domain, op.fallback, op.action, op.answers);
            decision.Save? && !decision.managed
  {
  }

  lemma UnmanagedForgets(t: Tables, d: Id, decision: Decision, reach: nat, now: int, x: Managed)
    requires DomainInv(t) && d == x.domain && d in t.domains && t.domains[d].owner == x.owner
    requires decision.Save? && !decision.managed && !Remembered(t, x)
    ensures !Remembered(SaveDns(t, d, decision, reach, now), x)
  {
    ClearedForgets(t, x);
    if reach >= 2 {
      var row := SavedRow(t.domains[d], d, decision, now);
      SavedAlike(t, d, decision, reach, now, x);
      SameLedgers(t, ReplaceDnsRow(t, d, row), x);
      TrackedAfterInsert(ClearDns(t, d), x, ReplaceDnsRow(t, d, row), row);
    }
  }

  /** It takes the record for one that was there before: what was leaked stays forgotten. */
  lemma RetryAdopts(t: Tables, cfg: Config, op: Op, x: Managed)
    requires Inv(t) && FindsUnstored(t, op, x) && t.domains[x.domain].owner == x.owner && !Remembered(t, x)
    ensures !Remembered(Exec(t, cfg, op).0, x)
  {
    DomainPart(t);
    SyncIs(t, cfg, op);
    FoundIsNotManaged(t, op, x);
    UnmanagedForgets(t, x.domain, SyncDecision(t, x.domain, op.fallback, op.action, op.answers), op.reach, op.now, x);
  }
}
