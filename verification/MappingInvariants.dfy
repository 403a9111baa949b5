/** Invariants of the mapping, revision and port-lease tables, and the proof that
    every mapping operation keeps them. */
module MappingInvariants {
  import opened Wrappers
  import opened Schema
  import opened Mappings

  // ---------- the invariant, one predicate per concern ----------

  /** A mapping's pointers name revisions of its own. */
  ghost predicate Pointers(mappings: map<Id, Mapping>, revisions: map<Id, Revision>) {
    forall m {:trigger mappings[m]} :: m in mappings ==>
      && (mappings[m].active.Some? ==>
            mappings[m].active.value in revisions && revisions[mappings[m].active.value].mapping == m)
      && (mappings[m].pending.Some? ==>
            mappings[m].pending.value in revisions && revisions[mappings[m].pending.value].mapping == m)
  }

  /** A revision is active, or pending, exactly if its mapping points to it as such. */
  ghost predicate Statuses(mappings: map<Id, Mapping>, revisions: map<Id, Revision>) {
    forall m, r :: m in mappings && r in revisions && revisions[r].mapping == m ==>
      && (revisions[r].status == Active <==> mappings[m].active == Some(r))
      && (revisions[r].status == Pending <==> mappings[m].pending == Some(r))
  }

  /** Every revision has a mapping; two of the statuses of the schema are never stored. */
  ghost predicate Parents(mappings: map<Id, Mapping>, revisions: map<Id, Revision>) {
    forall r {:trigger revisions[r]} :: r in revisions ==>
      && revisions[r].mapping in mappings
      && revisions[r].status != Applying && revisions[r].status != RolledBack
  }

  function UpTo(n: int): (s: set<int>)
    ensures forall k :: k in s <==> 1 <= k <= n
  {
    if n <= 0 then {} else UpTo(n - 1) + {n}
  }

  /** The revision numbers of mapping m are exactly 1..n for some n >= 1, and its
      pending revision has the largest. */
  ghost predicate NumberedFromOne(revisions: map<Id, Revision>, m: Id, pending: Option<Id>) {
    var numbers := Numbers(revisions, m);
    && 1 in numbers && numbers == UpTo(Largest(numbers))
    && (pending.Some? && pending.value in revisions ==> revisions[pending.value].number == Largest(numbers))
  }

  ghost predicate DistinctNumbers(revisions: map<Id, Revision>) {
    forall r, q | r in revisions && q in revisions ::
      revisions[r].mapping == revisions[q].mapping && revisions[r].number == revisions[q].number ==> r == q
  }

  ghost predicate Numbered(mappings: map<Id, Mapping>, revisions: map<Id, Revision>) {
    forall m :: m in mappings ==> NumberedFromOne(revisions, m, mappings[m].pending)
  }

  /** No port has two leases, and no mapping two leases of one role. */
  ghost predicate LeasesDistinct(leases: map<Id, Lease>) {
    && (forall l, k | l in leases && k in leases :: leases[l].port == leases[k].port ==> l == k)
    && (forall l, k | l in leases && k in leases ::
          leases[l].mapping == leases[k].mapping && leases[l].role == leases[k].role ==> l == k)
  }

  /** A lease names a revision of its own mapping and holds that revision's port. */
  ghost predicate LeasesAnchored(mappings: map<Id, Mapping>, revisions: map<Id, Revision>, leases: map<Id, Lease>) {
    forall l {:trigger leases[l]} :: l in leases ==>
      && leases[l].mapping in mappings && leases[l].revision in revisions
      && revisions[leases[l].revision].mapping == leases[l].mapping
      && revisions[leases[l].revision].port == Some(leases[l].port)
  }

  /** A pending lease names its mapping's pending revision; an active lease names the
      active revision if there is one. */
  ghost predicate LeaseRoles(mappings: map<Id, Mapping>, leases: map<Id, Lease>) {
    forall l {:trigger leases[l]} :: l in leases && leases[l].mapping in mappings ==>
      && (leases[l].role == PendingRole ==> mappings[leases[l].mapping].pending == Some(leases[l].revision))
      && (leases[l].role == ActiveRole && mappings[leases[l].mapping].active.Some? ==>
            mappings[leases[l].mapping].active.value == leases[l].revision)
  }

  ghost predicate LeaseRules(mappings: map<Id, Mapping>, revisions: map<Id, Revision>, leases: map<Id, Lease>) {
    LeasesDistinct(leases) && LeasesAnchored(mappings, revisions, leases) && LeaseRoles(mappings, leases)
  }

  ghost predicate RevisionRules(mappings: map<Id, Mapping>, revisions: map<Id, Revision>) {
    && Pointers(mappings, revisions) && Statuses(mappings, revisions) && Parents(mappings, revisions)
    && Numbered(mappings, revisions) && DistinctNumbers(revisions)
  }

  /** `deleted` is never stored, and a mapping that is disabled or being deleted is
      not wanted. */
  ghost predicate Lifecycles(mappings: map<Id, Mapping>) {
    forall m :: m in mappings ==>
      && mappings[m].lifecycle != Deleted
      && (mappings[m].lifecycle == Disabled || mappings[m].lifecycle == Deleting ==> !mappings[m].enabled)
  }

  ghost predicate Owned(users: map<Id, User>, mappings: map<Id, Mapping>) {
    forall m :: m in mappings ==> mappings[m].owner in users
  }

  ghost predicate Versions(users: map<Id, User>) {
    forall u :: u in users ==> users[u].applied <= users[u].desired
  }

  ghost predicate MappingIdsBelow(t: Tables) {
    && (forall m :: m in t.mappings ==> m < t.nextId)
    && (forall r :: r in t.revisions ==> r < t.nextId)
    && (forall l :: l in t.leases ==> l < t.nextId)
    && (forall u :: u in t.users ==> u < t.nextId)
  }

  ghost predicate SideRules(t: Tables) {
    Lifecycles(t.mappings) && Owned(t.users, t.mappings) && Versions(t.users) && MappingIdsBelow(t)
  }

  ghost predicate MappingInv(t: Tables) {
    && RevisionRules(t.mappings, t.revisions)
    && LeaseRules(t.mappings, t.revisions, t.leases)
    && SideRules(t)
  }

  // ---------- adding a revision (create and update) ----------

  function PendingOf(mappings: map<Id, Mapping>, m: Id): Option<Id> {
    if m in mappings then mappings[m].pending else None
  }

  function ActiveOf(mappings: map<Id, Mapping>, m: Id): Option<Id> {
    if m in mappings then mappings[m].active else None
  }

  /** `row` becomes mapping m with `rev`, numbered after its other revisions, pending;
      what was pending is superseded. A create is the case where m is new. */
  ghost predicate AddsRevision(mappings: map<Id, Mapping>, revisions: map<Id, Revision>,
                               m: Id, row: Mapping, r: Id, rev: Revision) {
    && r !in revisions
    && row.active == ActiveOf(mappings, m) && row.pending == Some(r)
    && rev.mapping == m && rev.status == Pending && rev.number == NextNumber(revisions, m)
  }

  lemma AddRevisionPointers(mappings: map<Id, Mapping>, revisions: map<Id, Revision>,
                            m: Id, row: Mapping, r: Id, rev: Revision)
    requires Pointers(mappings, revisions) && AddsRevision(mappings, revisions, m, row, r, rev)
    ensures Pointers(mappings[m := row], SupersedePending(revisions, PendingOf(mappings, m))[r := rev])
  {
  }

  lemma AddRevisionStatuses(mappings: map<Id, Mapping>, revisions: map<Id, Revision>,
                            m: Id, row: Mapping, r: Id, rev: Revision)
    requires Pointers(mappings, revisions) && Statuses(mappings, revisions) && Parents(mappings, revisions)
    requires AddsRevision(mappings, revisions, m, row, r, rev)
    ensures Statuses(mappings[m := row], SupersedePending(revisions, PendingOf(mappings, m))[r := rev])
  {
  }

  lemma AddRevisionParents(mappings: map<Id, Mapping>, revisions: map<Id, Revision>,
                           m: Id, row: Mapping, r: Id, rev: Revision)
    requires Parents(mappings, revisions) && AddsRevision(mappings, revisions, m, row, r, rev)
    ensures Parents(mappings[m := row], SupersedePending(revisions, PendingOf(mappings, m))[r := rev])
  {
  }

  /** Numbers depend only on which revisions a mapping has and how they are numbered. */
  lemma SameNumbers(revisions: map<Id, Revision>, revisions': map<Id, Revision>, m: Id)
    requires forall r :: r in revisions && revisions[r].mapping == m ==>
      r in revisions' && revisions'[r].mapping == m && revisions'[r].number == revisions[r].number
    requires forall r :: r in revisions' && revisions'[r].mapping == m ==> r in revisions && revisions[r].mapping == m
    ensures Numbers(revisions', m) == Numbers(revisions, m)
  {
    forall k | k in Numbers(revisions, m) ensures k in Numbers(revisions', m) {
      var r :| r in revisions && revisions[r].mapping == m && revisions[r].number == k;
      assert revisions'[r].number == k;
    }
  }

  /** The remaining mappings keep all their revisions, with their numbers; what is
      pending afterwards was pending before. */
  ghost predicate SameNumbering(mappings: map<Id, Mapping>, revisions: map<Id, Revision>,
                                mappings': map<Id, Mapping>, revisions': map<Id, Revision>) {
    && mappings'.Keys <= mappings.Keys
    && (forall r :: r in revisions' ==>
          r in revisions && revisions'[r].mapping == revisions[r].mapping
              && revisions'[r].number == revisions[r].number)
    && (forall r :: r in revisions && revisions[r].mapping in mappings' ==> r in revisions')
    && (forall m :: m in mappings' && mappings'[m].pending.Some? && mappings'[m].pending.value in revisions' ==>
          mappings'[m].pending == mappings[m].pending)
  }

  lemma NumberedAlike(mappings: map<Id, Mapping>, revisions: map<Id, Revision>,
                      mappings': map<Id, Mapping>, revisions': map<Id, Revision>)
    requires Numbered(mappings, revisions) && SameNumbering(mappings, revisions, mappings', revisions')
    ensures Numbered(mappings', revisions')
  {
    forall m | m in mappings' ensures Numbers(revisions', m) == Numbers(revisions, m) {
      SameNumbers(revisions, revisions', m);
    }
  }

  /** The new revision's number extends its mapping's numbers by one. */
  lemma NumbersGrow(revisions: map<Id, Revision>, p: Option<Id>, m: Id, r: Id, rev: Revision)
    requires r !in revisions && rev.mapping == m
    ensures Numbers(SupersedePending(revisions, p)[r := rev], m) == Numbers(revisions, m) + {rev.number}
    ensures forall x :: x != m ==> Numbers(SupersedePending(revisions, p)[r := rev], x) == Numbers(revisions, x)
  {
    var superseded := SupersedePending(revisions, p);
    var revisions' := superseded[r := rev];
    forall x ensures Numbers(superseded, x) == Numbers(revisions, x) {
      SameNumbers(revisions, superseded, x);
    }
    forall k | k in Numbers(superseded, m) + {rev.number} ensures k in Numbers(revisions', m) {
      if k == rev.number {
        assert revisions'[r].number == k;
      } else {
        var q :| q in superseded && superseded[q].mapping == m && superseded[q].number == k;
        assert revisions'[q].number == k;
      }
    }
    forall x | x != m ensures Numbers(revisions', x) == Numbers(superseded, x) {
      SameNumbers(superseded, revisions', x);
    }
  }

  lemma LargestUpTo(n: int)
    requires n >= 1
    ensures Largest(UpTo(n)) == n
  {
    assert n in UpTo(n);
  }

  lemma NumberedGrows(revisions: map<Id, Revision>, p: Option<Id>, m: Id, r: Id, rev: Revision)
    requires r !in revisions && rev.mapping == m && rev.number == Largest(Numbers(revisions, m)) + 1
    requires Numbers(revisions, m) == UpTo(rev.number - 1) && rev.number >= 1
    ensures NumberedFromOne(SupersedePending(revisions, p)[r := rev], m, Some(r))
  {
    NumbersGrow(revisions, p, m, r, rev);
    LargestUpTo(rev.number);
  }

  lemma NumberedElsewhere(revisions: map<Id, Revision>, p: Option<Id>, m: Id, r: Id, rev: Revision, x: Id,
                          pending: Option<Id>)
    requires r !in revisions && rev.mapping == m && x != m
    requires pending.Some? ==> pending.value in revisions
    requires NumberedFromOne(revisions, x, pending)
    ensures NumberedFromOne(SupersedePending(revisions, p)[r := rev], x, pending)
  {
    NumbersGrow(revisions, p, m, r, rev);
  }

  lemma AddRevisionNumbered(mappings: map<Id, Mapping>, revisions: map<Id, Revision>,
                            m: Id, row: Mapping, r: Id, rev: Revision)
    requires Parents(mappings, revisions) && Pointers(mappings, revisions) && Numbered(mappings, revisions)
    requires AddsRevision(mappings, revisions, m, row, r, rev)
    ensures Numbered(mappings[m := row], SupersedePending(revisions, PendingOf(mappings, m))[r := rev])
  {
    var p, mappings' := PendingOf(mappings, m), mappings[m := row];
    forall x | x in mappings'
      ensures NumberedFromOne(SupersedePending(revisions, p)[r := rev], x, mappings'[x].pending)
    {
      if x != m {
        NumberedElsewhere(revisions, p, m, r, rev, x, mappings[x].pending);
      } else {
        assert Numbers(revisions, m) == UpTo(rev.number - 1) && rev.number >= 1 by {
          if m in mappings { assert NumberedFromOne(revisions, m, mappings[m].pending); }
          else { assert Numbers(revisions, m) == {}; }
        }
        NumberedGrows(revisions, p, m, r, rev);
      }
    }
  }

  lemma AddRevisionDistinct(mappings: map<Id, Mapping>, revisions: map<Id, Revision>,
                            m: Id, row: Mapping, r: Id, rev: Revision)
    requires DistinctNumbers(revisions) && AddsRevision(mappings, revisions, m, row, r, rev)
    ensures DistinctNumbers(SupersedePending(revisions, PendingOf(mappings, m))[r := rev])
  {
    assert forall q :: q in revisions && revisions[q].mapping == m ==> revisions[q].number in Numbers(revisions, m);
  }

  lemma AddRevisionKeepsRules(mappings: map<Id, Mapping>, revisions: map<Id, Revision>,
                              m: Id, row: Mapping, r: Id, rev: Revision)
    requires RevisionRules(mappings, revisions)
    requires AddsRevision(mappings, revisions, m, row, r, rev)
    ensures RevisionRules(mappings[m := row], SupersedePending(revisions, PendingOf(mappings, m))[r := rev])
  {
    AddRevisionPointers(mappings, revisions, m, row, r, rev);
    AddRevisionStatuses(mappings, revisions, m, row, r, rev);
    AddRevisionParents(mappings, revisions, m, row, r, rev);
    AddRevisionNumbered(mappings, revisions, m, row, r, rev);
    AddRevisionDistinct(mappings, revisions, m, row, r, rev);
  }

  lemma CreatedLeases(t: Tables, user: Id, req: MappingRequest, port: Option<int>, k: RecordKey)
    requires LeaseRules(t.mappings, t.revisions, t.leases) && MappingIdsBelow(t)
    requires port.Some? ==> !Leased(t.leases, port.value)
    ensures var t' := Created(t, user, req, port, k);
            LeasesDistinct(t'.leases) && LeaseRoles(t'.mappings, t'.leases)
  {
  }

  lemma CreatedAnchors(t: Tables, user: Id, req: MappingRequest, port: Option<int>, k: RecordKey)
    requires LeasesAnchored(t.mappings, t.revisions, t.leases) && MappingIdsBelow(t)
    ensures var t' := Created(t, user, req, port, k); LeasesAnchored(t'.mappings, t'.revisions, t'.leases)
  {
  }

  lemma CreatedSideRules(t: Tables, user: Id, req: MappingRequest, port: Option<int>, k: RecordKey)
    requires SideRules(t) && user in t.users
    ensures SideRules(Created(t, user, req, port, k))
  {
  }

  lemma NoNumbersYet(mappings: map<Id, Mapping>, revisions: map<Id, Revision>, m: Id)
    requires Parents(mappings, revisions) && m !in mappings
    ensures Numbers(revisions, m) == {}
  {
  }

  lemma CreatedAddsRevision(t: Tables, user: Id, req: MappingRequest, port: Option<int>, k: RecordKey)
    requires Parents(t.mappings, t.revisions) && t.nextId + 1 !in t.mappings && t.nextId + 2 !in t.revisions
    ensures var m, r := t.nextId + 1, t.nextId + 2;
            var row, rev := NewMapping(user, req, r), NewRevision(m, 1, req, port);
            var t' := Created(t, user, req, port, k);
            && AddsRevision(t.mappings, t.revisions, m, row, r, rev)
            && t'.mappings == t.mappings[m := row]
            && t'.revisions == SupersedePending(t.revisions, PendingOf(t.mappings, m))[r := rev]
  {
    NoNumbersYet(t.mappings, t.revisions, t.nextId + 1);
    assert Largest({}) == 0;
  }

  lemma CreatedRevisionRules(t: Tables, user: Id, req: MappingRequest, port: Option<int>, k: RecordKey)
    requires RevisionRules(t.mappings, t.revisions) && t.nextId + 1 !in t.mappings && t.nextId + 2 !in t.revisions
    ensures var t' := Created(t, user, req, port, k); RevisionRules(t'.mappings, t'.revisions)
  {
    var m, r := t.nextId + 1, t.nextId + 2;
    CreatedAddsRevision(t, user, req, port, k);
    AddRevisionKeepsRules(t.mappings, t.revisions, m, NewMapping(user, req, r), r, NewRevision(m, 1, req, port));
  }

  lemma CreatedKeepsInv(t: Tables, user: Id, req: MappingRequest, port: Option<int>, k: RecordKey)
    requires MappingInv(t) && user in t.users
    requires port.Some? ==> !Leased(t.leases, port.value)
    ensures MappingInv(Created(t, user, req, port, k))
  {
    CreatedRevisionRules(t, user, req, port, k);
    CreatedLeases(t, user, req, port, k);
    CreatedAnchors(t, user, req, port, k);
    CreatedSideRules(t, user, req, port, k);
  }

  lemma CreateKeepsInv(t: Tables, cfg: Config, who: AuthContext, req: MappingRequest, key: Option<string>)
    requires MappingInv(t)
    ensures MappingInv(CreateMapping(t, cfg, who, req, key).0)
  {
    var k := RecordKey(who.user, who.generation, CreateMappingAt, KeyOf(key, t.nextId));
    if CreateMapping(t, cfg, who, req, key).0 != t {
      CreatedKeepsInv(t, who.user, req, ChosenPort(t, cfg, req), k);
    }
  }

  lemma UpdatedLeases(t: Tables, m: Id, req: MappingRequest, port: Option<int>, k: RecordKey)
    requires m in t.mappings && MappingIdsBelow(t)
    requires LeasesDistinct(t.leases) && LeaseRoles(t.mappings, t.leases)
    requires NeedsLease(t, t.mappings[m], port) ==>
      !Leased(DropPendingLease(t.leases, t.mappings[m].pending), port.value)
    ensures LeasesDistinct(Updated(t, m, req, port, k).leases)
  {
    var kept := DropPendingLease(t.leases, t.mappings[m].pending);
    assert forall l :: l in kept && kept[l].mapping == m ==> kept[l].role == ActiveRole;
  }

  lemma UpdatedRoles(t: Tables, m: Id, req: MappingRequest, port: Option<int>, k: RecordKey)
    requires m in t.mappings && MappingIdsBelow(t) && LeaseRoles(t.mappings, t.leases)
    ensures var t' := Updated(t, m, req, port, k); LeaseRoles(t'.mappings, t'.leases)
  {
  }

  lemma UpdatedAnchors(t: Tables, m: Id, req: MappingRequest, port: Option<int>, k: RecordKey)
    requires m in t.mappings && MappingIdsBelow(t) && LeasesAnchored(t.mappings, t.revisions, t.leases)
    ensures var t' := Updated(t, m, req, port, k); LeasesAnchored(t'.mappings, t'.revisions, t'.leases)
  {
  }

  lemma UpdatedSideRules(t: Tables, m: Id, req: MappingRequest, port: Option<int>, k: RecordKey)
    requires m in t.mappings && SideRules(t)
    ensures SideRules(Updated(t, m, req, port, k))
  {
  }

  lemma UpdatedAddsRevision(t: Tables, m: Id, req: MappingRequest, port: Option<int>, k: RecordKey)
    requires m in t.mappings && t.nextId + 1 !in t.revisions
    ensures var row, rev := UpdatedRow(t.mappings[m], req, t.nextId + 1),
                            NewRevision(m, NextNumber(t.revisions, m), req, port);
            var t' := Updated(t, m, req, port, k);
            && AddsRevision(t.mappings, t.revisions, m, row, t.nextId + 1, rev)
            && t'.mappings == t.mappings[m := row]
            && t'.revisions == SupersedePending(t.revisions, PendingOf(t.mappings, m))[t.nextId + 1 := rev]
  {
  }

  lemma UpdatedRevisionRules(t: Tables, m: Id, req: MappingRequest, port: Option<int>, k: RecordKey)
    requires m in t.mappings && RevisionRules(t.mappings, t.revisions) && t.nextId + 1 !in t.revisions
    ensures var t' := Updated(t, m, req, port, k); RevisionRules(t'.mappings, t'.revisions)
  {
    UpdatedAddsRevision(t, m, req, port, k);
    AddRevisionKeepsRules(t.mappings, t.revisions, m, UpdatedRow(t.mappings[m], req, t.nextId + 1), t.nextId + 1,
                          NewRevision(m, NextNumber(t.revisions, m), req, port));
  }

  lemma UpdatedKeepsInv(t: Tables, m: Id, req: MappingRequest, port: Option<int>, k: RecordKey)
    requires MappingInv(t) && m in t.mappings
    requires NeedsLease(t, t.mappings[m], port) ==>
      !Leased(DropPendingLease(t.leases, t.mappings[m].pending), port.value)
    ensures MappingInv(Updated(t, m, req, port, k))
  {
    UpdatedRevisionRules(t, m, req, port, k);
    UpdatedLeases(t, m, req, port, k);
    UpdatedRoles(t, m, req, port, k);
    UpdatedAnchors(t, m, req, port, k);
    UpdatedSideRules(t, m, req, port, k);
  }

  predicate PortFree(t: Tables, m: Id, port: Option<int>)
    requires m in t.mappings
  {
    NeedsLease(t, t.mappings[m], port) ==> !Leased(DropPendingLease(t.leases, t.mappings[m].pending), port.value)
  }

  /** An update is refused, or it has a free port and takes effect. */
  lemma UpdateIs(t: Tables, cfg: Config, who: AuthContext, m: Id, req: MappingRequest, key: Option<string>)
    ensures var t', k := UpdateMapping(t, cfg, who, m, req, key).0,
                         RecordKey(who.user, who.generation, UpdateMappingAt(m), KeyOf(key, t.nextId));
            || t' == t
            || (m in t.mappings && PortFree(t, m, RequestedPort(t, t.mappings[m], req))
                && t' == Updated(t, m, req, RequestedPort(t, t.mappings[m], req), k))
  {
  }

  lemma UpdateKeepsInv(t: Tables, cfg: Config, who: AuthContext, m: Id, req: MappingRequest, key: Option<string>)
    requires MappingInv(t)
    ensures MappingInv(UpdateMapping(t, cfg, who, m, req, key).0)
  {
    var t' := UpdateMapping(t, cfg, who, m, req, key).0;
    UpdateIs(t, cfg, who, m, req, key);
    if t' != t {
      UpdatedIsSound(t, m, req, RequestedPort(t, t.mappings[m], req),
                     RecordKey(who.user, who.generation, UpdateMappingAt(m), KeyOf(key, t.nextId)), t');
    }
  }

  lemma UpdatedIsSound(t: Tables, m: Id, req: MappingRequest, port: Option<int>, k: RecordKey, t': Tables)
    requires MappingInv(t) && m in t.mappings && PortFree(t, m, port) && t' == Updated(t, m, req, port, k)
    ensures MappingInv(t')
  {
    UpdatedKeepsInv(t, m, req, port, k);
  }

  // ---------- toggle and delete: only lifecycle and wishes change ----------

  ghost predicate SamePointers(mappings: map<Id, Mapping>, mappings': map<Id, Mapping>) {
    && mappings'.Keys == mappings.Keys
    && forall m :: m in mappings ==>
         mappings'[m].active == mappings[m].active && mappings'[m].pending == mappings[m].pending
         && mappings'[m].owner == mappings[m].owner
  }

  lemma SamePointersKeepRules(mappings: map<Id, Mapping>, mappings': map<Id, Mapping>, revisions: map<Id, Revision>)
    requires SamePointers(mappings, mappings') && RevisionRules(mappings, revisions)
    ensures RevisionRules(mappings', revisions)
  {
    forall m | m in mappings' ensures NumberedFromOne(revisions, m, mappings'[m].pending) {
      assert NumberedFromOne(revisions, m, mappings[m].pending);
    }
  }

  /** A step that leaves pointers, revisions and leases alone. */
  ghost predicate QuietStep(t: Tables, t': Tables) {
    SamePointers(t.mappings, t'.mappings) && t'.revisions == t.revisions && t'.leases == t.leases
  }

  lemma QuietStepKeepsInv(t: Tables, t': Tables)
    requires MappingInv(t) && QuietStep(t, t') && SideRules(t')
    ensures MappingInv(t')
  {
    SamePointersKeepRules(t.mappings, t'.mappings, t.revisions);
  }

  lemma ToggleIsQuiet(t: Tables, who: AuthContext, m: Id, enabled: bool,
                      expectedVersion: Option<int>, expectedRevision: Option<int>, key: Option<string>)
    ensures var t' := ToggleMapping(t, who, m, enabled, expectedVersion, expectedRevision, key).0;
            t' == t || QuietStep(t, t')
  {
  }

  lemma ToggleSideRules(t: Tables, who: AuthContext, m: Id, enabled: bool,
                      expectedVersion: Option<int>, expectedRevision: Option<int>, key: Option<string>)
    requires SideRules(t)
    ensures SideRules(ToggleMapping(t, who, m, enabled, expectedVersion, expectedRevision, key).0)
  {
  }

  lemma ToggleKeepsInv(t: Tables, who: AuthContext, m: Id, enabled: bool,
                       expectedVersion: Option<int>, expectedRevision: Option<int>, key: Option<string>)
    requires MappingInv(t)
    ensures MappingInv(ToggleMapping(t, who, m, enabled, expectedVersion, expectedRevision, key).0)
  {
    ToggleIsQuiet(t, who, m, enabled, expectedVersion, expectedRevision, key);
    ToggleSideRules(t, who, m, enabled, expectedVersion, expectedRevision, key);
    var t' := ToggleMapping(t, who, m, enabled, expectedVersion, expectedRevision, key).0;
    if t' != t { QuietStepKeepsInv(t, t'); }
  }

  lemma DeleteIsQuiet(t: Tables, who: AuthContext, m: Id, force: bool, key: Option<string>)
    ensures var t' := DeleteMapping(t, who, m, force, key).0; t' == t || QuietStep(t, t')
  {
  }

  lemma DeleteSideRules(t: Tables, who: AuthContext, m: Id, force: bool, key: Option<string>)
    requires SideRules(t)
    ensures SideRules(DeleteMapping(t, who, m, force, key).0)
  {
  }

  lemma DeleteKeepsInv(t: Tables, who: AuthContext, m: Id, force: bool, key: Option<string>)
    requires MappingInv(t)
    ensures MappingInv(DeleteMapping(t, who, m, force, key).0)
  {
    DeleteIsQuiet(t, who, m, force, key);
    DeleteSideRules(t, who, m, force, key);
    var t' := DeleteMapping(t, who, m, force, key).0;
    if t' != t { QuietStepKeepsInv(t, t'); }
  }

  // ---------- apply result ----------

  lemma SettledPointers(t: Tables, user: Id, version: int)
    requires Pointers(t.mappings, t.revisions) && Lifecycles(t.mappings)
    ensures var t' := Settled(t, user, version); Pointers(t'.mappings, t'.revisions)
  {
  }

  lemma SettledStatuses(t: Tables, user: Id, version: int)
    requires Statuses(t.mappings, t.revisions) && Lifecycles(t.mappings)
    ensures var t' := Settled(t, user, version); Statuses(t'.mappings, t'.revisions)
  {
  }

  lemma SettledParents(t: Tables, user: Id, version: int)
    requires Parents(t.mappings, t.revisions)
    ensures var t' := Settled(t, user, version); Parents(t'.mappings, t'.revisions)
  {
  }

  lemma SettledNumbering(t: Tables, user: Id, version: int)
    requires Lifecycles(t.mappings)
    ensures var t' := Settled(t, user, version); SameNumbering(t.mappings, t.revisions, t'.mappings, t'.revisions)
  {
  }

  lemma SettledNumbers(t: Tables, user: Id, version: int)
    requires Numbered(t.mappings, t.revisions) && Lifecycles(t.mappings)
    ensures var t' := Settled(t, user, version); Numbered(t'.mappings, t'.revisions)
  {
    var t' := Settled(t, user, version);
    SettledNumbering(t, user, version);
    NumberedAlike(t.mappings, t.revisions, t'.mappings, t'.revisions);
  }

  lemma SettledDistinct(t: Tables, user: Id, version: int)
    requires DistinctNumbers(t.revisions)
    ensures DistinctNumbers(Settled(t, user, version).revisions)
  {
  }

  lemma SettledLeases(t: Tables, user: Id, version: int)
    requires Pointers(t.mappings, t.revisions) && Lifecycles(t.mappings)
    requires LeaseRules(t.mappings, t.revisions, t.leases)
    ensures var t' := Settled(t, user, version); LeasesDistinct(t'.leases) && LeaseRoles(t'.mappings, t'.leases)
  {
    SettledLeasesDistinct(t, user, version);
    SettledLeaseRoles(t, user, version);
  }

  lemma SettledLeasesDistinct(t: Tables, user: Id, version: int)
    requires Pointers(t.mappings, t.revisions) && LeaseRules(t.mappings, t.revisions, t.leases)
    ensures LeasesDistinct(Settled(t, user, version).leases)
  {
  }

  lemma SettledLeaseRoles(t: Tables, user: Id, version: int)
    requires Pointers(t.mappings, t.revisions) && Lifecycles(t.mappings)
    requires LeaseRules(t.mappings, t.revisions, t.leases)
    ensures var t' := Settled(t, user, version); LeaseRoles(t'.mappings, t'.leases)
  {
  }

  lemma SettledAnchors(t: Tables, user: Id, version: int)
    requires Pointers(t.mappings, t.revisions) && LeasesAnchored(t.mappings, t.revisions, t.leases)
    ensures var t' := Settled(t, user, version); LeasesAnchored(t'.mappings, t'.revisions, t'.leases)
  {
  }

  lemma SettledSideRules(t: Tables, user: Id)
    requires SideRules(t) && user in t.users
    ensures SideRules(Settled(t, user, t.users[user].desired))
  {
  }

  lemma SettledKeepsInv(t: Tables, user: Id)
    requires MappingInv(t) && user in t.users
    ensures MappingInv(Settled(t, user, t.users[user].desired))
  {
    var version := t.users[user].desired;
    SettledPointers(t, user, version);
    SettledStatuses(t, user, version);
    SettledParents(t, user, version);
    SettledNumbers(t, user, version);
    SettledDistinct(t, user, version);
    SettledLeases(t, user, version);
    SettledAnchors(t, user, version);
    SettledSideRules(t, user);
  }

  lemma AbandonedPointers(t: Tables, user: Id, version: int)
    requires Pointers(t.mappings, t.revisions)
    ensures var t' := Abandoned(t, user, version); Pointers(t'.mappings, t'.revisions)
  {
  }

  lemma AbandonedStatuses(t: Tables, user: Id, version: int)
    requires Statuses(t.mappings, t.revisions)
    ensures var t' := Abandoned(t, user, version); Statuses(t'.mappings, t'.revisions)
  {
  }

  lemma AbandonedParents(t: Tables, user: Id, version: int)
    requires Parents(t.mappings, t.revisions)
    ensures var t' := Abandoned(t, user, version); Parents(t'.mappings, t'.revisions)
  {
  }

  lemma AbandonedNumbering(t: Tables, user: Id, version: int)
    ensures var t' := Abandoned(t, user, version); SameNumbering(t.mappings, t.revisions, t'.mappings, t'.revisions)
  {
  }

  lemma AbandonedNumbers(t: Tables, user: Id, version: int)
    requires Numbered(t.mappings, t.revisions)
    ensures var t' := Abandoned(t, user, version); Numbered(t'.mappings, t'.revisions)
  {
    var t' := Abandoned(t, user, version);
    AbandonedNumbering(t, user, version);
    NumberedAlike(t.mappings, t.revisions, t'.mappings, t'.revisions);
  }

  lemma AbandonedDistinct(t: Tables, user: Id, version: int)
    requires DistinctNumbers(t.revisions)
    ensures DistinctNumbers(Abandoned(t, user, version).revisions)
  {
  }

  lemma AbandonedLeases(t: Tables, user: Id, version: int)
    requires LeasesDistinct(t.leases) && LeaseRoles(t.mappings, t.leases)
    ensures var t' := Abandoned(t, user, version); LeasesDistinct(t'.leases) && LeaseRoles(t'.mappings, t'.leases)
  {
  }

  lemma AbandonedAnchors(t: Tables, user: Id, version: int)
    requires LeasesAnchored(t.mappings, t.revisions, t.leases)
    ensures var t' := Abandoned(t, user, version); LeasesAnchored(t'.mappings, t'.revisions, t'.leases)
  {
  }

  lemma AbandonedSideRules(t: Tables, user: Id, version: int)
    requires SideRules(t)
    ensures SideRules(Abandoned(t, user, version))
  {
  }

  lemma AbandonedKeepsInv(t: Tables, user: Id, version: int)
    requires MappingInv(t)
    ensures MappingInv(Abandoned(t, user, version))
  {
    AbandonedPointers(t, user, version);
    AbandonedStatuses(t, user, version);
    AbandonedParents(t, user, version);
    AbandonedNumbers(t, user, version);
    AbandonedDistinct(t, user, version);
    AbandonedLeases(t, user, version);
    AbandonedAnchors(t, user, version);
    AbandonedSideRules(t, user, version);
  }

  lemma ApplyKeepsInv(t: Tables, who: AuthContext, req: ApplyRequest)
    requires MappingInv(t)
    ensures MappingInv(ApplyResult(t, who, req).0)
  {
    if ApplyRefusal(t, who.user, req).None? {
      if req.status == ApplySucceeded { SettledKeepsInv(t, who.user); }
      else { AbandonedKeepsInv(t, who.user, req.version); }
    }
  }

  // ---------- removing rows ----------

  /** Some mappings disappear, each with all its revisions and leases. */
  ghost predicate Prunes(t: Tables, t': Tables) {
    && t'.mappings.Keys <= t.mappings.Keys
    && (forall m :: m in t'.mappings ==> t'.mappings[m] == t.mappings[m])
    && t'.revisions == (map r | r in t.revisions && t.revisions[r].mapping in t'.mappings :: t.revisions[r])
    && t'.leases == (map l | l in t.leases && t.leases[l].mapping in t'.mappings :: t.leases[l])
  }

  lemma PruneKeepsPointers(t: Tables, t': Tables)
    requires Pointers(t.mappings, t.revisions) && Statuses(t.mappings, t.revisions) && Prunes(t, t')
    ensures Pointers(t'.mappings, t'.revisions) && Statuses(t'.mappings, t'.revisions)
  {
  }

  lemma PruneKeepsNumbers(t: Tables, t': Tables)
    requires Parents(t.mappings, t.revisions) && Numbered(t.mappings, t.revisions) && DistinctNumbers(t.revisions)
    requires Prunes(t, t')
    ensures Parents(t'.mappings, t'.revisions) && Numbered(t'.mappings, t'.revisions) && DistinctNumbers(t'.revisions)
  {
    NumberedAlike(t.mappings, t.revisions, t'.mappings, t'.revisions);
  }

  lemma PruneKeepsLeaseRules(t: Tables, t': Tables)
    requires LeaseRules(t.mappings, t.revisions, t.leases) && Prunes(t, t')
    ensures LeaseRules(t'.mappings, t'.revisions, t'.leases)
  {
  }

  lemma PruneKeepsInv(t: Tables, t': Tables)
    requires MappingInv(t) && Prunes(t, t') && SideRules(t')
    ensures MappingInv(t')
  {
    PruneKeepsPointers(t, t');
    PruneKeepsNumbers(t, t');
    PruneKeepsLeaseRules(t, t');
  }

  lemma DropMappingPrunes(t: Tables, m: Id)
    requires Parents(t.mappings, t.revisions) && LeasesAnchored(t.mappings, t.revisions, t.leases)
    ensures Prunes(t, DropMapping(t, m))
  {
  }

  lemma DropMappingSideRules(t: Tables, m: Id)
    requires SideRules(t)
    ensures SideRules(DropMapping(t, m))
  {
  }

  lemma FinalizeKeepsInv(t: Tables, m: Id)
    requires MappingInv(t)
    ensures MappingInv(FinalizeMapping(t, m))
  {
    DropMappingPrunes(t, m);
    DropMappingSideRules(t, m);
    PruneKeepsInv(t, DropMapping(t, m));
  }
}
