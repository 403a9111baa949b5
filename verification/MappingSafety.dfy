/** What holds of mappings, revisions, leases and versions in every reachable state. */
module MappingSafety {
  import opened Wrappers
  import opened Schema
  import opened Mappings
  import opened MappingInvariants
  import opened Service
  import opened Invariants
  import opened DomainInvariants

  /** No port has two leases and no mapping two of one role; a lease names a revision of
      its own mapping and holds its port; a pending lease names the pending revision, an
      active one the active revision if there is one. */
  lemma LeasesAreSafe(t: Tables, cfg: Config, l: Id)
    requires Reachable(t, cfg) && l in t.leases
    ensures var lease := t.leases[l];
            && lease.mapping in t.mappings && lease.revision in t.revisions
            && t.revisions[lease.revision].mapping == lease.mapping
            && t.revisions[lease.revision].port == Some(lease.port)
            && (lease.role == PendingRole ==> t.mappings[lease.mapping].pending == Some(lease.revision))
            && (lease.role == ActiveRole && t.mappings[lease.mapping].active.Some? ==>
                  t.mappings[lease.mapping].active == Some(lease.revision))
            && (forall k :: k in t.leases && t.leases[k].port == lease.port ==> k == l)
            && (forall k :: k in t.leases && t.leases[k].mapping == lease.mapping && t.leases[k].role == lease.role ==>
                  k == l)
  {
    ReachableInv(t, cfg);
    InvMeans(t);
  }

  lemma LargestIsLast(t: Tables, m: Id, r: Id, p: Id)
    requires RevisionRules(t.mappings, t.revisions) && m in t.mappings && t.mappings[m].pending == Some(p)
    requires r in t.revisions && t.revisions[r].mapping == m && r != p
    ensures t.revisions[r].number < t.revisions[p].number
  {
    assert NumberedFromOne(t.revisions, m, t.mappings[m].pending);
    assert t.revisions[r].number in Numbers(t.revisions, m);
  }

  /** A mapping's revisions are numbered 1..n without gaps or repetitions; its pending
      revision, if any, comes after all others, the active one included; status and
      pointer always agree. */
  lemma RevisionsAreSafe(t: Tables, cfg: Config, m: Id, r: Id)
    requires Reachable(t, cfg) && m in t.mappings && r in t.revisions && t.revisions[r].mapping == m
    ensures var (row, rev) := (t.mappings[m], t.revisions[r]);
            && (rev.status == Pending <==> row.pending == Some(r))
            && (rev.status == Active <==> row.active == Some(r))
            && Numbers(t.revisions, m) == UpTo(Largest(Numbers(t.revisions, m)))
            && (forall q :: q in t.revisions && t.revisions[q].mapping == m && t.revisions[q].number == rev.number ==>
                  q == r)
            && (row.pending.Some? && row.pending != Some(r) ==>
                  row.pending.value in t.revisions && rev.number < t.revisions[row.pending.value].number)
  {
    ReachableInv(t, cfg);
    RevisionFacts(t, m);
    if t.mappings[m].pending.Some? && t.mappings[m].pending != Some(r) {
      InvMeans(t);
      LargestIsLast(t, m, r, t.mappings[m].pending.value);
    }
  }

  lemma RevisionFacts(t: Tables, m: Id)
    requires Inv(t) && m in t.mappings
    ensures Pointers(t.mappings, t.revisions) && Statuses(t.mappings, t.revisions) && DistinctNumbers(t.revisions)
    ensures NumberedFromOne(t.revisions, m, t.mappings[m].pending)
  {
    InvMeans(t);
  }

  /** The applied version never exceeds the desired one. */
  lemma AppliedWithinDesired(t: Tables, cfg: Config, u: Id)
    requires Reachable(t, cfg) && u in t.users
    ensures t.users[u].applied <= t.users[u].desired
  {
    ReachableInv(t, cfg);
    InvMeans(t);
  }
}
