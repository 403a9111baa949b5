/** Small sound states: what the invariants come to when there is one mapping with one
    running revision, nobody is logged in, or no domain is bound. */
module Witnesses {
  import opened Wrappers
  import opened Schema
  import opened Mappings
  import opened MappingInvariants
  import opened Identity
  import opened Service
  import opened Invariants

  /** The administrator of the fresh database, and users 1 and 2. */
  function People(ann: User, bob: User): map<Id, User> { Initial("").users[1 := ann][2 := bob] }

  function Ann(): User { NewUser("ann", "").(generation := 1) }

  function Bob(): User { NewUser("bob", "").(generation := 1) }

  lemma NamesDiffer()
    ensures "admin" != "ann" && "admin" != "bob" && "ann" != "bob"
  {
    assert "ann"[0] != "bob"[0] && |"admin"| == 5;
  }

  lemma PeopleDiffer(ann: User, bob: User)
    requires ann.username == "ann" && bob.username == "bob"
    ensures UsernamesDistinct(People(ann, bob))
  {
    NamesDiffer();
    assert Initial("").users[0].username == "admin";
  }

  lemma NobodyLoggedIn(t: Tables)
    requires t.sessions == map[] && t.runtimes == map[] && UsernamesDistinct(t.users)
    ensures AuthInv(t)
  {
  }

  lemma NothingBound(t: Tables)
    requires t.domains == map[] && t.dns == map[] && t.residues == map[]
    ensures DomainInv(t)
  {
  }

  lemma OneRunning(mappings: map<Id, Mapping>, revisions: map<Id, Revision>, m: Id, r: Id)
    requires mappings.Keys == {m} && mappings[m].active == Some(r) && mappings[m].pending.None?
    requires revisions.Keys == {r} && revisions[r].mapping == m && revisions[r].number == 1
             && revisions[r].status == Active
    ensures RevisionRules(mappings, revisions)
  {
    assert forall x :: x in mappings.Keys <==> x == m;
    assert forall x :: x in revisions.Keys <==> x == r;
    assert Numbers(revisions, m) == {1} by { assert revisions[r].number == 1; }
    assert UpTo(1) == {1} && Largest({1}) == 1;
    assert NumberedFromOne(revisions, m, None);
  }

  lemma PeopleVersions(ann: User, bob: User)
    requires ann.applied <= ann.desired && bob.applied <= bob.desired
    ensures Versions(People(ann, bob)) && forall u :: u in People(ann, bob) <==> u == 0 || u == 1 || u == 2
  {
  }

  lemma NothingLeased(t: Tables)
    requires t.leases == map[]
    ensures LeaseRules(t.mappings, t.revisions, t.leases)
  {
  }

  lemma SidesOfOne(t: Tables, ann: User, bob: User, m: Id, r: Id)
    requires t.users == People(ann, bob) && ann.applied <= ann.desired && bob.applied <= bob.desired
    requires t.mappings.Keys == {m} && t.revisions.Keys == {r} && t.mappings[m].owner == 1
    requires t.mappings[m].lifecycle == Running || (t.mappings[m].lifecycle == Deleting && !t.mappings[m].enabled)
    requires 2 < t.nextId && m < t.nextId && r < t.nextId && forall l :: l in t.leases ==> l < t.nextId
    ensures SideRules(t)
  {
    PeopleVersions(ann, bob);
    assert forall x :: x in t.mappings.Keys <==> x == m;
    assert forall x :: x in t.revisions.Keys <==> x == r;
  }
}
