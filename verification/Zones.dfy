/** Choosing the DNS zone of a hostname (server/internal/providers/cloudflare/zones.go). */
module Zones {
  import opened Text

  datatype Zone = Zone(id: string, name: string)

  function Normalize(s: string): string { TrimDot(Lower(TrimSpace(s))) }

  /** White space around a name goes, then a final dot; and capital letters become small. */
  lemma NormalizesName(name: string, dot: bool, before: string, after: string)
    requires Trimmed(name) && name != "" && name[|name| - 1] != '.' && Blank(before) && Blank(after)
    ensures Normalize(before + (if dot then name + "." else name) + after) == Lower(name)
  {
    var written := if dot then name + "." else name;
    WrittenTrimmed(name);
    TrimIs(before, written, after);
    LowerWritten(name);
    TrimDotIs(Lower(name));
  }

  lemma WrittenTrimmed(name: string)
    requires Trimmed(name) && name != ""
    ensures Trimmed(name + ".")
  {
    var written := name + ".";
    assert written[..1] == name[..1];
    assert written[|written| - 1..] == ".";
    assert written[|written| - 1..][0] == '.';
  }

  lemma LowerWritten(name: string)
    requires name != "" && name[|name| - 1] != '.'
    ensures Lower(name + ".") == Lower(name) + "." && Lower(name) != "" && Lower(name)[|Lower(name)| - 1] != '.'
  {
    LowerConcat(name, ".");
    LowerIs(".");
    LowerIs(name);
  }

  // ---------- labels ----------

  /** The position of the first dot, or the length. */
  function FirstDot(s: string): (i: nat)
    ensures i <= |s| && (i < |s| ==> s[i] == '.') && forall j :: 0 <= j < i ==> s[j] != '.'
  {
    if s == "" || s[0] == '.' then 0 else FirstDot(s[1..]) + 1
  }

  /** The labels of a name, section 3.1 of RFC 1034. */
  function Labels(s: string): (labels: seq<string>)
    ensures |labels| >= 1
    decreases |s|
  {
    var i := FirstDot(s);
    if i == |s| then [s] else [s[..i]] + Labels(s[i + 1..])
  }

  function Join(labels: seq<string>): string
    requires |labels| >= 1
  {
    if |labels| == 1 then labels[0] else labels[0] + "." + Join(labels[1..])
  }

  function Dots(s: string): nat { if s == "" then 0 else (if s[0] == '.' then 1 else 0) + Dots(s[1..]) }

  predicate EndsWith<T(==)>(s: seq<T>, t: seq<T>) { |t| <= |s| && s[|s| - |t|..] == t }

  /** The test the code makes: the name itself, or text that ends in a dot and the name. */
  predicate Covers(name: string, host: string) { host == name || EndsWith(host, "." + name) }

  lemma {:induction false} DotsConcat(s: string, t: string)
    ensures Dots(s + t) == Dots(s) + Dots(t)
  {
    if s == "" { assert s + t == t; }
    else {
      assert (s + t)[1..] == s[1..] + t;
      DotsConcat(s[1..], t);
    }
  }

  lemma {:induction false} NoDots(s: string)
    requires forall j :: 0 <= j < |s| ==> s[j] != '.'
    ensures Dots(s) == 0
  {
    if s != "" { NoDots(s[1..]); }
  }

  /** One label more than dots. */
  lemma {:induction false} DotsCountLabels(s: string)
    ensures |Labels(s)| == Dots(s) + 1
    decreases |s|
  {
    var i := FirstDot(s);
    NoDots(s[..i]);
    if i == |s| {
      assert s[..i] == s;
    } else {
      assert s == s[..i] + ("." + s[i + 1..]);
      DotsConcat(s[..i], "." + s[i + 1..]);
      DotsCountLabels(s[i + 1..]);
    }
  }

  lemma {:induction false} JoinLabels(s: string)
    ensures Join(Labels(s)) == s
    decreases |s|
  {
    var i := FirstDot(s);
    if i < |s| {
      JoinLabels(s[i + 1..]);
      assert Labels(s)[1..] == Labels(s[i + 1..]);
      assert s == s[..i] + "." + s[i + 1..];
    }
  }

  lemma FirstDotIs(s: string, i: nat)
    requires i < |s| && s[i] == '.' && forall j :: 0 <= j < i ==> s[j] != '.'
    ensures FirstDot(s) == i
  {
  }

  /** A dot between two names joins their labels. */
  lemma {:induction false} LabelsConcat(s: string, t: string)
    ensures Labels(s + "." + t) == Labels(s) + Labels(t)
    decreases |s|
  {
    var i, whole := FirstDot(s), s + "." + t;
    FirstDotIs(whole, i);
    assert whole[..i] == s[..i];
    if i == |s| {
      assert whole[i + 1..] == t && s[..i] == s;
    } else {
      assert whole[i + 1..] == s[i + 1..] + "." + t;
      LabelsConcat(s[i + 1..], t);
    }
  }

  lemma {:induction false} JoinConcat(a: seq<string>, b: seq<string>)
    requires |a| >= 1 && |b| >= 1
    ensures Join(a + b) == Join(a) + "." + Join(b)
  {
    assert (a + b)[1..] == a[1..] + b;
    if |a| > 1 { JoinConcat(a[1..], b); }
  }

  lemma SuffixHasLabels(name: string, host: string)
    requires EndsWith(host, "." + name)
    ensures EndsWith(Labels(host), Labels(name)) && |Labels(host)| > |Labels(name)|
  {
    var rest := host[..|host| - |name| - 1];
    assert host == rest + host[|host| - |name| - 1..];
    assert host == rest + "." + name;
    LabelsConcat(rest, name);
    AppendEnds(Labels(rest), Labels(name));
  }

  lemma AppendEnds(a: seq<string>, b: seq<string>)
    ensures EndsWith(a + b, b)
  {
  }

  lemma DottedTail(prefix: string, name: string)
    ensures EndsWith(prefix + "." + name, "." + name)
  {
    assert prefix + "." + name == prefix + ("." + name);
  }

  lemma SplitEnd(s: seq<string>, t: seq<string>)
    requires EndsWith(s, t)
    ensures s == s[..|s| - |t|] + t
  {
  }

  lemma LabelsAreSuffix(name: string, host: string)
    requires EndsWith(Labels(host), Labels(name)) && |Labels(name)| < |Labels(host)|
    ensures EndsWith(host, "." + name)
  {
    var all, last := Labels(host), Labels(name);
    var rest := all[..|all| - |last|];
    SplitEnd(all, last);
    JoinConcat(rest, last);
    JoinLabels(host);
    JoinLabels(name);
    DottedTail(Join(rest), name);
  }

  /** The textual test is the subdomain relation: the labels of the name are the last
      labels of the hostname. */
  lemma CoversIsLabelSuffix(name: string, host: string)
    ensures Covers(name, host) <==> EndsWith(Labels(host), Labels(name))
  {
    if EndsWith(host, "." + name) { SuffixHasLabels(name, host); }
    if EndsWith(Labels(host), Labels(name)) {
      if |Labels(name)| < |Labels(host)| {
        LabelsAreSuffix(name, host);
      } else {
        assert Labels(name) == Labels(host);
        JoinLabels(host);
        JoinLabels(name);
      }
    }
  }

  lemma EndsNested(s: seq<string>, t: seq<string>, u: seq<string>)
    requires EndsWith(s, t) && EndsWith(s, u) && |u| <= |t|
    ensures EndsWith(t, u) && (|u| == |t| ==> u == t)
  {
    assert t[|t| - |u|..] == s[|s| - |u|..];
  }

  /** Of two names that cover a hostname, the one with more dots is the longer, and has
      the other as suffix; with equally many dots they are the same name. */
  lemma CoveringNamesAreNested(host: string, name: string, other: string)
    requires Covers(name, host) && Covers(other, host)
    ensures Dots(name) == Dots(other) ==> name == other
    ensures Dots(name) > Dots(other) ==> |name| > |other| && Covers(other, name)
  {
    CoversIsLabelSuffix(name, host);
    CoversIsLabelSuffix(other, host);
    DotsCountLabels(name);
    DotsCountLabels(other);
    if Dots(name) >= Dots(other) {
      EndsNested(Labels(host), Labels(name), Labels(other));
      if Dots(name) == Dots(other) {
        JoinLabels(name);
        JoinLabels(other);
      } else {
        LabelsAreSuffix(other, name);
      }
    }
  }

  // ---------- choosing ----------

  predicate Eligible(host: string, zone: Zone) {
    var name := Normalize(zone.name);
    name != "" && Covers(name, host)
  }

  function Normalized(zone: Zone): Zone { zone.(name := Normalize(zone.name)) }

  /** Zone i is eligible, no eligible zone has a longer name, and none before it has the
      same name. */
  predicate IsBest(host: string, zones: seq<Zone>, i: nat) {
    && i < |zones| && Eligible(host, zones[i])
    && (forall j :: 0 <= j < |zones| && Eligible(host, zones[j]) ==>
          && |Normalize(zones[j].name)| <= |Normalize(zones[i].name)|
          && (|Normalize(zones[j].name)| == |Normalize(zones[i].name)| ==>
                Normalize(zones[j].name) == Normalize(zones[i].name) && i <= j))
  }

  /** The order that SliceStable sorts by. */
  predicate Before(a: Zone, b: Zone) { Dots(a.name) > Dots(b.name) }

  function Insert(z: Zone, sorted: seq<Zone>): (r: seq<Zone>)
    ensures |r| == |sorted| + 1
  {
    if sorted == [] || !Before(sorted[0], z) then [z] + sorted else [sorted[0]] + Insert(z, sorted[1..])
  }

  /** sort.SliceStable as an insertion sort: inserting from the back puts an element
      before its equals. */
  function StableSort(zones: seq<Zone>): (sorted: seq<Zone>)
    ensures |sorted| == |zones|
  {
    if zones == [] then [] else Insert(zones[0], StableSort(zones[1..]))
  }

  ghost predicate Sorted(zones: seq<Zone>) {
    forall i, j :: 0 <= i < j < |zones| ==> !Before(zones[j], zones[i])
  }

  function Only(z: Zone, n: nat): seq<Zone> { if Dots(z.name) == n then [z] else [] }

  function WithDots(zones: seq<Zone>, n: nat): seq<Zone> {
    if zones == [] then [] else Only(zones[0], n) + WithDots(zones[1..], n)
  }

  lemma {:induction false} InsertKeepsSorted(z: Zone, sorted: seq<Zone>)
    requires Sorted(sorted)
    ensures Sorted(Insert(z, sorted))
    ensures forall x :: x in Insert(z, sorted) ==> x == z || x in sorted
  {
    if sorted != [] && Before(sorted[0], z) {
      var rest := Insert(z, sorted[1..]);
      InsertKeepsSorted(z, sorted[1..]);
      forall x | x in rest ensures !Before(x, sorted[0]) {
        if x in sorted[1..] {
          var i :| 0 <= i < |sorted[1..]| && sorted[1..][i] == x;
          assert sorted[i + 1] == x;
        }
      }
      assert forall j :: 0 < j < |[sorted[0]] + rest| ==> ([sorted[0]] + rest)[j] in rest;
    }
  }

  lemma {:induction false} InsertIsStable(z: Zone, sorted: seq<Zone>, n: nat)
    ensures WithDots(Insert(z, sorted), n) == Only(z, n) + WithDots(sorted, n)
  {
    if sorted != [] && Before(sorted[0], z) {
      InsertIsStable(z, sorted[1..], n);
      assert Insert(z, sorted)[1..] == Insert(z, sorted[1..]);
      assert Only(sorted[0], n) == [] || Only(z, n) == [];
    } else {
      assert ([z] + sorted)[1..] == sorted;
    }
  }

  /** The result is sorted and keeps the order of zones with equally many dots: there is
      only one such sequence. */
  lemma {:induction false} StableSortIsStable(zones: seq<Zone>, n: nat)
    ensures Sorted(StableSort(zones)) && WithDots(StableSort(zones), n) == WithDots(zones, n)
  {
    if zones != [] {
      StableSortIsStable(zones[1..], n);
      InsertKeepsSorted(zones[0], StableSort(zones[1..]));
      InsertIsStable(zones[0], StableSort(zones[1..]), n);
    }
  }

  function EligibleZones(host: string, zones: seq<Zone>): seq<Zone> {
    if zones == [] then []
    else (if Eligible(host, zones[0]) then [Normalized(zones[0])] else []) + EligibleZones(host, zones[1..])
  }

  lemma BestInTail(host: string, zones: seq<Zone>, i: nat)
    requires zones != [] && IsBest(host, zones[1..], i)
    requires Eligible(host, zones[0]) ==> Dots(Normalize(zones[0].name)) < Dots(Normalize(zones[1..][i].name))
    ensures IsBest(host, zones, i + 1)
  {
    if Eligible(host, zones[0]) {
      CoveringNamesAreNested(host, Normalize(zones[1..][i].name), Normalize(zones[0].name));
    }
    forall j | 0 <= j < |zones| && Eligible(host, zones[j])
      ensures |Normalize(zones[j].name)| <= |Normalize(zones[i + 1].name)|
      ensures |Normalize(zones[j].name)| == |Normalize(zones[i + 1].name)| ==>
        Normalize(zones[j].name) == Normalize(zones[i + 1].name) && i + 1 <= j
    {
      if j > 0 { assert zones[j] == zones[1..][j - 1]; }
    }
  }

  lemma BestAtHead(host: string, zones: seq<Zone>, i: nat)
    requires zones != [] && Eligible(host, zones[0]) && IsBest(host, zones[1..], i)
    requires Dots(Normalize(zones[0].name)) >= Dots(Normalize(zones[1..][i].name))
    ensures IsBest(host, zones, 0)
  {
    CoveringNamesAreNested(host, Normalize(zones[0].name), Normalize(zones[1..][i].name));
    forall j | 0 <= j < |zones| && Eligible(host, zones[j])
      ensures |Normalize(zones[j].name)| <= |Normalize(zones[0].name)|
      ensures |Normalize(zones[j].name)| == |Normalize(zones[0].name)| ==>
                Normalize(zones[j].name) == Normalize(zones[0].name)
    {
      if j > 0 { assert zones[j] == zones[1..][j - 1]; }
    }
  }

  ghost predicate PicksBest(host: string, zones: seq<Zone>, z: Zone) {
    exists i: nat :: IsBest(host, zones, i) && z == Normalized(zones[i])
  }

  lemma PickedFromTail(host: string, zones: seq<Zone>, z: Zone)
    requires zones != [] && PicksBest(host, zones[1..], z)
    ensures Eligible(host, zones[0]) && Dots(Normalize(zones[0].name)) >= Dots(z.name) ==>
              PicksBest(host, zones, Normalized(zones[0]))
    ensures Eligible(host, zones[0]) && Dots(Normalize(zones[0].name)) < Dots(z.name) ==> PicksBest(host, zones, z)
    ensures !Eligible(host, zones[0]) ==> PicksBest(host, zones, z)
  {
    var i: nat :| IsBest(host, zones[1..], i) && z == Normalized(zones[1..][i]);
    if Eligible(host, zones[0]) && Dots(Normalize(zones[0].name)) >= Dots(z.name) {
      BestAtHead(host, zones, i);
    } else {
      BestInTail(host, zones, i);
      assert zones[i + 1] == zones[1..][i];
    }
  }

  lemma PickedAlone(host: string, zones: seq<Zone>)
    requires zones != [] && Eligible(host, zones[0])
    requires forall j :: 0 <= j < |zones[1..]| ==> !Eligible(host, zones[1..][j])
    ensures PicksBest(host, zones, Normalized(zones[0]))
  {
    assert forall j :: 0 < j < |zones| ==> zones[j] == zones[1..][j - 1];
    assert IsBest(host, zones, 0);
  }

  /** What comes first after filtering and sorting is the best zone. */
  lemma {:induction false} FirstIsBest(host: string, zones: seq<Zone>)
    requires EligibleZones(host, zones) != []
    ensures PicksBest(host, zones, StableSort(EligibleZones(host, zones))[0])
  {
    var rest := EligibleZones(host, zones[1..]);
    if Eligible(host, zones[0]) {
      FirstOfSort(Normalized(zones[0]), rest);
      if rest == [] {
        NoneEligible(host, zones[1..]);
        PickedAlone(host, zones);
      } else {
        FirstIsBest(host, zones[1..]);
        PickedFromTail(host, zones, StableSort(rest)[0]);
      }
    } else {
      assert EligibleZones(host, zones) == rest;
      FirstIsBest(host, zones[1..]);
      PickedFromTail(host, zones, StableSort(rest)[0]);
    }
  }

  lemma FirstOfSort(z: Zone, rest: seq<Zone>)
    ensures StableSort([z] + rest)[0]
            == if rest != [] && Before(StableSort(rest)[0], z) then StableSort(rest)[0] else z
  {
    assert ([z] + rest)[1..] == rest;
  }

  lemma {:induction false} NoneEligible(host: string, zones: seq<Zone>)
    ensures EligibleZones(host, zones) == [] <==> forall j :: 0 <= j < |zones| ==> !Eligible(host, zones[j])
  {
    if zones != [] {
      NoneEligible(host, zones[1..]);
      assert forall j :: 0 < j < |zones| ==> zones[j] == zones[1..][j - 1];
      assert forall j :: 0 <= j < |zones| - 1 ==> zones[1..][j] == zones[j + 1];
    }
  }

  lemma {:induction false} EligibleSnoc(host: string, zones: seq<Zone>, z: Zone)
    ensures EligibleZones(host, zones + [z])
            == EligibleZones(host, zones) + (if Eligible(host, z) then [Normalized(z)] else [])
  {
    if zones == [] {
      assert zones + [z] == [z];
      assert [z][1..] == [];
    } else {
      assert (zones + [z])[0] == zones[0] && (zones + [z])[1..] == zones[1..] + [z];
      EligibleSnoc(host, zones[1..], z);
    }
  }

  lemma MatchIsBest(host: string, zones: seq<Zone>, eligible: seq<Zone>)
    requires eligible == EligibleZones(host, zones)
    ensures eligible == [] <==> forall j :: 0 <= j < |zones| ==> !Eligible(host, zones[j])
    ensures eligible != [] ==> PicksBest(host, zones, StableSort(eligible)[0])
  {
    NoneEligible(host, zones);
    if eligible != [] { FirstIsBest(host, zones); }
  }

  /** Finds the eligible zone with the longest name, the earliest listed among equals;
      fails iff no zone is eligible. */
  method MatchZone(hostname: string, zones: seq<Zone>) returns (zone: Zone, found: bool)
    ensures !found <==> forall j :: 0 <= j < |zones| ==> !Eligible(Normalize(hostname), zones[j])
    ensures found ==> PicksBest(Normalize(hostname), zones, zone)
    ensures !found ==> zone == Zone("", "")
  {
    var host := Normalize(hostname);
    var eligible := [];
    var k := 0;
    while k < |zones|
      invariant 0 <= k <= |zones| && eligible == EligibleZones(host, zones[..k])
    {
      EligibleSnoc(host, zones[..k], zones[k]);
      assert zones[..k] + [zones[k]] == zones[..k + 1];
      if Eligible(host, zones[k]) { eligible := eligible + [Normalized(zones[k])]; }
      k := k + 1;
    }
    assert zones[..k] == zones;
    MatchIsBest(host, zones, eligible);
    if |eligible| == 0 { return Zone("", ""), false; }
    return StableSort(eligible)[0], true;
  }
}
