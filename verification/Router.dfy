/** Router snapshots: built and published by the control process
    (server/internal/service/router_service.go), signed (server/internal/router/snapshot.go),
    picked up by a watcher (watcher.go) and loaded and served by the router (runtime.go).

    Hashing and signing are symbolic: a digest or a MAC is the term of what went into it,
    so both are injective and no MAC can be made without its key. */
module Router {
  import opened Wrappers
  import opened Text

  type Key = nat

  datatype Route = Route(hostname: string, target: string, httpsMode: string, redirect: bool, status: string)

  /** What is hashed: the snapshot with both signatures empty. */
  datatype Body = Body(schema: string, version: int, control: seq<Route>, business: seq<Route>, generatedAt: int)

  datatype Digest = NoDigest | HashOf(body: Body)

  /** What is signed: the snapshot with its hash. */
  datatype Mac = NoMac | MacOf(key: Key, body: Body, digest: Digest)

  datatype Snapshot = Snapshot(body: Body, digest: Digest, mac: Mac)

  // ---------- signing ----------

  function Build(version: int, control: seq<Route>, business: seq<Route>, key: Key, now: int): Snapshot {
    var body := Body("v1", version, control, business, now);
    Snapshot(body, HashOf(body), MacOf(key, body, HashOf(body)))
  }

  predicate VerifyHash(s: Snapshot) { s.digest == HashOf(s.body) }

  predicate Verify(s: Snapshot, key: Key) { VerifyHash(s) && s.mac == MacOf(key, s.body, s.digest) }

  /** A snapshot verifies under a key exactly if it is what Build makes with that key. */
  lemma VerifiesIffBuilt(s: Snapshot, key: Key)
    ensures Verify(s, key) && s.body.schema == "v1" <==>
            s == Build(s.body.version, s.body.control, s.body.business, key, s.body.generatedAt)
  {
  }

  /** No change to a built snapshot and no other key goes unnoticed. */
  lemma TamperEvident(version: int, control: seq<Route>, business: seq<Route>, key: Key, now: int, s: Snapshot,
                      other: Key)
    requires s.mac == Build(version, control, business, key, now).mac
    ensures Verify(s, other) <==> other == key && s == Build(version, control, business, key, now)
  {
  }

  // ---------- loading ----------

  predicate Valid(s: Snapshot, key: Key) { s.body.schema == "v1" && s.body.version >= 1 && Verify(s, key) }

  function Load(current: Snapshot, s: Snapshot, key: Key): (Snapshot, bool) {
    if !Valid(s, key) || current.body.version >= s.body.version then (current, false) else (s, true)
  }

  const NOTHING := Snapshot(Body("", 0, [], [], 0), NoDigest, NoMac)

  function Loads(current: Snapshot, offered: seq<Snapshot>, key: Key): Snapshot
    decreases |offered|
  {
    if offered == [] then current else Loads(Load(current, offered[0], key).0, offered[1..], key)
  }

  /** Offer i is valid, newer than `current`, of the greatest version among the valid
      offers, and the first of that version. */
  ghost predicate IsFirstGreatest(current: Snapshot, offered: seq<Snapshot>, key: Key, i: nat) {
    && i < |offered| && Valid(offered[i], key) && offered[i].body.version > current.body.version
    && (forall j :: 0 <= j < |offered| && Valid(offered[j], key) ==>
          && offered[j].body.version <= offered[i].body.version
          && (j < i ==> offered[j].body.version < offered[i].body.version))
  }

  ghost predicate NoneNewer(current: Snapshot, offered: seq<Snapshot>, key: Key) {
    forall j :: 0 <= j < |offered| && Valid(offered[j], key) ==> offered[j].body.version <= current.body.version
  }

  /** Over any sequence of loads the router holds the first valid snapshot of the greatest
      version offered, or what it had if none was newer. */
  lemma {:induction false} LoadsKeepFirstGreatest(current: Snapshot, offered: seq<Snapshot>, key: Key)
    ensures NoneNewer(current, offered, key) ==> Loads(current, offered, key) == current
    ensures !NoneNewer(current, offered, key) ==>
      exists i: nat :: IsFirstGreatest(current, offered, key, i) && Loads(current, offered, key) == offered[i]
    decreases |offered|
  {
    if offered != [] {
      var rest, next := offered[1..], Load(current, offered[0], key).0;
      LoadsKeepFirstGreatest(next, rest, key);
      assert forall j :: 0 < j < |offered| ==> offered[j] == rest[j - 1];
      assert forall j :: 0 <= j < |rest| ==> rest[j] == offered[j + 1];
      if NoneNewer(next, rest, key) {
        if next != current { assert IsFirstGreatest(current, offered, key, 0); }
      } else {
        var i: nat :| IsFirstGreatest(next, rest, key, i) && Loads(next, rest, key) == rest[i];
        assert IsFirstGreatest(current, offered, key, i + 1);
      }
    }
  }

  // ---------- routes ----------

  datatype Source = Source(hostname: string, httpsMode: string, redirect: bool, running: bool)

  function ControlRoutes(hosts: seq<string>, target: string): (routes: seq<Route>)
    ensures |routes| == |hosts|
  {
    if hosts == [] then []
    else [Route(hosts[0], target, "control", false, "active")] + ControlRoutes(hosts[1..], target)
  }

  function RouteOf(s: Source, target: string): Route {
    Route(s.hostname, target, s.httpsMode, s.redirect, if s.running then "active" else "offline")
  }

  function BusinessRoutes(sources: seq<Source>, target: string): (routes: seq<Route>)
    ensures |routes| == |sources|
  {
    if sources == [] then [] else [RouteOf(sources[0], target)] + BusinessRoutes(sources[1..], target)
  }

  lemma {:induction false} ControlRoutesAt(hosts: seq<string>, target: string, i: nat)
    requires i < |hosts|
    ensures ControlRoutes(hosts, target)[i] == Route(hosts[i], target, "control", false, "active")
  {
    if i > 0 { ControlRoutesAt(hosts[1..], target, i - 1); }
  }

  lemma {:induction false} BusinessRoutesAt(sources: seq<Source>, target: string, i: nat)
    requires i < |sources|
    ensures BusinessRoutes(sources, target)[i] == RouteOf(sources[i], target)
  {
    if i > 0 { BusinessRoutesAt(sources[1..], target, i - 1); }
  }

  // ---------- serving ----------

  function IndexOf(s: string, c: char): (i: nat)
    ensures i <= |s| && (i < |s| ==> s[i] == c)
  {
    if s == "" || s[0] == c then 0 else 1 + IndexOf(s[1..], c)
  }

  /** The host of host:port or [host]:port; None where the text is neither. */
  function SplitHostPort(s: string): Option<string> {
    if s != "" && s[0] == '[' then
      var end := IndexOf(s, ']');
      if 0 < end && |s| > end + 2 && s[end + 1] == ':' then Some(s[1..end]) else None
    else
      var colon := IndexOf(s, ':');
      if colon + 1 < |s| && IndexOf(s[colon + 1..], ':') == |s| - colon - 1 then Some(s[..colon]) else None
  }

  function NormalizeHost(value: string): string {
    var v := Lower(TrimDot(TrimSpace(value)));
    match SplitHostPort(v)
    case Some(host) => TrimDot(host)
    case None => v
  }

  // ---------- what a host name comes to ----------

  /** A name as it is written: without white space, brackets or colons, and not ending in a
      dot. */
  predicate Plain(name: string) {
    && name != "" && name[|name| - 1] != '.'
    && forall i :: 0 <= i < |name| ==> name[i] !in {':', '[', ']'} && !IsSpace(name[i])
  }

  predicate NoColon(s: string) { forall i :: 0 <= i < |s| ==> s[i] != ':' && !IsSpace(s[i]) }

  lemma PlainTrimmed(s: string)
    requires forall i :: 0 <= i < |s| ==> !IsSpace(s[i])
    ensures Trimmed(s)
  {
    if s != "" {
      SpaceIs(s[0]);
      SpaceIs(s[|s| - 1]);
      assert s[..1][0] == s[0] && s[|s| - 1..][0] == s[|s| - 1];
    }
  }

  lemma {:induction false} IndexOfIs(s: string, c: char, i: nat)
    requires i <= |s| && (i < |s| ==> s[i] == c) && forall j :: 0 <= j < i ==> s[j] != c
    ensures IndexOf(s, c) == i
  {
    if i > 0 { IndexOfIs(s[1..], c, i - 1); }
  }

  lemma PlainStaysPlain(name: string)
    requires Plain(name)
    ensures Plain(Lower(name)) && Lower(Lower(name)) == Lower(name)
  {
    LowerIs(name);
    LowerIs(Lower(name));
    assert forall i :: 0 <= i < |name| ==> Lower(name)[i] == LowerChar(name[i]);
  }

  lemma SplitsNot(v: string)
    requires NoColon(v) && (v == "" || v[0] != '[')
    ensures SplitHostPort(v) == None
  {
    IndexOfIs(v, ':', |v|);
  }

  lemma SplitsPort(host: string, port: string)
    requires NoColon(host) && NoColon(port) && port != "" && (host == "" || host[0] != '[')
    ensures SplitHostPort(host + ":" + port) == Some(host)
  {
    var v := host + ":" + port;
    IndexOfIs(v, ':', |host|);
    assert v[|host| + 1..] == port && v[..|host|] == host;
    IndexOfIs(port, ':', |port|);
  }

  /** A plain name comes to its small letters: with white space around it or without, and with
      a final dot or without. */
  lemma NormalizesName(name: string, dot: bool, before: string, after: string)
    requires Plain(name) && Blank(before) && Blank(after)
    ensures NormalizeHost(before + (if dot then name + "." else name) + after) == Lower(name)
  {
    var written := if dot then name + "." else name;
    PlainTrimmed(written);
    TrimIs(before, written, after);
    TrimDotIs(name);
    PlainStaysPlain(name);
    SplitsNot(Lower(name));
  }

  /** And with a port. */
  lemma NormalizesNameAndPort(name: string, dot: bool, port: string)
    requires Plain(name) && NoColon(port) && port != "" && port[|port| - 1] != '.'
    ensures NormalizeHost((if dot then name + "." else name) + ":" + port) == Lower(name)
  {
    var written := if dot then name + "." else name;
    var v := written + ":" + port;
    PlainTrimmed(v);
    TrimIs("", v, "");
    assert "" + v + "" == v;
    assert v[|v| - 1] == port[|port| - 1];
    TrimDotIs(v);
    LowerAround(written, port);
    LowerWritten(name, dot);
    SplitsPort(Lower(written), Lower(port));
    TrimDotIs(Lower(name));
  }

  /** An address in brackets, with a port. */
  lemma NormalizesAddress(v: string, address: string, port: string)
    requires v == "[" + address + "]:" + port
    requires forall i :: 0 <= i < |address| ==> address[i] != ']' && !IsSpace(address[i])
    requires address == "" || address[|address| - 1] != '.'
    requires NoColon(port) && port != "" && port[|port| - 1] != '.'
    ensures NormalizeHost(v) == Lower(address)
  {
    BracketedIsSolid(address, port, v);
    LowerAddress(address);
    BracketedSplits(v, address, port);
    SolidSplits(v, Lower(address));
  }

  lemma BracketedSplits(v: string, address: string, port: string)
    requires v == "[" + address + "]:" + port && port != ""
    requires forall i :: 0 <= i < |Lower(address)| ==> Lower(address)[i] != ']'
    ensures SplitHostPort(Lower(v)) == Some(Lower(address))
  {
    LowerBracketed(address, port);
    BracketsSplit(Lower(address), Lower(port));
  }

  /** No white space, and no final dot. */
  predicate Solid(v: string) { v != "" && v[|v| - 1] != '.' && forall i :: 0 <= i < |v| ==> !IsSpace(v[i]) }

  lemma SolidSplits(v: string, host: string)
    requires Solid(v) && SplitHostPort(Lower(v)) == Some(host) && (host == "" || host[|host| - 1] != '.')
    ensures NormalizeHost(v) == host
  {
    PlainTrimmed(v);
    TrimIs("", v, "");
    assert "" + v + "" == v;
    TrimDotIs(v);
    TrimDotIs(host);
  }

  lemma BracketedIsSolid(address: string, port: string, v: string)
    requires v == "[" + address + "]:" + port && NoColon(port) && port != "" && port[|port| - 1] != '.'
    requires forall i :: 0 <= i < |address| ==> !IsSpace(address[i])
    ensures Solid(v)
  {
    assert v[|v| - 1] == port[|port| - 1];
  }

  lemma LowerAddress(address: string)
    requires forall i :: 0 <= i < |address| ==> address[i] != ']'
    requires address == "" || address[|address| - 1] != '.'
    ensures forall i :: 0 <= i < |Lower(address)| ==> Lower(address)[i] != ']'
    ensures Lower(address) == "" || Lower(address)[|Lower(address)| - 1] != '.'
  {
    LowerIs(address);
    assert forall i :: 0 <= i < |address| ==> Lower(address)[i] == LowerChar(address[i]);
  }

  lemma LowerBracketed(address: string, port: string)
    ensures Lower("[" + address + "]:" + port) == "[" + Lower(address) + "]:" + Lower(port)
    ensures |Lower(port)| == |port|
  {
    LowerConcat("[" + address + "]:", port);
    LowerConcat("[" + address, "]:");
    LowerConcat("[", address);
    LowerIs("[");
    LowerIs("]:");
    LowerIs(port);
    assert Lower("[") == "[" && Lower("]:") == "]:";
  }

  lemma BracketsSplit(address: string, port: string)
    requires (forall i :: 0 <= i < |address| ==> address[i] != ']') && port != ""
    ensures SplitHostPort("[" + address + "]:" + port) == Some(address)
  {
    var v := "[" + address + "]:" + port;
    assert forall j :: 1 <= j < |address| + 1 ==> v[j] == address[j - 1];
    IndexOfIs(v, ']', |address| + 1);
    assert v[1..|address| + 1] == address;
  }

  lemma LowerAround(host: string, port: string)
    requires NoColon(port)
    ensures Lower(host + ":" + port) == Lower(host) + ":" + Lower(port)
    ensures NoColon(Lower(port)) && |Lower(port)| == |port|
  {
    LowerConcat(host + ":", port);
    LowerConcat(host, ":");
    LowerIs(":");
    LowerIs(port);
    assert forall i :: 0 <= i < |port| ==> Lower(port)[i] == LowerChar(port[i]);
  }

  lemma LowerWritten(name: string, dot: bool)
    requires Plain(name)
    ensures var written := if dot then name + "." else name;
            && Lower(written) == (if dot then Lower(name) + "." else Lower(name)) && NoColon(Lower(written))
            && Lower(written) != "" && Lower(written)[0] != '['
            && Lower(name)[|Lower(name)| - 1] != '.'
  {
    PlainStaysPlain(name);
    LowerConcat(name, ".");
    LowerIs(".");
    LowerIs(name);
  }

  predicate Serves(r: Route, host: string) { NormalizeHost(r.hostname) == host }

  /** The first route for the host, or the number of routes. */
  function FirstRoute(routes: seq<Route>, host: string): (i: nat)
    ensures i <= |routes| && (i < |routes| ==> Serves(routes[i], host))
    ensures forall j :: 0 <= j < i ==> !Serves(routes[j], host)
  {
    if routes == [] || Serves(routes[0], host) then 0
    else
      var rest := FirstRoute(routes[1..], host);
      assert forall j :: 0 < j < 1 + rest ==> routes[j] == routes[1..][j - 1];
      1 + rest
  }

  datatype Served = NotFound | Unavailable | Redirect(host: string) | Forward(toControl: bool, route: Route)

  function Answer(r: Route, toControl: bool, encrypted: bool): Served {
    if r.status != "active" then Unavailable
    else if !encrypted && r.redirect then Redirect(NormalizeHost(r.hostname))
    else Forward(toControl, r)
  }

  function Serve(s: Snapshot, requestHost: string, encrypted: bool): Served {
    var host := NormalizeHost(requestHost);
    var c, b := FirstRoute(s.body.control, host), FirstRoute(s.body.business, host);
    if c < |s.body.control| then Answer(s.body.control[c], true, encrypted)
    else if b < |s.body.business| then Answer(s.body.business[b], false, encrypted)
    else NotFound
  }

  class Runtime {
    const key: Key
    var current: Snapshot

    constructor (key: Key)
      ensures this.key == key && current == NOTHING
    {
      this.key := key;
      current := NOTHING;
    }

    method LoadSnapshot(s: Snapshot) returns (ok: bool)
      modifies this
      ensures (current, ok) == Load(old(current), s, key)
    {
      if s.body.schema != "v1" || s.body.version < 1 || !Verify(s, key) { return false; }
      if current.body.version >= s.body.version { return false; }
      current := s;
      return true;
    }

    /** Control routes are looked through first. */
    method ServeRequest(requestHost: string, encrypted: bool) returns (served: Served)
      ensures served == Serve(current, requestHost, encrypted)
    {
      var host := NormalizeHost(requestHost);
      var i := FindRoute(current.body.control, host);
      if i < |current.body.control| { return Answer(current.body.control[i], true, encrypted); }
      i := FindRoute(current.body.business, host);
      if i < |current.body.business| { return Answer(current.body.business[i], false, encrypted); }
      return NotFound;
    }
  }

  method FindRoute(routes: seq<Route>, host: string) returns (i: nat)
    ensures i == FirstRoute(routes, host)
  {
    i := 0;
    while i < |routes| && !Serves(routes[i], host)
      invariant 0 <= i <= |routes| && forall j :: 0 <= j < i ==> !Serves(routes[j], host)
    {
      i := i + 1;
    }
    FirstRouteIs(routes, host, i);
  }

  lemma FirstRouteIs(routes: seq<Route>, host: string, i: nat)
    requires i <= |routes| && (i < |routes| ==> Serves(routes[i], host))
             && forall j :: 0 <= j < i ==> !Serves(routes[j], host)
    ensures FirstRoute(routes, host) == i
  {
    var k := FirstRoute(routes, host);
    assert !(k < i) && !(i < k);
  }

  predicate IsControlHost(hosts: seq<string>, host: string) {
    exists i | 0 <= i < |hosts| :: NormalizeHost(hosts[i]) == host
  }

  predicate IsSourceHost(sources: seq<Source>, i: nat, host: string) {
    && i < |sources| && NormalizeHost(sources[i].hostname) == host
    && forall j | 0 <= j < i :: NormalizeHost(sources[j].hostname) != host
  }

  lemma ControlFound(hosts: seq<string>, target: string, host: string)
    ensures FirstRoute(ControlRoutes(hosts, target), host) < |hosts| <==> IsControlHost(hosts, host)
    ensures IsControlHost(hosts, host) ==>
      var r := ControlRoutes(hosts, target)[FirstRoute(ControlRoutes(hosts, target), host)];
      r.status == "active" && !r.redirect && r.target == target
  {
    forall i | 0 <= i < |hosts|
      ensures ControlRoutes(hosts, target)[i] == Route(hosts[i], target, "control", false, "active")
    {
      ControlRoutesAt(hosts, target, i);
    }
  }

  lemma BusinessFound(sources: seq<Source>, target: string, i: nat, host: string)
    requires IsSourceHost(sources, i, host)
    ensures FirstRoute(BusinessRoutes(sources, target), host) == i
    ensures BusinessRoutes(sources, target)[i] == RouteOf(sources[i], target)
  {
    forall j | 0 <= j < |sources| ensures BusinessRoutes(sources, target)[j] == RouteOf(sources[j], target) {
      BusinessRoutesAt(sources, target, j);
    }
  }

  lemma BusinessMissing(sources: seq<Source>, target: string, host: string)
    requires forall i :: 0 <= i < |sources| ==> NormalizeHost(sources[i].hostname) != host
    ensures FirstRoute(BusinessRoutes(sources, target), host) == |sources|
  {
    forall j | 0 <= j < |sources| ensures BusinessRoutes(sources, target)[j] == RouteOf(sources[j], target) {
      BusinessRoutesAt(sources, target, j);
    }
  }

  /** From the domains to the answer: a control host always reaches control; any other
      host reaches the business target iff its domain's mapping is running and no
      redirect is due, and is unknown iff no listed domain has it. */
  lemma ServedAsBuilt(version: int, hosts: seq<string>, controlTarget: string, sources: seq<Source>,
                      businessTarget: string,
                      key: Key, now: int, requestHost: string, encrypted: bool)
    ensures var s := Build(version, ControlRoutes(hosts, controlTarget), BusinessRoutes(sources, businessTarget), key,
                           now);
            var host, served := NormalizeHost(requestHost), Serve(s, requestHost, encrypted);
            && (IsControlHost(hosts, host) ==>
                  served.Forward? && served.toControl && served.route.target == controlTarget)
            && (forall i: nat :: !IsControlHost(hosts, host) && IsSourceHost(sources, i, host) ==>
                  served == if !sources[i].running then Unavailable
                            else if !encrypted && sources[i].redirect then Redirect(host)
                            else Forward(false, RouteOf(sources[i], businessTarget)))
            && (!IsControlHost(hosts, host)
                && (forall i :: 0 <= i < |sources| ==> NormalizeHost(sources[i].hostname) != host)
                ==> served == NotFound)
  {
    var host := NormalizeHost(requestHost);
    ControlFound(hosts, controlTarget, host);
    forall i: nat | IsSourceHost(sources, i, host)
      ensures FirstRoute(BusinessRoutes(sources, businessTarget), host) == i
      ensures BusinessRoutes(sources, businessTarget)[i] == RouteOf(sources[i], businessTarget)
    {
      BusinessFound(sources, businessTarget, i, host);
    }
    if forall i :: 0 <= i < |sources| ==> NormalizeHost(sources[i].hostname) != host {
      BusinessMissing(sources, businessTarget, host);
    }
  }

  // ---------- publishing ----------

  datatype RowStatus = ActiveRow | SupersededRow

  /** How far a build gets: nothing published (or refused earlier), the stable file
      replaced, the old rows marked superseded, the new row inserted, or the state updated. */
  datatype Reach = NothingPublished | FilePublished | RowsSuperseded | RowInserted | StateUpdated

  datatype File = File(snapshot: Snapshot, stamp: int)

  /** The database's view, the watched file, the router, and the fingerprint of the file
      that the watcher saw last. */
  datatype System = System(
    version: int, applied: int, rows: map<int, RowStatus>, file: Option<File>, current: Snapshot, seen: Option<int>)

  datatype Site = Site(key: Key, hosts: seq<string>, controlTarget: string, businessTarget: string)

  function Superseded(rows: map<int, RowStatus>): map<int, RowStatus> { map v | v in rows :: SupersededRow }

  /** The version is the primary key of router_snapshots: an insert that repeats one
      fails, whatever the environment. */
  function Actual(sys: System, reach: Reach): Reach {
    if (reach == RowInserted || reach == StateUpdated) && sys.version + 1 in sys.rows then RowsSuperseded else reach
  }

  function Publish(sys: System, site: Site, sources: seq<Source>, now: int, reach: Reach, stamp: int): System {
    var s := Build(sys.version + 1, ControlRoutes(site.hosts, site.controlTarget),
                   BusinessRoutes(sources, site.businessTarget),
                   site.key, now);
    var rows := Superseded(sys.rows)[s.body.version := ActiveRow];
    match Actual(sys, reach)
    case NothingPublished => sys
    case FilePublished => sys.(file := Some(File(s, stamp)))
    case RowsSuperseded => sys.(file := Some(File(s, stamp)), rows := Superseded(sys.rows))
    case RowInserted => sys.(file := Some(File(s, stamp)), rows := rows)
    case StateUpdated =>
      sys.(file := Some(File(s, stamp)), rows := rows, version := s.body.version, applied := s.body.version)
  }

  /** One turn of the watcher. `statOk` and `readable` are what the file system answers;
      a file that could not be read counts as seen. */
  function Tick(sys: System, key: Key, statOk: bool, readable: bool): System {
    if sys.file.None? || !statOk then sys.(seen := None)
    else if sys.seen == Some(sys.file.value.stamp) then sys
    else
      sys.(seen := Some(sys.file.value.stamp),
           current := if readable then Load(sys.current, sys.file.value.snapshot, key).0 else sys.current)
  }

  class Disk {
    var lastGood: Option<File>

    constructor ()
      ensures lastGood == None
    {
      lastGood := None;
    }
  }

  /** The control process. */
  class Control {
    const site: Site
    const disk: Disk
    var version: int
    var applied: int
    var rows: map<int, RowStatus>

    constructor (site: Site, disk: Disk)
      ensures this.site == site && this.disk == disk && version == 0 && applied == 0 && rows == map[]
    {
      this.site, this.disk := site, disk;
      version, applied, rows := 0, 0, map[];
    }

    function View(current: Snapshot, seen: Option<int>): System
      reads this, disk
    {
      System(version, applied, rows, disk.lastGood, current, seen)
    }

    method BuildRouterSnapshot(sources: seq<Source>, now: int, reach: Reach, stamp: int) returns (ok: bool)
      modifies this, disk
      ensures forall current, seen ::
        View(current, seen) == Publish(old(View(current, seen)), site, sources, now, reach, stamp)
      ensures ok <==> Actual(old(View(NOTHING, None)), reach) == StateUpdated
    {
      var control := BuildControlRoutes(site.hosts, site.controlTarget);
      var business := BuildBusinessRoutes(sources, site.businessTarget);
      var snapshot := Build(version + 1, control, business, site.key, now);
      if reach == NothingPublished { return false; }
      disk.lastGood := Some(File(snapshot, stamp));
      if reach == FilePublished { return false; }
      rows := map v | v in rows :: SupersededRow;
      if reach == RowsSuperseded || version + 1 in rows { return false; }
      rows := rows[snapshot.body.version := ActiveRow];
      if reach == RowInserted { return false; }
      version, applied := snapshot.body.version, snapshot.body.version;
      return true;
    }
  }

  method BuildControlRoutes(hosts: seq<string>, target: string) returns (routes: seq<Route>)
    ensures routes == ControlRoutes(hosts, target)
  {
    routes := [];
    var i := 0;
    while i < |hosts|
      invariant 0 <= i <= |hosts| && routes == ControlRoutes(hosts[..i], target)
    {
      ControlRoutesSnoc(hosts[..i], hosts[i], target);
      assert hosts[..i] + [hosts[i]] == hosts[..i + 1];
      routes := routes + [Route(hosts[i], target, "control", false, "active")];
      i := i + 1;
    }
    assert hosts[..i] == hosts;
  }

  lemma {:induction false} ControlRoutesSnoc(hosts: seq<string>, host: string, target: string)
    ensures ControlRoutes(hosts + [host], target) == ControlRoutes(hosts, target)
            + [Route(host, target, "control", false, "active")]
  {
    if hosts == [] {
      assert hosts + [host] == [host];
    } else {
      assert (hosts + [host])[0] == hosts[0] && (hosts + [host])[1..] == hosts[1..] + [host];
      ControlRoutesSnoc(hosts[1..], host, target);
    }
  }

  method BuildBusinessRoutes(sources: seq<Source>, target: string) returns (routes: seq<Route>)
    ensures routes == BusinessRoutes(sources, target)
  {
    routes := [];
    var i := 0;
    while i < |sources|
      invariant 0 <= i <= |sources| && routes == BusinessRoutes(sources[..i], target)
    {
      BusinessRoutesSnoc(sources[..i], sources[i], target);
      assert sources[..i] + [sources[i]] == sources[..i + 1];
      routes := routes + [RouteOf(sources[i], target)];
      i := i + 1;
    }
    assert sources[..i] == sources;
  }

  lemma {:induction false} BusinessRoutesSnoc(sources: seq<Source>, s: Source, target: string)
    ensures BusinessRoutes(sources + [s], target) == BusinessRoutes(sources, target) + [RouteOf(s, target)]
  {
    if sources == [] {
      assert sources + [s] == [s];
    } else {
      assert (sources + [s])[0] == sources[0] && (sources + [s])[1..] == sources[1..] + [s];
      BusinessRoutesSnoc(sources[1..], s, target);
    }
  }

  /** The router process's side of the file. */
  class Watcher {
    const disk: Disk
    const runtime: Runtime
    var seen: Option<int>

    constructor (disk: Disk, runtime: Runtime)
      ensures this.disk == disk && this.runtime == runtime && seen == None
    {
      this.disk, this.runtime := disk, runtime;
      seen := None;
    }

    function View(version: int, applied: int, rows: map<int, RowStatus>): System
      reads this, disk, runtime
    {
      System(version, applied, rows, disk.lastGood, runtime.current, seen)
    }

    method ReloadIfChanged(statOk: bool, readable: bool)
      modifies this, runtime
      ensures forall version, applied, rows ::
        View(version, applied, rows) == Tick(old(View(version, applied, rows)), runtime.key, statOk, readable)
    {
      if disk.lastGood.None? || !statOk {
        seen := None;
        return;
      }
      var file := disk.lastGood.value;
      if seen == Some(file.stamp) { return; }
      if readable { var _ := runtime.LoadSnapshot(file.snapshot); }
      seen := Some(file.stamp);
    }
  }

  // ---------- runs ----------

  datatype Op =
    | BuildOp(sources: seq<Source>, now: int, reach: Reach, stamp: int)
    | TickOp(statOk: bool, readable: bool)

  function Exec(sys: System, site: Site, op: Op): System {
    match op
    case BuildOp(sources, now, reach, stamp) => Publish(sys, site, sources, now, reach, stamp)
    case TickOp(statOk, readable) => Tick(sys, site.key, statOk, readable)
  }

  function Run(sys: System, site: Site, ops: seq<Op>): System
    decreases |ops|
  {
    if ops == [] then sys else Run(Exec(sys, site, ops[0]), site, ops[1..])
  }

  const START := System(0, 0, map[], None, NOTHING, None)

  /** The published file, if any, is valid and carries the database's version. */
  predicate Agrees(sys: System, key: Key) {
    match sys.file
    case None => sys.version == 0
    case Some(f) => Valid(f.snapshot, key) && f.snapshot.body.version == sys.version
  }

  /** Agreement, and the router not ahead of it; if the watcher has seen this very file,
      the router has its version. */
  predicate InStep(sys: System, key: Key) {
    && Agrees(sys, key) && sys.version >= 0 && sys.applied == sys.version
    && 0 <= sys.current.body.version <= sys.version
    && (sys.file.Some? && sys.seen == Some(sys.file.value.stamp) ==> sys.current.body.version == sys.version)
    && (forall v :: v in sys.rows ==> v <= sys.version)
  }

  /** A build that leaves the file ahead of the state. */
  predicate HalfPublishes(sys: System, op: Op) {
    op.BuildOp? && Actual(sys, op.reach) != NothingPublished && Actual(sys, op.reach) != StateUpdated
  }

  /** Agreement, no row above the version, and the router not ahead of it. */
  predicate Level(sys: System, key: Key) {
    && Agrees(sys, key) && 0 <= sys.version && sys.current.body.version <= sys.version
    && forall v :: v in sys.rows ==> v <= sys.version
  }

  /** File and database stay in agreement over a step iff it is no such build; and then the
      router does not get ahead. */
  lemma StepAgreesIff(sys: System, site: Site, op: Op)
    requires Level(sys, site.key)
    ensures Agrees(Exec(sys, site, op), site.key) <==> !HalfPublishes(sys, op)
    ensures !HalfPublishes(sys, op) ==> Level(Exec(sys, site, op), site.key)
  {
  }

  predicate AgreesThroughout(sys: System, site: Site, ops: seq<Op>)
    decreases |ops|
  {
    Agrees(sys, site.key) && (ops == [] || AgreesThroughout(Exec(sys, site, ops[0]), site, ops[1..]))
  }

  predicate NeverHalfPublishes(sys: System, site: Site, ops: seq<Op>)
    decreases |ops|
  {
    ops == [] || (!HalfPublishes(sys, ops[0]) && NeverHalfPublishes(Exec(sys, site, ops[0]), site, ops[1..]))
  }

  /** Over a run file and database always agree iff no step is such a build, whatever the
      watcher does; and then the router is never ahead. */
  lemma {:induction false} AgreesThroughoutIff(sys: System, site: Site, ops: seq<Op>)
    requires Level(sys, site.key)
    ensures AgreesThroughout(sys, site, ops) <==> NeverHalfPublishes(sys, site, ops)
    ensures AgreesThroughout(sys, site, ops) ==> Level(Run(sys, site, ops), site.key)
    decreases |ops|
  {
    if ops != [] {
      StepAgreesIff(sys, site, ops[0]);
      if !HalfPublishes(sys, ops[0]) { AgreesThroughoutIff(Exec(sys, site, ops[0]), site, ops[1..]); }
    }
  }

  /** Builds publish fully or not at all, each write has a fingerprint of its own, and
      files that are there can be read. */
  predicate Smooth(sys: System, op: Op) {
    match op
    case BuildOp(_, _, reach, stamp) =>
      && !HalfPublishes(sys, op)
      && Some(stamp) != sys.seen && (sys.file.Some? ==> stamp != sys.file.value.stamp)
    case TickOp(_, readable) => readable
  }

  predicate SmoothRun(sys: System, site: Site, ops: seq<Op>)
    decreases |ops|
  {
    ops == [] || (Smooth(sys, ops[0]) && SmoothRun(Exec(sys, site, ops[0]), site, ops[1..]))
  }

  lemma StepKeepsInStep(sys: System, site: Site, op: Op)
    requires InStep(sys, site.key) && Smooth(sys, op)
    ensures InStep(Exec(sys, site, op), site.key)
  {
  }

  lemma {:induction false} RunKeepsInStep(sys: System, site: Site, ops: seq<Op>)
    requires InStep(sys, site.key) && SmoothRun(sys, site, ops)
    ensures InStep(Run(sys, site, ops), site.key)
    decreases |ops|
  {
    if ops != [] {
      StepKeepsInStep(sys, site, ops[0]);
      RunKeepsInStep(Exec(sys, site, ops[0]), site, ops[1..]);
    }
  }

  /** Over all smooth runs: published and database versions agree, the router never
      exceeds them, and one turn of the watcher makes it equal. */
  lemma PublishedReachesRouter(site: Site, ops: seq<Op>)
    requires SmoothRun(START, site, ops)
    ensures var sys := Run(START, site, ops);
            && Agrees(sys, site.key) && sys.current.body.version <= sys.version
            && Tick(sys, site.key, true, true).current.body.version == sys.version
  {
    RunKeepsInStep(START, site, ops);
  }

  // ---------- from the domains to the answer, by way of the file ----------

  /** What a request is answered, by the site and the domains that a build saw: a control host
      reaches the control target; else the first domain with that host decides. */
  ghost predicate AnsweredFor(site: Site, sources: seq<Source>, requestHost: string, encrypted: bool, served: Served) {
    var host := NormalizeHost(requestHost);
    if exists i :: 0 <= i < |site.hosts| && NormalizeHost(site.hosts[i]) == host then
      served.Forward? && served.toControl && served.route.target == site.controlTarget
    else if exists i :: 0 <= i < |sources| && NormalizeHost(sources[i].hostname) == host then
      forall i :: 0 <= i < |sources| && NormalizeHost(sources[i].hostname) == host
                  && (forall j :: 0 <= j < i ==> NormalizeHost(sources[j].hostname) != host) ==>
        && (!sources[i].running ==> served == Unavailable)
        && (sources[i].running && !encrypted && sources[i].redirect ==> served == Redirect(host))
        && (sources[i].running && (encrypted || !sources[i].redirect) ==>
              served == Forward(false, Route(sources[i].hostname, site.businessTarget, sources[i].httpsMode,
                                             sources[i].redirect, "active")))
    else served == NotFound
  }

  lemma BuiltAnswers(version: int, site: Site, sources: seq<Source>, now: int, requestHost: string, encrypted: bool)
    ensures var s := Build(version, ControlRoutes(site.hosts, site.controlTarget),
                           BusinessRoutes(sources, site.businessTarget), site.key, now);
            AnsweredFor(site, sources, requestHost, encrypted, Serve(s, requestHost, encrypted))
  {
    var host := NormalizeHost(requestHost);
    ServedAsBuilt(version, site.hosts, site.controlTarget, sources, site.businessTarget, site.key, now, requestHost,
                  encrypted);
    assert IsControlHost(site.hosts, host)
           <==> exists i :: 0 <= i < |site.hosts| && NormalizeHost(site.hosts[i]) == host;
    forall i: nat | i < |sources| && NormalizeHost(sources[i].hostname) == host
                    && forall j :: 0 <= j < i ==> NormalizeHost(sources[j].hostname) != host
      ensures IsSourceHost(sources, i, host)
    {
    }
  }

  /** A build that replaces the file leaves one that answers by the site and the domains it saw,
      in the version after the database's. */
  lemma PublishedAnswers(sys: System, site: Site, sources: seq<Source>, now: int, reach: Reach, stamp: int,
                         requestHost: string, encrypted: bool)
    requires reach != NothingPublished
    ensures var sys' := Publish(sys, site, sources, now, reach, stamp);
            && sys'.file.Some? && sys'.file.value.stamp == stamp
            && sys'.file.value.snapshot.body.version == sys.version + 1
            && (sys.version >= 0 ==> Valid(sys'.file.value.snapshot, site.key))
            && AnsweredFor(site, sources, requestHost, encrypted,
                           Serve(sys'.file.value.snapshot, requestHost, encrypted))
  {
    BuiltAnswers(sys.version + 1, site, sources, now, requestHost, encrypted);
  }

  /** What a build records, as far as it gets: a repeated version is as far as the insert. */
  lemma PublishedRecords(sys: System, site: Site, sources: seq<Source>, now: int, reach: Reach, stamp: int)
    ensures var sys' := Publish(sys, site, sources, now, reach, stamp);
            var inserted := reach in {RowInserted, StateUpdated} && sys.version + 1 !in sys.rows;
            && (reach == NothingPublished ==> sys' == sys)
            && sys'.current == sys.current && sys'.seen == sys.seen
            && (reach in {RowsSuperseded, RowInserted, StateUpdated} ==>
                  && sys'.rows.Keys == sys.rows.Keys + (if inserted then {sys.version + 1} else {})
                  && (forall v :: v in sys.rows ==> sys'.rows[v] == SupersededRow)
                  && (inserted ==> sys'.rows[sys.version + 1] == ActiveRow))
            && (reach == FilePublished ==> sys'.rows == sys.rows)
            && sys'.version == (if inserted && reach == StateUpdated then sys.version + 1 else sys.version)
            && sys'.applied == (if inserted && reach == StateUpdated then sys.version + 1 else sys.applied)
  {
  }

  /** The router takes the file on the watcher's next turn, unless its version is not newer or
      its fingerprint is the one seen last; and then it answers so too. */
  lemma TakenAnswers(sys: System, site: Site, sources: seq<Source>, now: int, reach: Reach, stamp: int,
                     requestHost: string, encrypted: bool)
    requires reach != NothingPublished && sys.version >= 0
    requires sys.current.body.version <= sys.version && sys.seen != Some(stamp)
    ensures var sys' := Tick(Publish(sys, site, sources, now, reach, stamp), site.key, true, true);
            && sys'.current.body.version == sys.version + 1 && sys'.seen == Some(stamp)
            && AnsweredFor(site, sources, requestHost, encrypted, Serve(sys'.current, requestHost, encrypted))
  {
    PublishedAnswers(sys, site, sources, now, reach, stamp, requestHost, encrypted);
  }

  /** The watcher offers the router each new file once; what is invalid or not newer changes
      nothing. */
  lemma TickStores(sys: System, key: Key, statOk: bool, readable: bool)
    ensures var sys' := Tick(sys, key, statOk, readable);
            && sys' == sys.(seen := sys'.seen, current := sys'.current)
            && sys'.seen == (if statOk && sys.file.Some? then Some(sys.file.value.stamp) else None)
            && (var takes := statOk && readable && sys.file.Some? && sys.seen != Some(sys.file.value.stamp);
                sys'.current
                == if takes && sys.file.value.snapshot.body.schema == "v1" && sys.file.value.snapshot.body.version >= 1
                      && Verify(sys.file.value.snapshot, key)
                      && sys.file.value.snapshot.body.version > sys.current.body.version
                   then sys.file.value.snapshot else sys.current)
  {
  }

  // ---------- half-published builds ----------

  /** After a build that published the file but not the state, the next complete build
      repeats its version; a router that took the first refuses the second, however often
      the watcher looks. */
  lemma RepeatedVersionRefused(sys: System, site: Site, first: seq<Source>, second: seq<Source>, now: int, later: int,
                               stamp: int, other: int)
    requires InStep(sys, site.key) && sys.seen != Some(stamp) && stamp != other
    ensures var half := Publish(sys, site, first, now, FilePublished, stamp);
            var taken := Tick(half, site.key, true, true);
            var full := Publish(taken, site, second, later, StateUpdated, other);
            && taken.current.body.version == sys.version + 1 && taken.version == sys.version
            && full.file.value.snapshot.body.version == full.version == sys.version + 1
            && Tick(full, site.key, true, true).current == taken.current
  {
  }

  /** After a build that inserted its row but did not update the state, no later build
      ever updates it again: each repeats the version, and its insert fails. */
  lemma {:induction false} InsertedRowBlocks(sys: System, site: Site, ops: seq<Op>)
    requires sys.version + 1 in sys.rows
    ensures Run(sys, site, ops).version == sys.version
    decreases |ops|
  {
    if ops != [] { InsertedRowBlocks(Exec(sys, site, ops[0]), site, ops[1..]); }
  }
}
