/** What a DNS synchronisation decides (server/internal/service/cloudflare_jobs.go): which
    record at the provider a domain gets, and whether the panel regards it as its own. */
module DnsSync {
  import opened Wrappers
  import opened Text
  import opened Schema

  datatype SyncAction = Check | Adopt | Overwrite | Resync | CancelSync

  /** A record as the provider lists it. */
  datatype Listed = Listed(id: string, kind: string, content: string, proxied: bool, ttl: int)

  datatype TokenState = TokenMissing | TokenUnreadable | TokenUsable

  /** A provider's answer: permission denied, another failure, or a value. */
  datatype Told<+T> = Denied | Unavailable | Told(value: T)

  /** The token, the zone that matches the hostname, the records listed for it, and what an
      upsert of the wanted record would return. */
  datatype Answers = Answers(
    token: TokenState, zone: Told<Option<string>>, records: Told<seq<Listed>>, upserted: Told<Listed>)

  /** Aborted is an error of the job; Crashed is an index out of range. */
  datatype Decision =
    | Cancelled | Unresolved | Aborted | Crashed
    | Save(zone: string, record: Listed, managed: bool, adopted: bool)

  function Wanted(row: Option<DnsRow>, mode: HttpsMode, fallback: DnsSpec): Listed {
    var spec := if row.Some? then row.value.spec else fallback;
    Listed("", spec.kind, spec.content, mode == CloudflareProxy, spec.ttl)
  }

  predicate Matches(r: Listed, want: Listed, withTtl: bool) {
    && Lower(r.kind) == Lower(want.kind) && Lower(r.content) == Lower(want.content) && r.proxied == want.proxied
    && (withTtl ==> r.ttl == want.ttl)
  }

  function FirstMatch(records: seq<Listed>, want: Listed, withTtl: bool): (found: Option<Listed>)
    ensures found.Some? ==> found.value in records && Matches(found.value, want, withTtl)
    ensures found.None? ==> forall r :: r in records ==> !Matches(r, want, withTtl)
  {
    if records == [] then None
    else if Matches(records[0], want, withTtl) then Some(records[0])
    else FirstMatch(records[1..], want, withTtl)
  }

  predicate Differs(r: Listed, want: Listed) {
    r.content != want.content || r.proxied != want.proxied || r.kind != want.kind || r.ttl != want.ttl
  }

  function Upserted(zone: string, answer: Told<Listed>, adopted: bool): Decision {
    match answer
    case Denied => Unresolved
    case Unavailable => Aborted
    case Told(r) => if r.id == "" then Aborted else Save(zone, r, true, adopted)
  }

  /** An empty id stands for no record. */
  function Choose(zone: string, records: seq<Listed>, want: Listed, action: SyncAction,
                  answer: Told<Listed>): Decision
  {
    var found := FirstMatch(records, want, action == Resync);
    var selected := if found.Some? then found.value else Listed("", "", "", false, 0);
    if selected.id == "" && records != [] && action == Check then Unresolved
    else if selected.id == "" && action == Adopt && records == [] then Crashed
    else
      var taken := if selected.id == "" && action == Adopt then records[0] else selected;
      var adopted := found.Some? || (selected.id == "" && action == Adopt);
      if taken.id == "" || ((action == Overwrite || action == Resync) && Differs(taken, want))
      then Upserted(zone, answer, adopted)
      else Save(zone, taken, action == Resync, adopted && action != Resync)
  }

  function Decide(row: Option<DnsRow>, mode: HttpsMode, fallback: DnsSpec, action: SyncAction,
                  answers: Answers): Decision
  {
    if action == CancelSync then Cancelled
    else if answers.token == TokenMissing then Unresolved
    else if answers.token == TokenUnreadable then Aborted
    else if answers.zone.Denied? then Unresolved
    else if answers.zone.Unavailable? then Aborted
    else
      match answers.zone.value
      case None => Unresolved
      case Some(zone) =>
        if answers.records.Denied? then Unresolved
        else if answers.records.Unavailable? then Aborted
        else if action == Resync && !(row.Some? && row.value.managed) then Unresolved
        else Choose(zone, answers.records.value, Wanted(row, mode, fallback), action, answers.upserted)
  }

  /** The panel takes a record for its own iff it wrote it in this very step, or was asked
      to resynchronise the one it finds unchanged. */
  lemma ManagedIffWritten(zone: string, records: seq<Listed>, want: Listed, action: SyncAction, answer: Told<Listed>)
    requires action != CancelSync && Choose(zone, records, want, action, answer).Save?
    ensures var save := Choose(zone, records, want, action, answer);
            var found := FirstMatch(records, want, action == Resync);
            save.managed <==>
              || action == Resync
              || (action == Overwrite && (found.None? || found.value.id == "" || Differs(found.value, want)))
              || (action == Check && records == [])
              || (action == Adopt && (found.None? || found.value.id == "") && records[0].id == "")
  {
  }

  /** Adopting where the provider lists nothing indexes an empty list. */
  lemma CrashesIff(zone: string, records: seq<Listed>, want: Listed, action: SyncAction, answer: Told<Listed>)
    ensures Choose(zone, records, want, action, answer) == Crashed <==> action == Adopt && records == []
  {
  }
}
