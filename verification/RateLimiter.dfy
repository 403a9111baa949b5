/** The in-memory request limiter (server/internal/httpapi/rate_limit.go): a fixed-window
    counter per key, restarted by the first call after its window. */
module RateLimiter {
  import opened Sets

  /** Instants and durations are nanoseconds; instant 0 is Go's zero time. */
  const SECOND := 1_000_000_000
  const MAX_KEYS := 4096

  datatype Bucket = Bucket(started: int, count: int)

  /** What a call answers: let through, or denied with the time to wait. */
  datatype Answer = Allow | Deny(wait: int)

  // ---------- one call ----------

  function Kept(entries: map<string, Bucket>): map<string, Bucket> {
    if |entries| > MAX_KEYS then map[] else entries
  }

  function Lookup(entries: map<string, Bucket>, key: string): Bucket {
    if key in entries then entries[key] else Bucket(0, 0)
  }

  /** The bucket a call counts in: the stored one, or a new one if there is none or its
      window has passed. */
  function Current(entries: map<string, Bucket>, window: int, key: string, now: int): Bucket {
    var b := Lookup(Kept(entries), key);
    if b.started == 0 || now - b.started >= window then Bucket(now, 0) else b
  }

  function AtLeast(a: int, b: int): int { if a < b then b else a }

  function Step(entries: map<string, Bucket>, limit: int, window: int, key: string, now: int)
    : (map<string, Bucket>, Answer)
  {
    var b := Current(entries, window, key, now);
    if b.count >= limit then (Kept(entries), Deny(AtLeast(window - (now - b.started), SECOND)))
    else (Kept(entries)[key := b.(count := b.count + 1)], Allow)
  }

  class Limiter {
    var entries: map<string, Bucket>
    const limit: int
    const window: int

    constructor (limit: int, window: int)
      ensures this.limit == limit && this.window == window && entries == map[]
    {
      this.limit, this.window := limit, window;
      entries := map[];
    }

    method Call(key: string, now: int) returns (allowed: bool, wait: int)
      modifies this
      ensures var (entries', answer) := Step(old(entries), limit, window, key, now);
              && entries == entries'
              && (allowed <==> answer == Allow)
              && wait == (if answer.Deny? then answer.wait else 0)
      ensures |old(entries)| <= MAX_KEYS + 1 ==> |entries| <= MAX_KEYS + 1
    {
      if |entries| > 4096 { entries := map[]; }
      var bucket := Bucket(0, 0);
      if key in entries { bucket := entries[key]; }
      if bucket.started == 0 || now - bucket.started >= window { bucket := Bucket(now, 0); }
      if bucket.count >= limit {
        wait := window - (now - bucket.started);
        if wait < SECOND { wait := SECOND; }
        return false, wait;
      }
      bucket := bucket.(count := bucket.count + 1);
      entries := entries[key := bucket];
      return true, 0;
    }

    method Reset(key: string)
      modifies this
      ensures entries == old(entries) - {key}
    {
      entries := entries - {key};
    }
  }

  /** One call, from the stored bucket: whether it counts in it, and what a denial tells. */
  lemma CallDecides(entries: map<string, Bucket>, limit: int, window: int, key: string, now: int)
    ensures var kept := if |entries| > 4096 then map[] else entries;
            var live := key in kept && kept[key].started != 0 && now < kept[key].started + window;
            var b := if live then kept[key] else Bucket(now, 0);
            var left := b.started + window - now;
            Step(entries, limit, window, key, now)
            == if b.count < limit then (kept[key := Bucket(b.started, b.count + 1)], Allow)
               else (kept, Deny(if left < 1_000_000_000 then 1_000_000_000 else left))
  {
  }

  // ---------- runs ----------

  datatype Event = Call(key: string, now: int) | Reset(key: string)

  function After(entries: map<string, Bucket>, limit: int, window: int, e: Event): map<string, Bucket> {
    match e
    case Call(key, now) => Step(entries, limit, window, key, now).0
    case Reset(key) => entries - {key}
  }

  function RunEvents(entries: map<string, Bucket>, limit: int, window: int, events: seq<Event>): map<string, Bucket>
    decreases |events|
  {
    if events == [] then entries else RunEvents(After(entries, limit, window, events[0]), limit, window, events[1..])
  }

  /** The instant of the event, if it is a call of `key` that is let through. */
  function PassedAt(entries: map<string, Bucket>, limit: int, window: int, e: Event, key: string): seq<int> {
    if e.Call? && e.key == key && Step(entries, limit, window, key, e.now).1 == Allow then [e.now] else []
  }

  /** The instants at which calls of `key` are let through. */
  function Passed(entries: map<string, Bucket>, limit: int, window: int, events: seq<Event>, key: string): seq<int>
    decreases |events|
  {
    if events == [] then []
    else
      PassedAt(entries, limit, window, events[0], key)
      + Passed(After(entries, limit, window, events[0]), limit, window, events[1..], key)
  }

  /** Time does not run back, and never is the zero time. */
  ghost predicate Ordered(events: seq<Event>, from: int) {
    && from > 0
    && (forall i :: 0 <= i < |events| && events[i].Call? ==> from <= events[i].now)
    && (forall i, j :: 0 <= i < j < |events| && events[i].Call? && events[j].Call? ==> events[i].now <= events[j].now)
  }

  function Keys(events: seq<Event>): set<string> { set i | 0 <= i < |events| && events[i].Call? :: events[i].key }

  /** The event makes the limiter forget the bucket of `key`. */
  predicate Drops(entries: map<string, Bucket>, e: Event, key: string) {
    key in entries && (if e.Call? then |entries| > MAX_KEYS else e.key == key)
  }

  /** In no state of the run does an event do that. */
  predicate Survives(entries: map<string, Bucket>, limit: int, window: int, events: seq<Event>, key: string)
    decreases |events|
  {
    events == []
    || (!Drops(entries, events[0], key)
        && Survives(After(entries, limit, window, events[0]), limit, window, events[1..], key))
  }

  /** How often that happens in the run. */
  function DropsOf(entries: map<string, Bucket>, limit: int, window: int, events: seq<Event>, key: string): nat
    decreases |events|
  {
    if events == [] then 0
    else
      (if Drops(entries, events[0], key) then 1 else 0)
      + DropsOf(After(entries, limit, window, events[0]), limit, window, events[1..], key)
  }

  lemma {:induction false} SurvivesIff(entries: map<string, Bucket>, limit: int, window: int, events: seq<Event>,
                                       key: string)
    ensures Survives(entries, limit, window, events, key) <==> DropsOf(entries, limit, window, events, key) == 0
    decreases |events|
  {
    if events != [] { SurvivesIff(After(entries, limit, window, events[0]), limit, window, events[1..], key); }
  }

  function CountFrom(times: seq<int>, a: int): nat {
    if times == [] then 0
    else CountFrom(times[..|times| - 1], a) + (if a <= times[|times| - 1] then 1 else 0)
  }

  /** How many fall into the half-open interval of the given width that starts at a. */
  function CountWithin(times: seq<int>, a: int, width: int): nat {
    if times == [] then 0
    else CountWithin(times[..|times| - 1], a, width) + (if a <= times[|times| - 1] < a + width then 1 else 0)
  }

  lemma CountFromSnoc(times: seq<int>, x: int, a: int)
    ensures CountFrom(times + [x], a) == CountFrom(times, a) + (if a <= x then 1 else 0)
  {
    assert (times + [x])[..|times|] == times;
  }

  lemma CountWithinSnoc(times: seq<int>, x: int, a: int, width: int)
    ensures CountWithin(times + [x], a, width) == CountWithin(times, a, width) + (if a <= x < a + width then 1 else 0)
  {
    assert (times + [x])[..|times|] == times;
  }

  lemma WithinFrom(times: seq<int>, a: int, width: int)
    ensures CountWithin(times, a, width) <= CountFrom(times, a)
  {
  }

  lemma AllBefore(times: seq<int>, a: int)
    requires forall i :: 0 <= i < |times| ==> times[i] < a
    ensures CountFrom(times, a) == 0
  {
  }

  lemma WithinEmpty(times: seq<int>, a: int, width: int)
    requires width <= 0
    ensures CountWithin(times, a, width) == 0
  {
  }

  // ---------- what the counters know ----------

  /** The stored bucket against the instants passed so far: since its start at most its
      count, one of them at its start; and `past` within a window before that. It is
      limit - 1 until the first drop, when the count is exact. */
  ghost predicate Accurate(b: Bucket, limit: int, window: int, passed: seq<int>, past: int) {
    && 1 <= b.count <= limit && b.started > 0
    && (forall i :: 0 <= i < |passed| ==> passed[i] < b.started + window)
    && (past == limit - 1 ==> CountFrom(passed, b.started) == b.count)
    && (forall a :: a > b.started ==> CountFrom(passed, a) <= b.count - 1)
    && (forall a :: a > b.started - window ==> CountFrom(passed, a) <= past + b.count)
  }

  /** Never more than `most` in any half-open interval of one window. */
  ghost predicate Bounded(window: int, passed: seq<int>, most: int) {
    forall a :: CountWithin(passed, a, window) <= most
  }

  /** Nothing is left of a bucket: the past is all that shows within a window. */
  ghost predicate Clean(limit: int, window: int, passed: seq<int>, now: int, past: int) {
    && (forall a :: a > now - window ==> CountFrom(passed, a) <= past)
    && (past == limit - 1 ==> passed == [])
  }

  ghost predicate Knows(entries: map<string, Bucket>, limit: int, window: int, key: string, passed: seq<int>,
                        now: int, past: int)
  {
    && past >= limit - 1
    && (forall i :: 0 <= i < |passed| ==> passed[i] <= now)
    && (key in entries ==> Accurate(entries[key], limit, window, passed, past) && entries[key].started <= now)
    && (key !in entries ==> Clean(limit, window, passed, now, past))
    && Bounded(window, passed, past + limit)
  }

  lemma StartsBucket(limit: int, window: int, passed: seq<int>, now: int, past: int)
    requires limit >= 1 && window > 0 && now > 0 && past >= limit - 1
    requires forall i :: 0 <= i < |passed| ==> passed[i] <= now
    requires forall a :: a > now - window ==> CountFrom(passed, a) <= past
    requires past == limit - 1 ==> CountFrom(passed, now) == 0
    ensures Accurate(Bucket(now, 1), limit, window, passed + [now], past)
  {
    var passed' := passed + [now];
    assert forall i :: 0 <= i < |passed'| ==> passed'[i] < now + window;
    forall a ensures CountFrom(passed', a) == CountFrom(passed, a) + (if a <= now then 1 else 0) {
      CountFromSnoc(passed, now, a);
    }
    forall a | a > now ensures CountFrom(passed, a) == 0 { AllBefore(passed, a); }
  }

  /** Seen from one window before a new bucket, an expired one shows at most limit - 1. */
  lemma RenewsBucket(b: Bucket, limit: int, window: int, passed: seq<int>, now: int, past: int)
    requires limit >= 1 && window > 0 && now > 0 && past >= limit - 1
    requires Accurate(b, limit, window, passed, past) && now - b.started >= window
    ensures Accurate(Bucket(now, 1), limit, window, passed + [now], past)
  {
    AllBefore(passed, now);
    StartsBucket(limit, window, passed, now, past);
  }

  lemma FillsBucket(b: Bucket, limit: int, window: int, passed: seq<int>, now: int, past: int)
    requires Accurate(b, limit, window, passed, past) && b.count < limit && b.started <= now < b.started + window
    ensures Accurate(b.(count := b.count + 1), limit, window, passed + [now], past)
  {
    forall a ensures CountFrom(passed + [now], a) == CountFrom(passed, a) + (if a <= now then 1 else 0) {
      CountFromSnoc(passed, now, a);
    }
  }

  /** A call that is let through keeps the bound: an interval that holds it starts after
      one window before the bucket. */
  lemma StaysBounded(b: Bucket, limit: int, window: int, passed: seq<int>, now: int, past: int)
    requires Bounded(window, passed, past + limit) && Accurate(b, limit, window, passed + [now], past)
             && b.started <= now
    ensures Bounded(window, passed + [now], past + limit)
  {
    forall a ensures CountWithin(passed + [now], a, window) <= past + limit {
      CountWithinSnoc(passed, now, a, window);
      if a <= now < a + window { WithinFrom(passed + [now], a, window); }
      assert CountWithin(passed, a, window) <= past + limit;
    }
  }

  lemma CallKnows(entries: map<string, Bucket>, limit: int, window: int, key: string, passed: seq<int>, from: int,
                  call: Event, past: int)
    requires limit >= 1 && window > 0 && call.Call? && !Drops(entries, call, key)
    requires Knows(entries, limit, window, key, passed, from, past) && from <= call.now && call.now > 0
    ensures Knows(After(entries, limit, window, call), limit, window, key,
                  passed + PassedAt(entries, limit, window, call, key), call.now, past)
  {
    var (entries', answer) := Step(entries, limit, window, call.key, call.now);
    if call.key == key && answer == Allow {
      PassKnows(entries, limit, window, key, passed, from, call.now, past);
    } else {
      assert passed + [] == passed;
    }
  }

  lemma PassKnows(entries: map<string, Bucket>, limit: int, window: int, key: string, passed: seq<int>, from: int,
                  now: int, past: int)
    requires limit >= 1 && window > 0 && (key in entries ==> |entries| <= MAX_KEYS)
    requires Knows(entries, limit, window, key, passed, from, past) && from <= now && now > 0
    requires Step(entries, limit, window, key, now).1 == Allow
    ensures Knows(Step(entries, limit, window, key, now).0, limit, window, key, passed + [now], now, past)
  {
    var entries' := Step(entries, limit, window, key, now).0;
    PassAccurate(entries, limit, window, key, passed, from, now, past);
    StaysBounded(entries'[key], limit, window, passed, now, past);
    assert forall i :: 0 <= i < |passed + [now]| ==> (passed + [now])[i] <= now;
  }

  lemma PassAccurate(entries: map<string, Bucket>, limit: int, window: int, key: string, passed: seq<int>, from: int,
                     now: int, past: int)
    requires limit >= 1 && window > 0 && (key in entries ==> |entries| <= MAX_KEYS)
    requires Knows(entries, limit, window, key, passed, from, past) && from <= now && now > 0
    requires Step(entries, limit, window, key, now).1 == Allow
    ensures var entries' := Step(entries, limit, window, key, now).0;
            && key in entries' && entries'[key].started <= now
            && Accurate(entries'[key], limit, window, passed + [now], past)
  {
    if key !in entries {
      StartsBucket(limit, window, passed, now, past);
    } else if now - entries[key].started < window {
      FillsBucket(entries[key], limit, window, passed, now, past);
    } else {
      RenewsBucket(entries[key], limit, window, passed, now, past);
    }
  }

  lemma ResetKnows(entries: map<string, Bucket>, limit: int, window: int, key: string, passed: seq<int>, from: int,
                   e: Event, past: int)
    requires e.Reset? && !Drops(entries, e, key) && Knows(entries, limit, window, key, passed, from, past)
    ensures Knows(After(entries, limit, window, e), limit, window, key,
                  passed + PassedAt(entries, limit, window, e, key), from, past)
  {
    assert passed + [] == passed;
  }

  /** A dropped bucket becomes past. */
  lemma DropKnows(entries: map<string, Bucket>, limit: int, window: int, key: string, passed: seq<int>, from: int,
                  entries': map<string, Bucket>, past: int)
    requires limit >= 1 && key in entries && key !in entries'
    requires Knows(entries, limit, window, key, passed, from, past)
    ensures Knows(entries', limit, window, key, passed, from, past + limit)
  {
    forall a ensures CountWithin(passed, a, window) <= past + limit + limit {
      assert CountWithin(passed, a, window) <= past + limit;
    }
  }

  /** A call that clears the table goes on as on an empty one. */
  lemma ClearedAlike(entries: map<string, Bucket>, limit: int, window: int, call: Event, key: string)
    requires call.Call? && |entries| > MAX_KEYS
    ensures After(entries, limit, window, call) == After(map[], limit, window, call)
    ensures PassedAt(entries, limit, window, call, key) == PassedAt(map[], limit, window, call, key)
  {
  }

  function Later(past: int, limit: int, dropped: bool): int { if dropped then past + limit else past }

  lemma EventKnows(entries: map<string, Bucket>, limit: int, window: int, key: string, passed: seq<int>, from: int,
                   e: Event, past: int)
    requires limit >= 1 && window > 0 && Knows(entries, limit, window, key, passed, from, past)
    requires e.Call? ==> from <= e.now && e.now > 0
    ensures Knows(After(entries, limit, window, e), limit, window, key,
                  passed + PassedAt(entries, limit, window, e, key),
                  if e.Call? then e.now else from, Later(past, limit, Drops(entries, e, key)))
  {
    if !Drops(entries, e, key) {
      if e.Call? { CallKnows(entries, limit, window, key, passed, from, e, past); }
      else { ResetKnows(entries, limit, window, key, passed, from, e, past); }
    } else if e.Call? {
      DropKnows(entries, limit, window, key, passed, from, map[], past);
      CallKnows(map[], limit, window, key, passed, from, e, past + limit);
      ClearedAlike(entries, limit, window, e, key);
    } else {
      DropKnows(entries, limit, window, key, passed, from, entries - {key}, past);
      assert passed + [] == passed;
    }
  }

  lemma OrderedTail(events: seq<Event>, from: int)
    requires events != [] && Ordered(events, from)
    ensures events[0].Call? ==> from <= events[0].now && Ordered(events[1..], events[0].now)
    ensures Ordered(events[1..], from)
  {
    forall i | 0 <= i < |events[1..]| ensures events[1..][i] == events[i + 1] {}
  }

  lemma Regroup(a: seq<int>, b: seq<int>, c: seq<int>)
    ensures (a + b) + c == a + (b + c)
  {
  }

  lemma LaterMost(past: int, limit: int, dropped: bool, rest: nat)
    ensures Later(past, limit, dropped) + limit + rest * limit
            == past + limit + ((if dropped then 1 else 0) + rest) * limit
  {
  }

  lemma {:induction false} RunKnows(entries: map<string, Bucket>, limit: int, window: int, events: seq<Event>,
                                    key: string, passed: seq<int>, from: int, past: int, most: int)
    requires limit >= 1 && window > 0 && Ordered(events, from)
    requires Knows(entries, limit, window, key, passed, from, past)
    requires most == past + limit + DropsOf(entries, limit, window, events, key) * limit
    ensures Bounded(window, passed + Passed(entries, limit, window, events, key), most)
    decreases |events|
  {
    if events == [] {
      assert passed + [] == passed;
    } else {
      var e := events[0];
      var more, entries' := PassedAt(entries, limit, window, e, key), After(entries, limit, window, e);
      var dropped := Drops(entries, e, key);
      OrderedTail(events, from);
      EventKnows(entries, limit, window, key, passed, from, e, past);
      LaterMost(past, limit, dropped, DropsOf(entries', limit, window, events[1..], key));
      RunKnows(entries', limit, window, events[1..], key, passed + more, if e.Call? then e.now else from,
               Later(past, limit, dropped), most);
      Regroup(passed, more, Passed(entries', limit, window, events[1..], key));
    }
  }

  lemma TwoMore(limit: int, drops: nat)
    ensures (2 + drops) * limit == limit + limit + drops * limit
    ensures limit >= 1 ==> drops * limit >= 0
  {
  }

  /** From an empty table, in every run in which time does not run back: no half-open
      interval of one window holds more than (2 + drops) * limit - 1 calls of a key that were
      let through, if the key's bucket is dropped so many times; so 2 * limit - 1 if it
      survives. */
  lemma WindowBound(limit: int, window: int, events: seq<Event>, key: string, a: int, from: int)
    requires limit >= 1 && Ordered(events, from)
    ensures CountWithin(Passed(map[], limit, window, events, key), a, window)
            <= (2 + DropsOf(map[], limit, window, events, key)) * limit - 1
  {
    var drops := DropsOf(map[], limit, window, events, key);
    TwoMore(limit, drops);
    PassedWithin(limit, window, events, key, a, from, (2 + drops) * limit - 1);
  }

  lemma PassedWithin(limit: int, window: int, events: seq<Event>, key: string, a: int, from: int, most: int)
    requires limit >= 1 && Ordered(events, from) && most >= 0
    requires most == limit - 1 + limit + DropsOf(map[], limit, window, events, key) * limit
    ensures CountWithin(Passed(map[], limit, window, events, key), a, window) <= most
  {
    var passed := Passed(map[], limit, window, events, key);
    if window > 0 {
      RunKnows(map[], limit, window, events, key, [], from, limit - 1, most);
      assert [] + passed == passed;
    } else {
      WithinEmpty(passed, a, window);
    }
  }

  // ---------- when buckets survive ----------

  ghost predicate FewKeys(entries: map<string, Bucket>, events: seq<Event>) {
    |entries.Keys + Keys(events)| <= MAX_KEYS
  }

  lemma StepKeepsFewKeys(entries: map<string, Bucket>, limit: int, window: int, events: seq<Event>)
    requires FewKeys(entries, events) && events != []
    ensures |entries| <= MAX_KEYS
    ensures FewKeys(After(entries, limit, window, events[0]), events[1..])
  {
    var all := entries.Keys + Keys(events);
    SubsetSize(entries.Keys, all);
    assert |entries| == |entries.Keys|;
    assert events[0].Call? ==> events[0].key in Keys(events);
    forall k | k in Keys(events[1..]) ensures k in Keys(events) {
      var i :| 0 <= i < |events[1..]| && events[1..][i].Call? && events[1..][i].key == k;
      assert events[i + 1].key == k;
    }
    SubsetSize(After(entries, limit, window, events[0]).Keys + Keys(events[1..]), all);
  }

  /** With at most 4096 keys the table is never cleared; so only a reset drops a bucket. */
  lemma {:induction false} FewKeysSurvive(entries: map<string, Bucket>, limit: int, window: int, events: seq<Event>,
                                          key: string)
    requires FewKeys(entries, events) && forall i :: 0 <= i < |events| ==> events[i] != Reset(key)
    ensures Survives(entries, limit, window, events, key)
    decreases |events|
  {
    if events != [] {
      StepKeepsFewKeys(entries, limit, window, events);
      assert forall i :: 0 <= i < |events[1..]| ==> events[1..][i] == events[i + 1];
      FewKeysSurvive(After(entries, limit, window, events[0]), limit, window, events[1..], key);
    }
  }

  /** Without a positive limit nothing is let through. */
  lemma {:induction false} NothingPasses(entries: map<string, Bucket>, limit: int, window: int, events: seq<Event>,
                                         key: string)
    requires limit <= 0 && forall k :: k in entries ==> entries[k].count >= 0
    ensures Passed(entries, limit, window, events, key) == []
    decreases |events|
  {
    if events != [] { NothingPasses(After(entries, limit, window, events[0]), limit, window, events[1..], key); }
  }

  // ---------- the bound is attained ----------

  function Copies<T>(x: T, n: nat): seq<T> { if n == 0 then [] else [x] + Copies(x, n - 1) }

  function Repeat(key: string, now: int, n: nat): seq<Event> { Copies(Call(key, now), n) }

  /** Calls within a window that the budget still covers. */
  lemma {:induction false} RepeatPasses(entries: map<string, Bucket>, limit: int, window: int, key: string, now: int,
                                        n: nat,
                                        rest: seq<Event>, filled: map<string, Bucket>)
    requires |entries| <= MAX_KEYS && now > 0 && key in entries
    requires entries[key].started > 0 && now - entries[key].started < window && entries[key].count + n <= limit
    requires filled == entries[key := entries[key].(count := entries[key].count + n)]
    ensures Passed(entries, limit, window, Repeat(key, now, n) + rest, key)
            == Copies(now, n) + Passed(filled, limit, window, rest, key)
    decreases n
  {
    if n == 0 {
      assert Repeat(key, now, 0) + rest == rest;
      assert filled == entries;
    } else {
      var entries' := entries[key := entries[key].(count := entries[key].count + 1)];
      assert (Repeat(key, now, n) + rest)[1..] == Repeat(key, now, n - 1) + rest;
      assert Step(entries, limit, window, key, now) == (entries', Allow);
      assert |entries'| == |entries'.Keys| && entries'.Keys == entries.Keys;
      RepeatPasses(entries', limit, window, key, now, n - 1, rest, filled);
      Regroup([now], Copies(now, n - 1), Passed(filled, limit, window, rest, key));
    }
  }

  lemma {:induction false} CountConcat(s: seq<int>, t: seq<int>, a: int, width: int)
    ensures CountWithin(s + t, a, width) == CountWithin(s, a, width) + CountWithin(t, a, width)
  {
    if t == [] {
      assert s + t == s;
    } else {
      assert (s + t)[..|s + t| - 1] == s + t[..|t| - 1];
      CountConcat(s, t[..|t| - 1], a, width);
    }
  }

  lemma {:induction false} CountRepeated(n: nat, x: int, a: int, width: int)
    ensures CountWithin(Copies(x, n), a, width) == if a <= x < a + width then n else 0
  {
    if n > 0 {
      CountConcat([x], Copies(x, n - 1), a, width);
      CountRepeated(n - 1, x, a, width);
    }
  }

  /** One call, then the rest of the budget at the last instant of the window, then a
      whole budget at the first instant after it, and `rest`. */
  function Burst(key: string, start: int, limit: int, window: int, rest: seq<Event>): seq<Event>
    requires limit >= 1
  {
    [Call(key, start)]
    + (Repeat(key, start + window - 1, limit - 1) + (AfterWindow(key, start + window, limit) + rest))
  }

  /** A reset and a whole budget, so many times, at one instant. */
  function Rounds(key: string, now: int, limit: int, n: nat): seq<Event>
    requires limit >= 1
  {
    if n == 0 then [] else [Reset(key)] + (AfterWindow(key, now, limit) + Rounds(key, now, limit, n - 1))
  }

  function RoundsTimes(now: int, limit: int, n: nat): seq<int>
    requires limit >= 1
  {
    if n == 0 then [] else AfterTimes(now, limit) + RoundsTimes(now, limit, n - 1)
  }

  function AfterWindow(key: string, now: int, limit: int): seq<Event>
    requires limit >= 1
  {
    [Call(key, now)] + Repeat(key, now, limit - 1)
  }

  function BurstTimes(start: int, limit: int, window: int, rest: seq<int>): seq<int>
    requires limit >= 1
  {
    [start] + (Copies(start + window - 1, limit - 1) + (AfterTimes(start + window, limit) + rest))
  }

  function AfterTimes(now: int, limit: int): seq<int>
    requires limit >= 1
  {
    [now] + Copies(now, limit - 1)
  }

  lemma FreshPasses(entries: map<string, Bucket>, limit: int, window: int, key: string, now: int, rest: seq<Event>,
                    one: map<string, Bucket>)
    requires limit >= 1 && now > 0
    requires |entries| > MAX_KEYS
             || (entries.Keys <= {key} && (key in entries ==> now - entries[key].started >= window))
    requires one == map[key := Bucket(now, 1)]
    ensures Passed(entries, limit, window, [Call(key, now)] + rest, key)
            == [now] + Passed(one, limit, window, rest, key)
  {
    assert Step(entries, limit, window, key, now) == (one, Allow) by {
      if |entries| <= MAX_KEYS { assert entries[key := Bucket(now, 1)] == one; }
    }
    assert ([Call(key, now)] + rest)[1..] == rest;
  }

  /** What a bucket of one call still covers. */
  lemma RestPasses(one: map<string, Bucket>, limit: int, window: int, key: string, start: int, now: int,
                   rest: seq<Event>,
                   filled: map<string, Bucket>)
    requires limit >= 1 && start > 0 && now > 0 && now - start < window
    requires one == map[key := Bucket(start, 1)] && filled == one[key := Bucket(start, limit)]
    ensures Passed(one, limit, window, Repeat(key, now, limit - 1) + rest, key)
            == Copies(now, limit - 1) + Passed(filled, limit, window, rest, key)
  {
    assert |one| == 1;
    RepeatPasses(one, limit, window, key, now, limit - 1, rest, filled);
  }

  /** A whole budget at one instant, on a table that has nothing to count it against. */
  lemma BudgetPasses(entries: map<string, Bucket>, limit: int, window: int, key: string, now: int, rest: seq<Event>,
                     filled: map<string, Bucket>)
    requires limit >= 1 && window >= 1 && now > 0 && filled == map[key := Bucket(now, limit)]
    requires |entries| > MAX_KEYS
             || (entries.Keys <= {key} && (key in entries ==> now - entries[key].started >= window))
    ensures Passed(entries, limit, window, AfterWindow(key, now, limit) + rest, key)
            == AfterTimes(now, limit) + Passed(filled, limit, window, rest, key)
  {
    WindowPasses(entries, limit, window, key, now, now, rest, filled, Repeat(key, now, limit - 1) + rest);
    BudgetShape(key, now, limit, rest);
    Regroup([now], Copies(now, limit - 1), Passed(filled, limit, window, rest, key));
  }

  lemma BudgetShape(key: string, now: int, limit: int, rest: seq<Event>)
    requires limit >= 1
    ensures AfterWindow(key, now, limit) + rest == [Call(key, now)] + (Repeat(key, now, limit - 1) + rest)
  {
  }

  /** A call on a table that has nothing to count it against, and the rest of the budget
      later in its window. */
  lemma WindowPasses(entries: map<string, Bucket>, limit: int, window: int, key: string, start: int, now: int,
                     rest: seq<Event>, filled: map<string, Bucket>, later: seq<Event>)
    requires limit >= 1 && start > 0 && now > 0 && now - start < window && filled == map[key := Bucket(start, limit)]
    requires |entries| > MAX_KEYS
             || (entries.Keys <= {key} && (key in entries ==> start - entries[key].started >= window))
    requires later == Repeat(key, now, limit - 1) + rest
    ensures Passed(entries, limit, window, [Call(key, start)] + later, key)
            == [start] + (Copies(now, limit - 1) + Passed(filled, limit, window, rest, key))
  {
    var one := map[key := Bucket(start, 1)];
    FreshPasses(entries, limit, window, key, start, later, one);
    assert filled == one[key := Bucket(start, limit)];
    RestPasses(one, limit, window, key, start, now, rest, filled);
  }

  lemma BurstPasses(key: string, start: int, limit: int, window: int, rest: seq<Event>, filled: map<string, Bucket>)
    requires limit >= 1 && window >= 1 && start > 0 && filled == map[key := Bucket(start + window, limit)]
    ensures Passed(map[], limit, window, Burst(key, start, limit, window, rest), key)
            == BurstTimes(start, limit, window, Passed(filled, limit, window, rest, key))
  {
    var after, now := AfterWindow(key, start + window, limit) + rest, start + window;
    var first := map[key := Bucket(start, limit)];
    WindowPasses(map[], limit, window, key, start, now - 1, after, first, Repeat(key, now - 1, limit - 1) + after);
    BudgetPasses(first, limit, window, key, now, rest, filled);
  }

  lemma {:induction false} RoundsPass(filled: map<string, Bucket>, limit: int, window: int, key: string, now: int,
                                      n: nat)
    requires limit >= 1 && window >= 1 && now > 0 && filled == map[key := Bucket(now, limit)]
    ensures Passed(filled, limit, window, Rounds(key, now, limit, n), key) == RoundsTimes(now, limit, n)
  {
    if n > 0 {
      var rest := Rounds(key, now, limit, n - 1);
      ResetPasses(filled, limit, window, key, AfterWindow(key, now, limit) + rest);
      BudgetPasses(map[], limit, window, key, now, rest, filled);
      RoundsPass(filled, limit, window, key, now, n - 1);
    }
  }

  lemma CountOne(x: int, a: int, width: int)
    ensures CountWithin([x], a, width) == if a <= x < a + width then 1 else 0
  {
    assert [x][..0] == [];
  }

  lemma BudgetCount(now: int, limit: int, a: int, window: int)
    requires limit >= 1
    ensures CountWithin(AfterTimes(now, limit), a, window) == if a <= now < a + window then limit else 0
  {
    CountConcat([now], Copies(now, limit - 1), a, window);
    CountOne(now, a, window);
    CountRepeated(limit - 1, now, a, window);
  }

  lemma {:induction false} RoundsCount(now: int, limit: int, n: nat, a: int, window: int)
    requires limit >= 1 && a <= now < a + window
    ensures CountWithin(RoundsTimes(now, limit, n), a, window) == n * limit
  {
    if n > 0 {
      CountConcat(AfterTimes(now, limit), RoundsTimes(now, limit, n - 1), a, window);
      BudgetCount(now, limit, a, window);
      RoundsCount(now, limit, n - 1, a, window);
      assert limit + (n - 1) * limit == n * limit;
    }
  }

  lemma BurstCount(start: int, limit: int, window: int, rest: seq<int>)
    requires limit >= 1 && window >= 2
    ensures var a := start + window - 1;
            CountWithin(BurstTimes(start, limit, window, rest), a, window)
            == limit - 1 + limit + CountWithin(rest, a, window)
  {
    var a := start + window - 1;
    var edge, after := Copies(a, limit - 1), AfterTimes(start + window, limit);
    CountConcat([start], edge + (after + rest), a, window);
    CountConcat(edge, after + rest, a, window);
    CountConcat(after, rest, a, window);
    BudgetCount(start + window, limit, a, window);
    CountOne(start, a, window);
    CountRepeated(limit - 1, a, a, window);
  }

  // ---------- so many drops ----------

  function ResetsOf(events: seq<Event>, key: string): nat {
    if events == [] then 0 else (if events[0] == Reset(key) then 1 else 0) + ResetsOf(events[1..], key)
  }

  /** With few keys only a reset drops a bucket. */
  lemma {:induction false} DropsAreResets(entries: map<string, Bucket>, limit: int, window: int, events: seq<Event>,
                                          key: string)
    requires FewKeys(entries, events)
    ensures DropsOf(entries, limit, window, events, key) <= ResetsOf(events, key)
    decreases |events|
  {
    if events != [] {
      StepKeepsFewKeys(entries, limit, window, events);
      DropsAreResets(After(entries, limit, window, events[0]), limit, window, events[1..], key);
    }
  }

  lemma {:induction false} ResetsConcat(a: seq<Event>, b: seq<Event>, key: string)
    ensures ResetsOf(a + b, key) == ResetsOf(a, key) + ResetsOf(b, key)
  {
    if a == [] {
      assert a + b == b;
    } else {
      assert (a + b)[1..] == a[1..] + b;
      ResetsConcat(a[1..], b, key);
    }
  }

  lemma {:induction false} BudgetResets(key: string, now: int, n: nat)
    ensures ResetsOf(Repeat(key, now, n), key) == 0 && ResetsOf([Call(key, now)] + Repeat(key, now, n), key) == 0
    ensures forall e :: e in Repeat(key, now, n) ==> e.key == key
  {
    assert ([Call(key, now)] + Repeat(key, now, n))[1..] == Repeat(key, now, n);
    if n > 0 {
      assert Repeat(key, now, n)[1..] == Repeat(key, now, n - 1);
      BudgetResets(key, now, n - 1);
    }
  }

  lemma {:induction false} RoundsResets(key: string, now: int, limit: int, n: nat)
    requires limit >= 1
    ensures ResetsOf(Rounds(key, now, limit, n), key) == n
    ensures forall e :: e in Rounds(key, now, limit, n) ==> e.key == key
  {
    if n > 0 {
      var rest := Rounds(key, now, limit, n - 1);
      assert Rounds(key, now, limit, n)[1..] == AfterWindow(key, now, limit) + rest;
      ResetsConcat(AfterWindow(key, now, limit), rest, key);
      BudgetResets(key, now, limit - 1);
      RoundsResets(key, now, limit, n - 1);
    }
  }

  lemma BurstResets(key: string, start: int, limit: int, window: int, rest: seq<Event>)
    requires limit >= 1 && forall e :: e in rest ==> e.key == key
    ensures ResetsOf(Burst(key, start, limit, window, rest), key) == ResetsOf(rest, key)
    ensures forall e :: e in Burst(key, start, limit, window, rest) ==> e.key == key
  {
    var edge, after := Repeat(key, start + window - 1, limit - 1), AfterWindow(key, start + window, limit);
    BudgetResets(key, start + window - 1, limit - 1);
    BudgetResets(key, start + window, limit - 1);
    ResetsConcat([Call(key, start)], edge + (after + rest), key);
    ResetsConcat(edge, after + rest, key);
    ResetsConcat(after, rest, key);
    assert ResetsOf([Call(key, start)], key) == 0;
  }

  lemma OneKeyIsFew(events: seq<Event>, key: string)
    requires forall e :: e in events ==> e.key == key
    ensures FewKeys(map[], events)
  {
    var none: map<string, Bucket> := map[];
    SubsetSize(none.Keys + Keys(events), {key});
  }

  lemma BurstReaches(key: string, start: int, limit: int, window: int, drops: nat, rounds: seq<Event>)
    requires limit >= 1 && window >= 2 && start > 0 && rounds == Rounds(key, start + window, limit, drops)
    ensures CountWithin(Passed(map[], limit, window, Burst(key, start, limit, window, rounds), key),
                        start + window - 1, window)
            == limit - 1 + limit + drops * limit
  {
    var filled := map[key := Bucket(start + window, limit)];
    BurstPasses(key, start, limit, window, rounds, filled);
    RoundsPass(filled, limit, window, key, start + window, drops);
    BurstRoundsCount(start, limit, window, drops);
  }

  lemma BurstRoundsCount(start: int, limit: int, window: int, drops: nat)
    requires limit >= 1 && window >= 2
    ensures var times := BurstTimes(start, limit, window, RoundsTimes(start + window, limit, drops));
            CountWithin(times, start + window - 1, window) == limit - 1 + limit + drops * limit
  {
    BurstCount(start, limit, window, RoundsTimes(start + window, limit, drops));
    RoundsCount(start + window, limit, drops, start + window - 1, window);
  }

  lemma BurstDrops(key: string, start: int, limit: int, window: int, drops: nat, rounds: seq<Event>)
    requires limit >= 1 && rounds == Rounds(key, start + window, limit, drops)
    ensures DropsOf(map[], limit, window, Burst(key, start, limit, window, rounds), key) <= drops
  {
    RoundsResets(key, start + window, limit, drops);
    BurstResets(key, start, limit, window, rounds);
    OneKeyIsFew(Burst(key, start, limit, window, rounds), key);
    DropsAreResets(map[], limit, window, Burst(key, start, limit, window, rounds), key);
  }

  /** The bound is exact: for every limit, every window of at least two nanoseconds and every
      number of drops, some run with no more drops reaches it. */
  lemma BoundAttained(key: string, start: int, limit: int, window: int, drops: nat, events: seq<Event>)
    requires limit >= 1 && window >= 2 && start > 0
    requires events == Burst(key, start, limit, window, Rounds(key, start + window, limit, drops))
    ensures CountWithin(Passed(map[], limit, window, events, key), start + window - 1, window)
            == (2 + drops) * limit - 1
    ensures DropsOf(map[], limit, window, events, key) <= drops
  {
    var rounds := Rounds(key, start + window, limit, drops);
    BurstReaches(key, start, limit, window, drops, rounds);
    BurstDrops(key, start, limit, window, drops, rounds);
    TwoMore(limit, drops);
  }

  // ---------- two ways of dropping a bucket ----------

  lemma TwoBudgetsCount(now: int, limit: int, window: int)
    requires limit >= 1 && window >= 1
    ensures CountWithin(AfterTimes(now, limit) + AfterTimes(now, limit), now, window) == 2 * limit
  {
    CountConcat(AfterTimes(now, limit), AfterTimes(now, limit), now, window);
    BudgetCount(now, limit, now, window);
  }

  /** A whole budget, a reset, and a whole budget again, all at one instant. */
  lemma ResetBreaks(key: string, now: int, limit: int, window: int)
    requires limit >= 1 && window >= 1 && now > 0
    ensures var budget := AfterWindow(key, now, limit);
            CountWithin(Passed(map[], limit, window, budget + ([Reset(key)] + budget), key), now, window) == 2 * limit
  {
    var budget := AfterWindow(key, now, limit);
    var filled := map[key := Bucket(now, limit)];
    BudgetPasses(map[], limit, window, key, now, [Reset(key)] + budget, filled);
    ResetPasses(filled, limit, window, key, budget);
    BudgetPasses(map[], limit, window, key, now, [], filled);
    assert budget + [] == budget && AfterTimes(now, limit) + [] == AfterTimes(now, limit);
    TwoBudgetsCount(now, limit, window);
  }

  lemma ResetPasses(entries: map<string, Bucket>, limit: int, window: int, key: string, rest: seq<Event>)
    requires entries.Keys <= {key}
    ensures Passed(entries, limit, window, [Reset(key)] + rest, key) == Passed(map[], limit, window, rest, key)
  {
    assert ([Reset(key)] + rest)[1..] == rest;
    assert entries - {key} == map[];
  }

  /** Names of different lengths. */
  function Name(i: nat): (name: string)
    ensures |name| == i
  {
    if i == 0 then "" else "x" + Name(i - 1)
  }

  function Fillers(now: int, i: nat, n: nat): seq<Event>
    decreases n
  {
    if n == 0 then [] else [Call(Name(i), now)] + Fillers(now, i + 1, n - 1)
  }

  lemma FillerTakesPlace(entries: map<string, Bucket>, limit: int, window: int, now: int, key: string)
    returns (entries': map<string, Bucket>)
    requires limit >= 1 && now > 0 && |entries| <= MAX_KEYS && key !in entries
    ensures entries' == entries[key := Bucket(now, 1)] && |entries'| == |entries| + 1
    ensures Step(entries, limit, window, key, now) == (entries', Allow)
  {
    entries' := entries[key := Bucket(now, 1)];
    assert entries'.Keys == entries.Keys + {key} && |entries'| == |entries'.Keys| && |entries| == |entries.Keys|;
  }

  lemma OtherCallPasses(entries: map<string, Bucket>, limit: int, window: int, events: seq<Event>, key: string)
    requires events != [] && events[0].Call? && events[0].key != key
    ensures Passed(entries, limit, window, events, key)
            == Passed(After(entries, limit, window, events[0]), limit, window, events[1..], key)
  {
  }

  lemma FillersShape(now: int, i: nat, n: nat, rest: seq<Event>)
    requires n > 0
    ensures var events := Fillers(now, i, n) + rest;
            events[0] == Call(Name(i), now) && events[1..] == Fillers(now, i + 1, n - 1) + rest
  {
  }

  /** Each new key takes a place in the table, up to 4097 of them. */
  lemma {:induction false} FillersFill(entries: map<string, Bucket>, limit: int, window: int, now: int, i: nat,
                                       n: nat, rest: seq<Event>)
    returns (full: map<string, Bucket>)
    requires limit >= 1 && now > 0 && 1 <= i == |entries| && i + n <= MAX_KEYS + 1
             && forall k :: k in entries ==> |k| < i
    ensures |full| == i + n
    ensures Passed(entries, limit, window, Fillers(now, i, n) + rest, "") == Passed(full, limit, window, rest, "")
    decreases n
  {
    if n == 0 {
      assert Fillers(now, i, 0) + rest == rest;
      full := entries;
    } else {
      FillersShape(now, i, n, rest);
      var entries' := FillerTakesPlace(entries, limit, window, now, Name(i));
      OtherCallPasses(entries, limit, window, Fillers(now, i, n) + rest, "");
      full := FillersFill(entries', limit, window, now, i + 1, n - 1, rest);
    }
  }

  /** A whole budget of one key, calls of 4096 others, and a whole budget again, all at one
      instant: the table is cleared before the last. */
  lemma ClearingBreaks(now: int, limit: int, window: int)
    requires limit >= 1 && window >= 1 && now > 0
    ensures var budget := AfterWindow("", now, limit);
            CountWithin(Passed(map[], limit, window, budget + (Fillers(now, 1, MAX_KEYS) + budget), ""), now, window)
                == 2 * limit
  {
    var budget := AfterWindow("", now, limit);
    var filled := map["" := Bucket(now, limit)];
    BudgetPasses(map[], limit, window, "", now, Fillers(now, 1, MAX_KEYS) + budget, filled);
    var full := FillersFill(filled, limit, window, now, 1, MAX_KEYS, budget);
    BudgetPasses(full, limit, window, "", now, [], filled);
    assert budget + [] == budget && AfterTimes(now, limit) + [] == AfterTimes(now, limit);
    TwoBudgetsCount(now, limit, window);
  }

  // ---------- denials ----------

  /** A call is denied only when a full budget of its key was let through less than one
      window ago, all of it since the bucket's start. */
  lemma DeniedWhenFull(entries: map<string, Bucket>, limit: int, window: int, key: string, passed: seq<int>, now: int,
                       from: int)
    requires limit >= 1 && window > 0 && |entries| <= MAX_KEYS && from <= now && now > 0
    requires Knows(entries, limit, window, key, passed, from, limit - 1)
    ensures Step(entries, limit, window, key, now).1.Deny? <==>
            key in entries && now - entries[key].started < window && CountFrom(passed, entries[key].started) == limit
  {
  }

  /** A denied key that waits the time it was told, and makes no call meanwhile, is let
      through. */
  lemma WaitingHelps(entries: map<string, Bucket>, limit: int, window: int, key: string, now: int, later: int)
    requires limit >= 1 && now > 0
    requires Step(entries, limit, window, key, now).1.Deny?
    requires later >= now + Step(entries, limit, window, key, now).1.wait
    ensures Step(Step(entries, limit, window, key, now).0, limit, window, key, later).1 == Allow
  {
  }

  /** Whatever the calls, the table never holds more than 4097 keys. */
  lemma {:induction false} TableBounded(entries: map<string, Bucket>, limit: int, window: int, events: seq<Event>)
    requires |entries| <= MAX_KEYS + 1
    ensures |RunEvents(entries, limit, window, events)| <= MAX_KEYS + 1
    decreases |events|
  {
    if events != [] {
      if events[0].Reset? {
        SubsetSize((entries - {events[0].key}).Keys, entries.Keys);
        assert |entries - {events[0].key}| == |(entries - {events[0].key}).Keys| && |entries| == |entries.Keys|;
      }
      TableBounded(After(entries, limit, window, events[0]), limit, window, events[1..]);
    }
  }
}
