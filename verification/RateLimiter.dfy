/**
 The per-key rate limiter: a bounded table of token buckets that evicts idle entries when it is
 full, against an unbounded table that never forgets. Times are seconds; rounding is left out.
 */
module RateLimiter {

  type Key = nat

  const EVICT_AFTER := 600.0
  const MAX_ENTRIES: nat := 50_000

  // rate: tokens per second; burst: bucket size.
  datatype Limits = Limits(rate: real, burst: nat)

  predicate ValidLimits(l: Limits) { l.rate > 0.0 && l.burst >= 1 }

  // ---------------------------------------------------------------- token bucket

  datatype Bucket = Bucket(tokens: real, last: real)

  function NewBucket(l: Limits, now: real): Bucket { Bucket(l.burst as real, now) }

  function TokensAt(l: Limits, b: Bucket, now: real): real {
    var elapsed := if now < b.last then 0.0 else now - b.last;
    var tokens := b.tokens + l.rate * elapsed;
    if tokens > l.burst as real then l.burst as real else tokens
  }

  predicate Allows(l: Limits, b: Bucket, now: real) { TokensAt(l, b, now) >= 1.0 }

  // A refused request leaves the bucket as it was.
  function Spend(l: Limits, b: Bucket, now: real): Bucket {
    if Allows(l, b, now) then Bucket(TokensAt(l, b, now) - 1.0, now) else b
  }

  // ---------------------------------------------------------------- bounded table

  datatype Entry = Entry(bucket: Bucket, lastSeen: real)
  type Table = map<Key, Entry>

  function Evict(t: Table, now: real): Table {
    map k | k in t && !(now - t[k].lastSeen > EVICT_AFTER) :: t[k]
  }

  // The table once a slot for `key` has been found, or as eviction left it.
  function MakeRoom(max: nat, t: Table, key: Key, now: real): Table {
    if key in t || |t| < max then t else Evict(t, now)
  }

  // The request is refused because the table is still full after eviction.
  predicate Overflows(max: nat, t: Table, key: Key, now: real) {
    key !in t && |MakeRoom(max, t, key, now)| >= max
  }

  function EntryFor(l: Limits, t: Table, key: Key, now: real): Bucket {
    if key in t then t[key].bucket else NewBucket(l, now)
  }

  predicate Answer(l: Limits, max: nat, t: Table, key: Key, now: real) {
    !Overflows(max, t, key, now) && Allows(l, EntryFor(l, t, key, now), now)
  }

  function After(l: Limits, max: nat, t: Table, key: Key, now: real): Table {
    var room := MakeRoom(max, t, key, now);
    if Overflows(max, t, key, now) then room
    else room[key := Entry(Spend(l, EntryFor(l, t, key, now), now), now)]
  }

  // ---------------------------------------------------------------- unbounded table

  type Memory = map<Key, Bucket>

  function BucketFor(l: Limits, m: Memory, key: Key, now: real): Bucket {
    if key in m then m[key] else NewBucket(l, now)
  }

  predicate IdealAnswer(l: Limits, m: Memory, key: Key, now: real) { Allows(l, BucketFor(l, m, key, now), now) }

  function IdealAfter(l: Limits, m: Memory, key: Key, now: real): Memory {
    m[key := Spend(l, BucketFor(l, m, key, now), now)]
  }

  // ---------------------------------------------------------------- runs

  datatype Request = Request(key: Key, at: real)

  ghost predicate InOrder(reqs: seq<Request>, from: real) {
    && (forall i :: 0 <= i < |reqs| ==> reqs[i].at >= from)
    && (forall i, j :: 0 <= i < j < |reqs| ==> reqs[i].at <= reqs[j].at)
  }

  function Answers(l: Limits, max: nat, t: Table, reqs: seq<Request>): (r: seq<bool>)
    ensures |r| == |reqs|
    decreases |reqs|
  {
    if reqs == [] then []
    else [Answer(l, max, t, reqs[0].key, reqs[0].at)] + Answers(l, max, After(l, max, t, reqs[0].key, reqs[0].at), reqs[1..])
  }

  function IdealAnswers(l: Limits, m: Memory, reqs: seq<Request>): (r: seq<bool>)
    ensures |r| == |reqs|
    decreases |reqs|
  {
    if reqs == [] then []
    else [IdealAnswer(l, m, reqs[0].key, reqs[0].at)] + IdealAnswers(l, IdealAfter(l, m, reqs[0].key, reqs[0].at), reqs[1..])
  }

  ghost predicate NeverOverflows(l: Limits, max: nat, t: Table, reqs: seq<Request>)
    decreases |reqs|
  {
    reqs == [] || (!Overflows(max, t, reqs[0].key, reqs[0].at)
                   && NeverOverflows(l, max, After(l, max, t, reqs[0].key, reqs[0].at), reqs[1..]))
  }

  // ---------------------------------------------------------------- refinement

  // The bucket would be full at `now`, so forgetting it makes no difference from then on.
  predicate Refilled(l: Limits, b: Bucket, now: real) {
    b.last <= now && b.tokens + l.rate * (now - b.last) >= l.burst as real
  }

  ghost predicate Matches(l: Limits, t: Table, m: Memory, now: real) {
    && (forall k :: k in t ==>
          && k in m && m[k] == t[k].bucket
          && 0.0 <= t[k].bucket.tokens && t[k].bucket.last <= t[k].lastSeen <= now)
    && (forall k :: k in m && k !in t ==> Refilled(l, m[k], now))
  }

  lemma TimePasses(l: Limits, b: Bucket, from: real, to: real)
    requires ValidLimits(l) && from <= to && Refilled(l, b, from)
    ensures Refilled(l, b, to)
  {
    assert l.rate * (to - b.last) == l.rate * (from - b.last) + l.rate * (to - from);
    assert l.rate * (to - from) >= 0.0;
  }

  lemma IdleRefills(l: Limits, e: Entry, now: real)
    requires ValidLimits(l) && l.burst as real <= l.rate * EVICT_AFTER
    requires 0.0 <= e.bucket.tokens && e.bucket.last <= e.lastSeen && now - e.lastSeen > EVICT_AFTER
    ensures Refilled(l, e.bucket, now)
  {
    assert l.rate * (now - e.bucket.last) == l.rate * EVICT_AFTER + l.rate * (now - e.bucket.last - EVICT_AFTER);
    assert l.rate * (now - e.bucket.last - EVICT_AFTER) >= 0.0;
  }

  // A refilled bucket answers and continues like a new one.
  lemma RefilledIsNew(l: Limits, b: Bucket, now: real)
    requires ValidLimits(l) && Refilled(l, b, now)
    ensures TokensAt(l, b, now) == TokensAt(l, NewBucket(l, now), now)
    ensures Allows(l, b, now) && Spend(l, b, now) == Spend(l, NewBucket(l, now), now)
  {
    assert l.rate * 0.0 == 0.0;
  }

  lemma SpendKeeps(l: Limits, b: Bucket, now: real)
    requires ValidLimits(l) && 0.0 <= b.tokens && b.last <= now
    ensures 0.0 <= Spend(l, b, now).tokens && Spend(l, b, now).last <= now
  {
  }

  lemma RoomMatches(l: Limits, max: nat, t: Table, m: Memory, key: Key, from: real, now: real)
    requires ValidLimits(l) && l.burst as real <= l.rate * EVICT_AFTER
    requires Matches(l, t, m, from) && from <= now
    ensures Matches(l, MakeRoom(max, t, key, now), m, now)
  {
    var room := MakeRoom(max, t, key, now);
    forall k | k in m && k !in room ensures Refilled(l, m[k], now) {
      if k in t { IdleRefills(l, t[k], now); } else { TimePasses(l, m[k], from, now); }
    }
  }

  lemma StepMatches(l: Limits, max: nat, t: Table, m: Memory, key: Key, from: real, now: real)
    requires ValidLimits(l) && l.burst as real <= l.rate * EVICT_AFTER
    requires Matches(l, t, m, from) && from <= now && !Overflows(max, t, key, now)
    ensures Answer(l, max, t, key, now) == IdealAnswer(l, m, key, now)
    ensures Matches(l, After(l, max, t, key, now), IdealAfter(l, m, key, now), now)
  {
    RoomMatches(l, max, t, m, key, from, now);
    SpendKeeps(l, EntryFor(l, t, key, now), now);
    if key !in t && key in m {
      TimePasses(l, m[key], from, now);
      RefilledIsNew(l, m[key], now);
    }
  }

  // The bounded table is indistinguishable from the unbounded one: on every run that never
  // finds the table still full after eviction, both give the same answers throughout.
  lemma {:induction false} EvictionIsInvisible(l: Limits, max: nat, t: Table, m: Memory, reqs: seq<Request>, from: real)
    requires ValidLimits(l) && l.burst as real <= l.rate * EVICT_AFTER
    requires Matches(l, t, m, from) && InOrder(reqs, from) && NeverOverflows(l, max, t, reqs)
    ensures Answers(l, max, t, reqs) == IdealAnswers(l, m, reqs)
    decreases |reqs|
  {
    if reqs != [] {
      var r := reqs[0];
      StepMatches(l, max, t, m, r.key, from, r.at);
      assert InOrder(reqs[1..], r.at) by {
        assert forall i :: 0 <= i < |reqs[1..]| ==> reqs[1..][i] == reqs[i + 1];
      }
      EvictionIsInvisible(l, max, After(l, max, t, r.key, r.at), IdealAfter(l, m, r.key, r.at), reqs[1..], r.at);
    }
  }

  // The limits every constructor falls back to, and the fixed ones, meet the condition.
  lemma ShippedLimitsQualify(l: Limits)
    requires l in {Limits(10.0, 50), Limits(30.0, 60), Limits(1.0, 3), Limits(1.0 / 30.0, 3)}
    ensures ValidLimits(l) && l.burst as real <= l.rate * EVICT_AFTER
  {
  }

  // ---------------------------------------------------------------- the object

  class KeyedRateLimiter {
    const limits: Limits
    var entries: map<Key, Entry>

    ghost predicate Valid()
      reads this
    {
      ValidLimits(limits) && |entries| <= MAX_ENTRIES
    }

    constructor (rps: real, burst: int)
      ensures Valid() && entries == map[]
      ensures limits == Limits(if rps <= 0.0 then 10.0 else rps, if burst <= 0 then 50 else burst)
    {
      limits := Limits(if rps <= 0.0 then 10.0 else rps, if burst <= 0 then 50 else burst);
      entries := map[];
    }

    // Removes the idle entries one by one.
    method EvictStale(now: real)
      modifies this
      ensures entries == Evict(old(entries), now) && |entries| <= old(|entries|)
    {
      ghost var before := entries;
      var todo := entries.Keys;
      while todo != {}
        invariant todo <= before.Keys && entries.Keys <= before.Keys && |entries| <= |before|
        invariant forall k :: k in entries ==> entries[k] == before[k]
        invariant forall k :: k in todo ==> k in entries
        invariant forall k :: k in before.Keys - todo ==> (k in entries <==> !(now - before[k].lastSeen > EVICT_AFTER))
        decreases todo
      {
        var k :| k in todo;
        if now - entries[k].lastSeen > EVICT_AFTER {
          Smaller(entries, k);
          entries := entries - {k};
        }
        todo := todo - {k};
      }
    }

    // Never more than MAX_ENTRIES entries; the answer and the new table of the functions above.
    method Allow(key: Key, now: real) returns (ok: bool)
      requires Valid()
      modifies this
      ensures Valid() && |entries| <= 50_000
      ensures ok == Answer(limits, 50_000, old(entries), key, now)
      ensures entries == After(limits, 50_000, old(entries), key, now)
    {
      if key !in entries {
        if |entries| >= MAX_ENTRIES {
          EvictStale(now);
          if |entries| >= MAX_ENTRIES { return false; }
        }
        Larger(entries, key, Entry(NewBucket(limits, now), now));
        entries := entries[key := Entry(NewBucket(limits, now), now)];
      }
      var bucket := entries[key].bucket;
      ok := TokensAt(limits, bucket, now) >= 1.0;
      var after := if ok then Bucket(TokensAt(limits, bucket, now) - 1.0, now) else bucket;
      assert entries.Keys == entries[key := Entry(after, now)].Keys;
      entries := entries[key := Entry(after, now)];
    }
  }

  lemma Smaller(t: Table, k: Key)
    requires k in t
    ensures |t - {k}| == |t| - 1
  {
    assert (t - {k}).Keys == t.Keys - {k};
  }

  lemma Larger(t: Table, k: Key, e: Entry)
    requires k !in t
    ensures |t[k := e]| == |t| + 1
  {
    assert t[k := e].Keys == t.Keys + {k};
  }
}
