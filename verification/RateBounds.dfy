/**
 What the rate limiter promises its callers: no key gets more than its burst plus the rate times the
 time that passed, evictions included; a paced caller is always served; a burst is served up to its
 size; and a new key is turned away exactly when the table is full of recent ones.
 */
module RateBounds {
  import opened RateLimiter

  // ---------------------------------------------------------------- one bucket

  // What the rate gives between two moments.
  function Gain(l: Limits, from: real, to: real): real { l.rate * (to - from) }

  // Tokens grow at the rate up to the burst, and not while the clock stands or goes back.
  lemma TokensGrow(l: Limits, b: Bucket, from: real, to: real)
    requires ValidLimits(l) && b.tokens <= l.burst as real
    ensures to <= b.last ==> TokensAt(l, b, to) == b.tokens
    ensures b.last <= from <= to ==>
              && TokensAt(l, b, from) <= TokensAt(l, b, to) <= l.burst as real
              && TokensAt(l, b, to) <= TokensAt(l, b, from) + Gain(l, from, to)
              && (TokensAt(l, b, to) == l.burst as real || TokensAt(l, b, to) == TokensAt(l, b, from) + Gain(l, from, to))
  {
    if b.last <= from <= to {
      assert l.rate * (to - b.last) == l.rate * (from - b.last) + l.rate * (to - from);
      assert l.rate * (to - from) >= 0.0;
      assert l.rate * (from - b.last) >= 0.0;
    } else if to <= b.last {
      assert l.rate * 0.0 == 0.0;
    }
  }

  // ---------------------------------------------------------------- at most burst + rate x time

  function Allowed(answers: seq<bool>, reqs: seq<Request>, key: Key): nat
    requires |answers| == |reqs|
  {
    if reqs == [] then 0
    else (if answers[0] && reqs[0].key == key then 1 else 0) + Allowed(answers[1..], reqs[1..], key)
  }

  ghost predicate TableOk(l: Limits, t: Table, now: real) {
    forall k :: k in t ==>
      0.0 <= t[k].bucket.tokens <= l.burst as real && t[k].bucket.last <= t[k].lastSeen <= now
  }

  // What a key could spend now: its tokens, or a full bucket where it has none.
  function Credit(l: Limits, t: Table, key: Key, now: real): real {
    if key in t then TokensAt(l, t[key].bucket, now) else l.burst as real
  }

  lemma StepOk(l: Limits, max: nat, t: Table, key: Key, from: real, now: real)
    requires ValidLimits(l) && TableOk(l, t, from) && from <= now
    ensures TableOk(l, After(l, max, t, key, now), now)
  {
    var b := EntryFor(l, t, key, now);
    TokensGrow(l, b, now, now);
  }

  // One request moves the credit of a key by the refill since, less the token it got.
  lemma StepCredit(l: Limits, max: nat, t: Table, key: Key, from: real, now: real, k: Key)
    requires ValidLimits(l) && l.burst as real <= l.rate * EVICT_AFTER && TableOk(l, t, from) && from <= now
    ensures var spent := if k == key && Answer(l, max, t, key, now) then 1.0 else 0.0;
            Credit(l, After(l, max, t, key, now), k, now) + spent <= Credit(l, t, k, from) + Gain(l, from, now)
  {
    var spent := if k == key && Answer(l, max, t, key, now) then 1.0 else 0.0;
    var u := After(l, max, t, key, now);
    CreditGrows(l, t, k, from, now);
    if k == key && !Overflows(max, t, key, now) {
      OwnCredit(l, t, key, now);
    } else if k in t && k !in u {
      IdleRefills(l, t[k], now);
    }
  }

  lemma CreditGrows(l: Limits, t: Table, k: Key, from: real, now: real)
    requires ValidLimits(l) && TableOk(l, t, from) && from <= now
    ensures Credit(l, t, k, now) <= Credit(l, t, k, from) + Gain(l, from, now)
  {
    if k in t { TokensGrow(l, t[k].bucket, from, now); }
    assert Gain(l, from, now) >= 0.0;
  }

  // Serving a request takes one token of the credit; refusing it takes none.
  lemma OwnCredit(l: Limits, t: Table, key: Key, now: real)
    requires ValidLimits(l) && TableOk(l, t, now)
    ensures var b := EntryFor(l, t, key, now);
            TokensAt(l, Spend(l, b, now), now) + (if Allows(l, b, now) then 1.0 else 0.0) == Credit(l, t, key, now)
  {
    var b := EntryFor(l, t, key, now);
    TokensGrow(l, b, now, now);
    TokensGrow(l, Spend(l, b, now), now, now);
  }

  function End(reqs: seq<Request>, from: real): real { if reqs == [] then from else reqs[|reqs| - 1].at }

  lemma FirstAnswer(l: Limits, max: nat, t: Table, reqs: seq<Request>, key: Key)
    requires reqs != []
    ensures var r := reqs[0];
            var spent := if key == r.key && Answer(l, max, t, r.key, r.at) then 1.0 else 0.0;
            Allowed(Answers(l, max, t, reqs), reqs, key) as real ==
            spent + Allowed(Answers(l, max, After(l, max, t, r.key, r.at), reqs[1..]), reqs[1..], key) as real
  {
    assert Answers(l, max, t, reqs)[1..] == Answers(l, max, After(l, max, t, reqs[0].key, reqs[0].at), reqs[1..]);
  }

  lemma RestInOrder(reqs: seq<Request>, from: real)
    requires reqs != [] && InOrder(reqs, from)
    ensures InOrder(reqs[1..], reqs[0].at) && reqs[0].at >= from && End(reqs[1..], reqs[0].at) == End(reqs, from)
  {
    assert forall i :: 0 <= i < |reqs[1..]| ==> reqs[1..][i] == reqs[i + 1];
  }

  ghost predicate WithinCredit(l: Limits, max: nat, t: Table, reqs: seq<Request>, from: real, key: Key) {
    Allowed(Answers(l, max, t, reqs), reqs, key) as real <= Credit(l, t, key, from) + Gain(l, from, End(reqs, from))
  }

  lemma NoRequests(l: Limits, max: nat, t: Table, from: real, key: Key)
    requires ValidLimits(l) && TableOk(l, t, from)
    ensures WithinCredit(l, max, t, [], from, key)
  {
    CreditNotNegative(l, t, key, from);
    assert Gain(l, from, from) == 0.0;
  }

  // By how much a request lowers the credit of a key.
  function Spent(l: Limits, max: nat, t: Table, r: Request, key: Key): real {
    if key == r.key && Answer(l, max, t, r.key, r.at) then 1.0 else 0.0
  }

  lemma OneMoreRequest(l: Limits, max: nat, t: Table, u: Table, reqs: seq<Request>, from: real, key: Key)
    requires reqs != [] && End(reqs[1..], reqs[0].at) == End(reqs, from)
    requires Allowed(Answers(l, max, t, reqs), reqs, key) as real
             == Spent(l, max, t, reqs[0], key) + Allowed(Answers(l, max, u, reqs[1..]), reqs[1..], key) as real
    requires Credit(l, u, key, reqs[0].at) + Spent(l, max, t, reqs[0], key) <= Credit(l, t, key, from) + Gain(l, from, reqs[0].at)
    requires WithinCredit(l, max, u, reqs[1..], reqs[0].at, key)
    ensures WithinCredit(l, max, t, reqs, from, key)
  {
    Combine(l, Allowed(Answers(l, max, t, reqs), reqs, key) as real, Spent(l, max, t, reqs[0], key),
            Credit(l, t, key, from), Credit(l, u, key, reqs[0].at), from, reqs[0].at, End(reqs, from));
  }

  lemma {:induction false} AllowedWithinCredit(l: Limits, max: nat, t: Table, reqs: seq<Request>, from: real, key: Key)
    requires ValidLimits(l) && l.burst as real <= l.rate * EVICT_AFTER && TableOk(l, t, from) && InOrder(reqs, from)
    ensures WithinCredit(l, max, t, reqs, from, key)
    decreases |reqs|
  {
    if reqs == [] {
      NoRequests(l, max, t, from, key);
    } else {
      RestInOrder(reqs, from);
      StepOk(l, max, t, reqs[0].key, from, reqs[0].at);
      AllowedWithinCredit(l, max, After(l, max, t, reqs[0].key, reqs[0].at), reqs[1..], reqs[0].at, key);
      StepCredit(l, max, t, reqs[0].key, from, reqs[0].at, key);
      FirstAnswer(l, max, t, reqs, key);
      OneMoreRequest(l, max, t, After(l, max, t, reqs[0].key, reqs[0].at), reqs, from, key);
    }
  }

  lemma Combine(l: Limits, count: real, spent: real, before: real, after: real, from: real, at: real, end: real)
    requires count - spent <= after + Gain(l, at, end) && after + spent <= before + Gain(l, from, at)
    ensures count <= before + Gain(l, from, end)
  {
    GainAdds(l, from, at, end);
  }

  // The bounded table, full or not, never lets a key have more than its burst plus what the rate
  // gives over the time: on every run, when the burst refills within the eviction time.
  lemma AllowedWithinRate(l: Limits, max: nat, t: Table, reqs: seq<Request>, from: real, key: Key)
    requires ValidLimits(l) && l.burst as real <= l.rate * EVICT_AFTER && TableOk(l, t, from) && InOrder(reqs, from)
    ensures Allowed(Answers(l, max, t, reqs), reqs, key) as real <= l.burst as real + Gain(l, from, End(reqs, from))
  {
    AllowedWithinCredit(l, max, t, reqs, from, key);
    CreditAtMostBurst(l, t, key, from);
  }

  lemma GainAdds(l: Limits, a: real, b: real, c: real)
    ensures Gain(l, a, b) + Gain(l, b, c) == Gain(l, a, c)
  {
  }

  lemma CreditAtMostBurst(l: Limits, t: Table, key: Key, now: real)
    requires ValidLimits(l) && TableOk(l, t, now)
    ensures Credit(l, t, key, now) <= l.burst as real
  {
  }

  lemma CreditNotNegative(l: Limits, t: Table, key: Key, now: real)
    requires ValidLimits(l) && TableOk(l, t, now)
    ensures 0.0 <= Credit(l, t, key, now)
  {
    if key in t { assert l.rate * (now - t[key].bucket.last) >= 0.0; }
  }

  // ---------------------------------------------------------------- who is served

  // A request is served exactly when there is room for its key and a token left.
  lemma ServedIff(l: Limits, max: nat, t: Table, key: Key, now: real)
    requires ValidLimits(l) && TableOk(l, t, now)
    ensures Answer(l, max, t, key, now) <==> !Overflows(max, t, key, now) && Credit(l, t, key, now) >= 1.0
  {
  }

  // A new key is turned away for want of room exactly when the table is full of keys that were all
  // seen in the last ten minutes; a known key never is.
  lemma OverflowsIff(max: nat, t: Table, key: Key, now: real)
    requires |t| <= max
    ensures Overflows(max, t, key, now) <==>
              key !in t && |t| == max && forall k :: k in t ==> now <= t[k].lastSeen + 600.0
  {
    var kept := Evict(t, now);
    assert kept.Keys <= t.Keys;
    if forall k :: k in t ==> now <= t[k].lastSeen + 600.0 {
      assert kept == t;
    } else {
      var k :| k in t && !(now <= t[k].lastSeen + 600.0);
      assert kept.Keys <= (t - {k}).Keys;
      Smaller(t, k);
      SubsetSize(kept.Keys, (t - {k}).Keys);
    }
  }

  lemma SubsetSize(a: set<Key>, b: set<Key>)
    requires a <= b
    ensures |a| <= |b|
  {
    assert b == a + (b - a);
  }

  // Requests of one key, each at least 1 / rate after the one before.
  ghost predicate Paced(l: Limits, reqs: seq<Request>, key: Key) {
    && (forall i :: 0 <= i < |reqs| ==> reqs[i].key == key)
    && forall i :: 0 < i < |reqs| ==> Gain(l, reqs[i - 1].at, reqs[i].at) >= 1.0
  }

  lemma PacedCredit(l: Limits, max: nat, t: Table, key: Key, now: real, next: real)
    requires ValidLimits(l) && TableOk(l, t, now) && now <= next && Answer(l, max, t, key, now) && Gain(l, now, next) >= 1.0
    ensures var u := After(l, max, t, key, now); key in u && Credit(l, u, key, next) >= 1.0
  {
    var b := EntryFor(l, t, key, now);
    TokensGrow(l, b, now, now);
    TokensGrow(l, Spend(l, b, now), now, next);
  }

  lemma PacedRest(l: Limits, reqs: seq<Request>, key: Key)
    requires reqs != [] && Paced(l, reqs, key)
    ensures Paced(l, reqs[1..], key) && (|reqs| > 1 ==> Gain(l, reqs[0].at, reqs[1].at) >= 1.0)
  {
    var rest := reqs[1..];
    assert forall i :: 0 <= i < |rest| ==> rest[i] == reqs[i + 1];
    forall i | 0 < i < |rest| ensures Gain(l, rest[i - 1].at, rest[i].at) >= 1.0 {
      assert Gain(l, reqs[i].at, reqs[i + 1].at) >= 1.0;
    }
  }

  ghost predicate AllServed(l: Limits, max: nat, t: Table, reqs: seq<Request>) {
    forall i :: 0 <= i < |reqs| ==> Answers(l, max, t, reqs)[i]
  }

  lemma ServedRest(l: Limits, max: nat, t: Table, reqs: seq<Request>)
    requires reqs != [] && Answer(l, max, t, reqs[0].key, reqs[0].at)
    requires AllServed(l, max, After(l, max, t, reqs[0].key, reqs[0].at), reqs[1..])
    ensures AllServed(l, max, t, reqs)
  {
    var answers, rest := Answers(l, max, t, reqs), Answers(l, max, After(l, max, t, reqs[0].key, reqs[0].at), reqs[1..]);
    assert answers == [true] + rest;
    forall i | 0 <= i < |reqs| ensures answers[i] {
      if i > 0 { assert answers[i] == rest[i - 1]; }
    }
  }

  // A caller that keeps to the rate is always served, once it is known or finds room.
  lemma {:induction false} PacedIsServed(l: Limits, max: nat, t: Table, reqs: seq<Request>, from: real, key: Key)
    requires ValidLimits(l) && TableOk(l, t, from) && InOrder(reqs, from) && Paced(l, reqs, key)
    requires reqs != [] ==> !Overflows(max, t, key, reqs[0].at) && Credit(l, t, key, reqs[0].at) >= 1.0
    ensures AllServed(l, max, t, reqs)
    decreases |reqs|
  {
    if reqs != [] {
      var at := reqs[0].at;
      RestInOrder(reqs, from);
      PacedRest(l, reqs, key);
      StepOk(l, max, t, key, from, at);
      ServedIff(l, max, t, key, at);
      if |reqs| > 1 { PacedCredit(l, max, t, key, at, reqs[1].at); }
      PacedIsServed(l, max, After(l, max, t, key, at), reqs[1..], at, key);
      ServedRest(l, max, t, reqs);
    }
  }

  // n requests of one key at one moment.
  function Burst(key: Key, now: real, n: nat): seq<Request> { seq(n, _ => Request(key, now)) }

  // As many of them are served as the key has whole tokens: of a key nobody has seen, the burst.
  lemma {:induction false} BurstIsServed(l: Limits, max: nat, t: Table, key: Key, now: real, n: nat)
    requires ValidLimits(l) && TableOk(l, t, now) && !Overflows(max, t, key, now)
    ensures forall i :: 0 <= i < n ==> (Answers(l, max, t, Burst(key, now, n))[i] <==> (i + 1) as real <= Credit(l, t, key, now))
    decreases n
  {
    if n > 0 {
      var u, rest := After(l, max, t, key, now), Burst(key, now, n - 1);
      assert Burst(key, now, n)[1..] == rest;
      StepOk(l, max, t, key, now, now);
      OwnCredit(l, t, key, now);
      BurstIsServed(l, max, u, key, now, n - 1);
      var answers := Answers(l, max, t, Burst(key, now, n));
      forall i | 0 <= i < n ensures answers[i] <==> (i + 1) as real <= Credit(l, t, key, now) {
        if i > 0 { assert answers[i] == Answers(l, max, u, rest)[i - 1]; }
      }
    }
  }
}
