/**
 The condition burst <= rate * 600 s under which eviction is invisible is exact: whenever it
 fails, some run tells the bounded rate limiter table from the unbounded one.
 */
module EvictionVisibility {
  import opened RateLimiter

  // ---------------------------------------------------------------- both tables over a run

  function FinalTable(l: Limits, max: nat, t: Table, reqs: seq<Request>): Table
    decreases |reqs|
  {
    if reqs == [] then t else FinalTable(l, max, After(l, max, t, reqs[0].key, reqs[0].at), reqs[1..])
  }

  function FinalMemory(l: Limits, m: Memory, reqs: seq<Request>): Memory
    decreases |reqs|
  {
    if reqs == [] then m else FinalMemory(l, IdealAfter(l, m, reqs[0].key, reqs[0].at), reqs[1..])
  }

  // Both tables as one fold, for the facts about concatenated runs.
  function Fold<S>(step: (S, Request) -> S, s: S, reqs: seq<Request>): S
    decreases |reqs|
  {
    if reqs == [] then s else Fold(step, step(s, reqs[0]), reqs[1..])
  }

  function Outs<S>(step: (S, Request) -> S, out: (S, Request) -> bool, s: S, reqs: seq<Request>): (r: seq<bool>)
    ensures |r| == |reqs|
    decreases |reqs|
  {
    if reqs == [] then [] else [out(s, reqs[0])] + Outs(step, out, step(s, reqs[0]), reqs[1..])
  }

  lemma {:induction false} FoldAppends<S>(step: (S, Request) -> S, out: (S, Request) -> bool, s: S, a: seq<Request>, b: seq<Request>)
    ensures Fold(step, s, a + b) == Fold(step, Fold(step, s, a), b)
    ensures Outs(step, out, s, a + b) == Outs(step, out, s, a) + Outs(step, out, Fold(step, s, a), b)
    decreases |a|
  {
    if a == [] {
      assert a + b == b;
    } else {
      FoldAppends(step, out, step(s, a[0]), a[1..], b);
      assert (a + b)[1..] == a[1..] + b;
    }
  }

  function TableStep(l: Limits, max: nat): (Table, Request) -> Table { (t: Table, r: Request) => After(l, max, t, r.key, r.at) }
  function TableOut(l: Limits, max: nat): (Table, Request) -> bool { (t: Table, r: Request) => Answer(l, max, t, r.key, r.at) }
  function MemoryStep(l: Limits): (Memory, Request) -> Memory { (m: Memory, r: Request) => IdealAfter(l, m, r.key, r.at) }
  function MemoryOut(l: Limits): (Memory, Request) -> bool { (m: Memory, r: Request) => IdealAnswer(l, m, r.key, r.at) }

  lemma {:induction false} TableFolds(l: Limits, max: nat, t: Table, reqs: seq<Request>)
    ensures FinalTable(l, max, t, reqs) == Fold(TableStep(l, max), t, reqs)
    ensures Answers(l, max, t, reqs) == Outs(TableStep(l, max), TableOut(l, max), t, reqs)
    decreases |reqs|
  {
    if reqs != [] { TableFolds(l, max, After(l, max, t, reqs[0].key, reqs[0].at), reqs[1..]); }
  }

  lemma {:induction false} MemoryFolds(l: Limits, m: Memory, reqs: seq<Request>)
    ensures FinalMemory(l, m, reqs) == Fold(MemoryStep(l), m, reqs)
    ensures IdealAnswers(l, m, reqs) == Outs(MemoryStep(l), MemoryOut(l), m, reqs)
    decreases |reqs|
  {
    if reqs != [] { MemoryFolds(l, IdealAfter(l, m, reqs[0].key, reqs[0].at), reqs[1..]); }
  }

  lemma {:induction false} FinalCompose(l: Limits, max: nat, t: Table, a: seq<Request>, b: seq<Request>)
    ensures FinalTable(l, max, t, a + b) == FinalTable(l, max, FinalTable(l, max, t, a), b)
  {
    TableFolds(l, max, t, a + b);
    TableFolds(l, max, t, a);
    TableFolds(l, max, FinalTable(l, max, t, a), b);
    FoldAppends(TableStep(l, max), TableOut(l, max), t, a, b);
  }

  lemma {:induction false} LaterAnswer(l: Limits, max: nat, t: Table, a: seq<Request>, b: seq<Request>, i: nat)
    requires i < |b|
    ensures Answers(l, max, t, a + b)[|a| + i] == Answers(l, max, FinalTable(l, max, t, a), b)[i]
  {
    TableFolds(l, max, t, a + b);
    TableFolds(l, max, t, a);
    TableFolds(l, max, FinalTable(l, max, t, a), b);
    FoldAppends(TableStep(l, max), TableOut(l, max), t, a, b);
  }

  lemma {:induction false} OverflowCompose(l: Limits, max: nat, t: Table, a: seq<Request>, b: seq<Request>)
    requires NeverOverflows(l, max, t, a) && NeverOverflows(l, max, FinalTable(l, max, t, a), b)
    ensures NeverOverflows(l, max, t, a + b)
    decreases |a|
  {
    if a == [] {
      assert a + b == b;
    } else {
      OverflowCompose(l, max, After(l, max, t, a[0].key, a[0].at), a[1..], b);
      assert (a + b)[1..] == a[1..] + b;
    }
  }

  lemma OneRequest(l: Limits, max: nat, t: Table, m: Memory, r: Request)
    ensures FinalTable(l, max, t, [r]) == After(l, max, t, r.key, r.at)
    ensures FinalMemory(l, m, [r]) == IdealAfter(l, m, r.key, r.at)
    ensures NeverOverflows(l, max, t, [r]) == !Overflows(max, t, r.key, r.at)
  {
    assert [r][1..] == [];
  }

  lemma {:induction false} MemoryCompose(l: Limits, m: Memory, a: seq<Request>, b: seq<Request>)
    ensures FinalMemory(l, m, a + b) == FinalMemory(l, FinalMemory(l, m, a), b)
    ensures IdealAnswers(l, m, a + b) == IdealAnswers(l, m, a) + IdealAnswers(l, FinalMemory(l, m, a), b)
  {
    MemoryFolds(l, m, a + b);
    MemoryFolds(l, m, a);
    MemoryFolds(l, FinalMemory(l, m, a), b);
    FoldAppends(MemoryStep(l), MemoryOut(l), m, a, b);
  }

  // ---------------------------------------------------------------- n requests at one instant

  function Repeat(key: Key, now: real, n: nat): (r: seq<Request>)
    ensures |r| == n
  {
    if n == 0 then [] else [Request(key, now)] + Repeat(key, now, n - 1)
  }

  // With enough tokens all are allowed, one token each.
  lemma {:induction false} RepeatAllowed(l: Limits, max: nat, t: Table, m: Memory, key: Key, now: real, n: nat)
    requires ValidLimits(l) && key in t && key in m && m[key] == t[key].bucket && t[key].bucket.last == now
    requires n as real <= t[key].bucket.tokens <= l.burst as real
    ensures NeverOverflows(l, max, t, Repeat(key, now, n))
    ensures forall i :: 0 <= i < n ==> Answers(l, max, t, Repeat(key, now, n))[i]
    ensures n > 0 ==> FinalTable(l, max, t, Repeat(key, now, n)) == t[key := Entry(Bucket(t[key].bucket.tokens - n as real, now), now)]
    ensures n > 0 ==> FinalMemory(l, m, Repeat(key, now, n)) == m[key := Bucket(t[key].bucket.tokens - n as real, now)]
    decreases n
  {
    if n > 0 {
      var t1, m1 := After(l, max, t, key, now), IdealAfter(l, m, key, now);
      assert l.rate * 0.0 == 0.0;
      assert TokensAt(l, t[key].bucket, now) == t[key].bucket.tokens;
      RepeatAllowed(l, max, t1, m1, key, now, n - 1);
      assert Repeat(key, now, n)[1..] == Repeat(key, now, n - 1);
    }
  }

  // With fewer tokens than requests the unbounded table refuses one of them.
  lemma {:induction false} RepeatRefused(l: Limits, m: Memory, key: Key, now: real, n: nat) returns (i: nat)
    requires ValidLimits(l) && n >= 1 && key in m && TokensAt(l, m[key], now) < n as real
    ensures i < n && !IdealAnswers(l, m, Repeat(key, now, n))[i]
    decreases n
  {
    assert Repeat(key, now, n)[1..] == Repeat(key, now, n - 1);
    if !Allows(l, m[key], now) {
      i := 0;
    } else {
      var m1 := IdealAfter(l, m, key, now);
      assert l.rate * 0.0 == 0.0;
      assert TokensAt(l, m1[key], now) == TokensAt(l, m[key], now) - 1.0;
      var j := RepeatRefused(l, m1, key, now, n - 1);
      i := j + 1;
    }
  }

  // ---------------------------------------------------------------- filling the table

  function Fill(n: nat): (r: seq<Request>)
    ensures |r| == n
  {
    if n == 0 then [] else Fill(n - 1) + [Request(n - 1, 0.0)]
  }

  // One request per key at time zero: both tables hold exactly those keys, one token spent each.
  ghost predicate Filled(l: Limits, t: Table, m: Memory, n: nat) {
    && |t| == n
    && (forall k: Key :: k in t <==> k < n)
    && (forall k: Key :: k in m <==> k < n)
    && forall k: Key :: k < n ==> t[k] == Entry(Bucket(l.burst as real - 1.0, 0.0), 0.0) && m[k] == t[k].bucket
  }

  lemma FillOne(l: Limits, max: nat, t: Table, m: Memory, n: nat)
    requires ValidLimits(l) && Filled(l, t, m, n) && n < max
    ensures !Overflows(max, t, n, 0.0)
    ensures Filled(l, After(l, max, t, n, 0.0), IdealAfter(l, m, n, 0.0), n + 1)
  {
    assert l.rate * 0.0 == 0.0;
    Larger(t, n, Entry(Bucket(l.burst as real - 1.0, 0.0), 0.0));
  }

  lemma {:induction false} FillAll(l: Limits, max: nat, n: nat)
    requires ValidLimits(l) && n <= max
    ensures NeverOverflows(l, max, map[], Fill(n))
    ensures Filled(l, FinalTable(l, max, map[], Fill(n)), FinalMemory(l, map[], Fill(n)), n)
  {
    if n > 0 {
      FillAll(l, max, n - 1);
      var t, m := FinalTable(l, max, map[], Fill(n - 1)), FinalMemory(l, map[], Fill(n - 1));
      var last := Request(n - 1, 0.0);
      FillOne(l, max, t, m, n - 1);
      OneRequest(l, max, t, m, last);
      FinalCompose(l, max, map[], Fill(n - 1), [last]);
      OverflowCompose(l, max, map[], Fill(n - 1), [last]);
      MemoryCompose(l, map[], Fill(n - 1), [last]);
    }
  }

  // ---------------------------------------------------------------- the distinguishing run

  // Both tables when key 0 has no token left and all `max` keys were last seen at time zero.
  ghost predicate Exhausted(l: Limits, max: nat, t: Table, m: Memory) {
    && |t| == max
    && (forall k: Key :: k in t <==> k < max)
    && (forall k: Key :: k < max ==> t[k].lastSeen == 0.0)
    && 0 in m && m[0] == Bucket(0.0, 0.0)
  }

  function Opening(l: Limits, max: nat): seq<Request>
    requires l.burst >= 1
  {
    Fill(max) + Repeat(0, 0.0, l.burst - 1)
  }

  lemma OpeningExhausts(l: Limits, max: nat)
    requires ValidLimits(l) && max >= 2
    ensures NeverOverflows(l, max, map[], Opening(l, max))
    ensures Exhausted(l, max, FinalTable(l, max, map[], Opening(l, max)), FinalMemory(l, map[], Opening(l, max)))
  {
    FillAll(l, max, max);
    var t, m := FinalTable(l, max, map[], Fill(max)), FinalMemory(l, map[], Fill(max));
    var rest := Repeat(0, 0.0, l.burst - 1);
    RepeatAllowed(l, max, t, m, 0, 0.0, l.burst - 1);
    FinalCompose(l, max, map[], Fill(max), rest);
    OverflowCompose(l, max, map[], Fill(max), rest);
    MemoryCompose(l, map[], Fill(max), rest);
    assert t[0 := Entry(Bucket(0.0, 0.0), 0.0)].Keys == t.Keys;
  }

  // After the eviction, key 0 starts over with a full bucket; the unbounded table still owes it
  // the time it was idle.
  function Finale(l: Limits, max: nat, late: real): seq<Request> {
    [Request(max, late)] + Repeat(0, late, l.burst)
  }

  // The late request evicts everything, and key 0 is then served from a new bucket.
  lemma AfterEviction(l: Limits, max: nat, t: Table, m: Memory, late: real)
    requires ValidLimits(l) && max >= 2 && Exhausted(l, max, t, m) && late > EVICT_AFTER
    ensures !Overflows(max, t, max, late)
    ensures var t1 := After(l, max, t, max, late);
            && !Overflows(max, t1, 0, late) && Answer(l, max, t1, 0, late)
            && 0 in After(l, max, t1, 0, late) && After(l, max, t1, 0, late)[0].bucket == Bucket(l.burst as real - 1.0, late)
  {
    var t1 := After(l, max, t, max, late);
    assert Evict(t, late) == map[];
    assert l.rate * 0.0 == 0.0;
    assert t1.Keys == {max};
  }

  lemma {:induction false} FinaleBounded(l: Limits, max: nat, t: Table, m: Memory, late: real)
    requires ValidLimits(l) && max >= 2 && Exhausted(l, max, t, m) && late > EVICT_AFTER
    ensures NeverOverflows(l, max, t, Finale(l, max, late))
    ensures forall i :: 0 < i <= l.burst ==> Answers(l, max, t, Finale(l, max, late))[i]
  {
    AfterEviction(l, max, t, m, late);
    var t1 := After(l, max, t, max, late);
    var t2 := After(l, max, t1, 0, late);
    var more := Repeat(0, late, l.burst - 1);
    RepeatAllowed(l, max, t2, map[0 := t2[0].bucket], 0, late, l.burst - 1);
    assert Finale(l, max, late) == [Request(max, late)] + ([Request(0, late)] + more);
    assert Finale(l, max, late)[1..] == [Request(0, late)] + more && ([Request(0, late)] + more)[1..] == more;
    assert Answers(l, max, t, Finale(l, max, late)) ==
           [Answer(l, max, t, max, late)] + ([Answer(l, max, t1, 0, late)] + Answers(l, max, t2, more));
  }

  lemma {:induction false} FinaleUnbounded(l: Limits, max: nat, m: Memory, late: real) returns (i: nat)
    requires ValidLimits(l) && max >= 2 && 0 in m && m[0] == Bucket(0.0, 0.0) && late > 0.0 && l.rate * late < l.burst as real
    ensures 0 < i <= l.burst && !IdealAnswers(l, m, Finale(l, max, late))[i]
  {
    var m1 := IdealAfter(l, m, max, late);
    var j := RepeatRefused(l, m1, 0, late, l.burst);
    assert Finale(l, max, late)[1..] == Repeat(0, late, l.burst);
    i := j + 1;
  }

  lemma {:induction false} SameInstant(n: nat, burst: nat, late: real, max: nat)
    requires late > 0.0
    ensures InOrder(Fill(n) + Repeat(0, 0.0, burst) + ([Request(max, late)] + Repeat(0, late, burst + 1)), 0.0)
  {
    FillTimes(n);
    RepeatTimes(0, 0.0, burst);
    RepeatTimes(0, late, burst + 1);
  }

  lemma {:induction false} FillTimes(n: nat)
    ensures forall i :: 0 <= i < |Fill(n)| ==> Fill(n)[i].at == 0.0
  {
    if n > 0 { FillTimes(n - 1); }
  }

  lemma {:induction false} RepeatTimes(key: Key, now: real, n: nat)
    ensures forall i :: 0 <= i < |Repeat(key, now, n)| ==> Repeat(key, now, n)[i].at == now
  {
    if n > 0 { RepeatTimes(key, now, n - 1); }
  }

  // Whenever the burst exceeds what is refilled in the eviction time, the tables can be told
  // apart by a run that never overflows, for every table size of two or more.
  lemma EvictionIsVisible(l: Limits, max: nat) returns (reqs: seq<Request>)
    requires ValidLimits(l) && max >= 2 && l.burst as real > l.rate * EVICT_AFTER
    ensures InOrder(reqs, 0.0) && NeverOverflows(l, max, map[], reqs)
    ensures Answers(l, max, map[], reqs) != IdealAnswers(l, map[], reqs)
  {
    var late := LateEnough(l);
    var opening, finale := Opening(l, max), Finale(l, max, late);
    reqs := opening + finale;
    OpeningExhausts(l, max);
    var t, m := FinalTable(l, max, map[], opening), FinalMemory(l, map[], opening);
    FinaleBounded(l, max, t, m, late);
    var i := FinaleUnbounded(l, max, m, late);
    LaterAnswer(l, max, map[], opening, finale, i);
    OverflowCompose(l, max, map[], opening, finale);
    MemoryCompose(l, map[], opening, finale);
    assert Answers(l, max, map[], reqs)[|opening| + i] && !IdealAnswers(l, map[], reqs)[|opening| + i];
    SameInstant(max, l.burst - 1, late, max);
  }

  lemma LateEnough(l: Limits) returns (late: real)
    requires ValidLimits(l) && l.burst as real > l.rate * EVICT_AFTER
    ensures late > EVICT_AFTER && l.rate * late < l.burst as real
  {
    var gap := l.burst as real - l.rate * EVICT_AFTER;
    late := EVICT_AFTER + gap / (2.0 * l.rate);
    assert l.rate * (gap / (2.0 * l.rate)) == gap / 2.0;
    assert l.rate * late == l.rate * EVICT_AFTER + l.rate * (gap / (2.0 * l.rate));
  }

  // Both directions: on every run that never overflows, from empty tables, the bounded and the
  // unbounded table answer alike, if and only if a burst is refilled within the eviction time.
  lemma EvictionInvisibleIff(l: Limits, max: nat)
    requires ValidLimits(l) && max >= 2
    ensures (forall reqs :: InOrder(reqs, 0.0) && NeverOverflows(l, max, map[], reqs) ==>
               Answers(l, max, map[], reqs) == IdealAnswers(l, map[], reqs))
            <==> l.burst as real <= l.rate * EVICT_AFTER
  {
    if l.burst as real <= l.rate * EVICT_AFTER {
      forall reqs | InOrder(reqs, 0.0) && NeverOverflows(l, max, map[], reqs)
        ensures Answers(l, max, map[], reqs) == IdealAnswers(l, map[], reqs)
      {
        EvictionIsInvisible(l, max, map[], map[], reqs, 0.0);
      }
    } else {
      var reqs := EvictionIsVisible(l, max);
    }
  }
}
