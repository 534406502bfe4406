/**
 No delivery can get stuck: from every reachable state of the relay, whatever rows other
 workers left PROCESSING, reverted late or counted without marking, one free worker whose
 statements succeed brings every row to DELIVERED within an explicit number of steps.
 */
module RelayLiveness {
  import opened Common
  import opened RegionRelay

  // ---------------------------------------------------------------- runs compose

  lemma {:induction false} RunsCompose(c: Config, s: State, a: seq<Action>, b: seq<Action>)
    requires CanRun(c, s, a) && CanRun(c, RunAll(c, s, a), b)
    ensures CanRun(c, s, a + b) && RunAll(c, s, a + b) == RunAll(c, RunAll(c, s, a), b)
    decreases |a|
  {
    if a == [] {
      assert a + b == b;
    } else {
      RunsCompose(c, Apply(c, s, a[0]), a[1..], b);
      assert (a + b)[1..] == a[1..] + b;
    }
  }

  lemma OneStep(c: Config, s: State, a: Action)
    requires Enabled(c, s, a)
    ensures CanRun(c, s, [a]) && RunAll(c, s, [a]) == Apply(c, s, a)
  {
    assert [a][1..] == [];
  }

  // ---------------------------------------------------------------- remaining work

  // Attempts a row may still need: an event claimed for the first time in this epoch may be
  // applied already, and then only its next attempt marks it.
  function Weight(c: Config, s: State, e: EventId): nat {
    if e in s.rows && s.rows[e].status.Delivered? then 0
    else if c.adapter && Key(s.epoch, e) !in s.proposals then 2
    else 1
  }

  function Work(c: Config, s: State, order: seq<EventId>): nat {
    if order == [] then 0 else Weight(c, s, order[0]) + Work(c, s, order[1..])
  }

  lemma {:induction false} WorkShrinks(c: Config, s: State, t: State, order: seq<EventId>)
    requires forall e :: e in order ==> Weight(c, t, e) <= Weight(c, s, e)
    ensures Work(c, t, order) <= Work(c, s, order)
    ensures (exists e :: e in order && Weight(c, t, e) < Weight(c, s, e)) ==> Work(c, t, order) < Work(c, s, order)
  {
    if order != [] {
      WorkShrinks(c, s, t, order[1..]);
      if e :| e in order && Weight(c, t, e) < Weight(c, s, e) {
        assert e == order[0] || e in order[1..];
      }
    }
  }

  lemma {:induction false} WorkBounded(c: Config, s: State, order: seq<EventId>)
    ensures Work(c, s, order) <= 2 * |order|
    ensures Work(c, s, order) == 0 ==> forall e :: e in order ==> e in s.rows && s.rows[e].status.Delivered?
  {
    if order != [] {
      WorkBounded(c, s, order[1..]);
      assert forall e :: e in order ==> e == order[0] || e in order[1..];
    }
  }

  // ---------------------------------------------------------------- one row

  // Only worker `w` and the row of `e` moved; the growing tables grew.
  ghost predicate Solo(s: State, t: State, w: WorkerId, e: EventId) {
    && t.order == s.order && t.epoch == s.epoch && t.now == s.now && |t.redis| == |s.redis|
    && t.rows.Keys == s.rows.Keys
    && (forall x :: x in s.rows && x != e ==> t.rows[x] == s.rows[x])
    && s.proposals <= t.proposals
  }

  function RowSteps(shards: nat): nat { 2 * shards + 6 }

  // Statements left before the current row is finished, if all succeed.
  function Rank(shards: nat, pc: Pc): nat {
    match pc
    case AtClaim => 2 * shards + 6
    case AtCheck(AfterClaim) => 2 * shards + 5
    case AtSetNX(false, i, _) => shards + 4 + (if i <= shards then shards - i else 0)
    case AtCheck(AfterFirstNX) => shards + 4
    case AtSetNX(true, i, _) => 3 + (if i <= shards then shards - i else 0)
    case AtCheck(_) => 3
    case AtHandle => 2
    case AtCommit => 1
    case AtMark => 1
    case AtRevert => 1
  }

  // The attempt confirmed its proposal itself, or is about to.
  predicate Fresh(s: State, b: Worker)
    requires b.Busy? && b.batch != []
  {
    (b.pc.AtClaim? && Key(s.epoch, b.batch[0]) !in s.proposals)
    || (!b.pc.AtClaim? && b.claim.Claimed? && b.claim.outcome.Confirmed?)
  }

  ghost predicate OnTrack(s: State, b: Worker)
    requires b.Busy? && b.batch != []
  {
    && !b.pc.AtRevert?
    && ((b.pc.AtHandle? || b.pc.AtCommit?) && !Fresh(s, b) ==> b.batch[0] !in s.idem)
  }

  // A successful statement that does not finish the row brings its end nearer.
  lemma RowStep(c: Config, s: State, b: Worker)
    requires TablesOk(s) && WorkerOk(s, b) && b.Busy? && OnTrack(s, b)
    requires !b.pc.AtCommit? && !b.pc.AtMark?
    ensures var n, t := OnSuccess(c, s, b), Effect(s, b);
            && n.Busy? && n.batch == b.batch && n.counted == b.counted
            && OnTrack(t, n) && (Fresh(t, n) ==> Fresh(s, b))
            && Rank(|s.redis|, n.pc) < Rank(|s.redis|, b.pc)
            && (b.pc.AtClaim? ==> Key(s.epoch, b.batch[0]) in t.proposals) && !n.pc.AtClaim?
  {
  }

  lemma RowLastStep(c: Config, s: State, b: Worker)
    requires TablesOk(s) && WorkerOk(s, b) && b.Busy? && OnTrack(s, b)
    requires b.pc.AtCommit? || b.pc.AtMark?
    ensures Effect(s, b).rows[b.batch[0]].status.Delivered? || Fresh(s, b)
    ensures OnSuccess(c, s, b) == Begin(c, b.batch[1..], b.counted + [b.batch[0]])
  {
  }

  lemma StepIsSolo(c: Config, s: State, w: WorkerId)
    requires Inv(s) && BusyAt(s, w)
    ensures Solo(s, Apply(c, s, Run(w)), w, s.workers[w].batch[0])
  {
    assert WorkerOk(s, s.workers[w]);
  }

  lemma {:induction false} FinishRow(c: Config, s: State, w: WorkerId) returns (acts: seq<Action>)
    requires Inv(s) && BusyAt(s, w) && OnTrack(s, s.workers[w])
    ensures CanRun(c, s, acts) && |acts| <= Rank(|s.redis|, s.workers[w].pc)
    ensures forall a :: a in acts ==> a == Run(w)
    ensures var b, t := s.workers[w], RunAll(c, s, acts);
            && Solo(s, t, w, b.batch[0])
            && w in t.workers && t.workers[w] == Begin(c, b.batch[1..], b.counted + [b.batch[0]])
            && (b.pc.AtClaim? ==> Key(s.epoch, b.batch[0]) in t.proposals)
            && ((b.batch[0] in t.rows && t.rows[b.batch[0]].status.Delivered?) || Fresh(s, b))
    decreases Rank(|s.redis|, s.workers[w].pc)
  {
    var b := s.workers[w];
    assert WorkerOk(s, b);
    StepIsSolo(c, s, w);
    OneStep(c, s, Run(w));
    if b.pc.AtCommit? || b.pc.AtMark? {
      RowLastStep(c, s, b);
      acts := [Run(w)];
    } else {
      RowStep(c, s, b);
      StepKeepsInv(c, s, Run(w));
      var s1 := Apply(c, s, Run(w));
      var rest := FinishRow(c, s1, w);
      RunsCompose(c, s, [Run(w)], rest);
      acts := [Run(w)] + rest;
    }
  }

  // ---------------------------------------------------------------- one batch

  lemma RowWorkDone(c: Config, s: State, t: State, w: WorkerId, e: EventId)
    requires Solo(s, t, w, e) && e in s.order && e in s.rows && !s.rows[e].status.Delivered?
    requires t.rows[e].status.Delivered? || (c.adapter && Key(s.epoch, e) !in s.proposals && Key(s.epoch, e) in t.proposals)
    ensures Work(c, t, s.order) < Work(c, s, s.order)
  {
    assert Weight(c, t, e) < Weight(c, s, e);
    WorkShrinks(c, s, t, s.order);
  }

  ghost predicate SameWorld(s: State, t: State) {
    t.order == s.order && t.epoch == s.epoch && |t.redis| == |s.redis|
  }

  ghost predicate Ready(c: Config, s: State, w: WorkerId, batch: seq<EventId>, counted: seq<EventId>) {
    && w in s.workers && s.workers[w] == Begin(c, batch, counted) && Distinct(batch)
    && forall e :: e in batch ==> e in s.rows && !s.rows[e].status.Delivered?
  }

  lemma HeadRow(c: Config, s: State, w: WorkerId, batch: seq<EventId>, counted: seq<EventId>)
    returns (acts: seq<Action>, t: State)
    requires Inv(s) && batch != [] && Ready(c, s, w, batch, counted)
    ensures CanRun(c, s, acts) && t == RunAll(c, s, acts) && |acts| <= RowSteps(|s.redis|)
    ensures forall a :: a in acts ==> a == Run(w)
    ensures Inv(t) && SameWorld(s, t) && Ready(c, t, w, batch[1..], counted + [batch[0]])
    ensures Work(c, t, s.order) < Work(c, s, s.order)
  {
    var e, tail := batch[0], batch[1..];
    assert BusyAt(s, w) && OnTrack(s, s.workers[w]);
    acts := FinishRow(c, s, w);
    t := RunAll(c, s, acts);
    RunKeepsInv(c, s, acts);
    RowWorkDone(c, s, t, w, e);
    assert forall i :: 0 <= i < |tail| ==> tail[i] == batch[i + 1] && tail[i] != e;
  }

  lemma {:induction false} FinishBatch(c: Config, s: State, w: WorkerId, batch: seq<EventId>, counted: seq<EventId>)
    returns (acts: seq<Action>, t: State)
    requires Inv(s) && Ready(c, s, w, batch, counted)
    ensures CanRun(c, s, acts) && t == RunAll(c, s, acts) && |acts| <= |batch| * RowSteps(|s.redis|)
    ensures forall a :: a in acts ==> a == Run(w)
    ensures Inv(t) && SameWorld(s, t) && w in t.workers && t.workers[w].Idle?
    ensures Work(c, t, s.order) + |batch| <= Work(c, s, s.order)
    decreases |batch|
  {
    if batch == [] {
      acts, t := [], s;
    } else {
      var first, mid := HeadRow(c, s, w, batch, counted);
      var rest;
      rest, t := FinishBatch(c, mid, w, batch[1..], counted + [batch[0]]);
      RunsCompose(c, s, first, rest);
      acts := first + rest;
      assert (|batch| - 1) * RowSteps(|s.redis|) + RowSteps(|s.redis|) == |batch| * RowSteps(|s.redis|);
    }
  }

  // ---------------------------------------------------------------- rounds

  predicate Free(s: State, w: WorkerId) { w in s.workers ==> s.workers[w].Idle? }

  // The steps of a round: time passes, stale rows are reclaimed, `w` polls with no row locked
  // elsewhere, and its statements succeed.
  predicate RoundAction(a: Action, w: WorkerId) {
    a == Tick(STALE_AFTER + 1) || a == Reclaim || a == Poll(w, {}) || a == Run(w)
  }

  lemma WorkByStatus(c: Config, s: State, t: State)
    requires t.epoch == s.epoch && t.proposals == s.proposals && t.rows.Keys == s.rows.Keys
    requires forall e :: e in s.rows ==> (t.rows[e].status.Delivered? <==> s.rows[e].status.Delivered?)
    ensures Work(c, t, s.order) == Work(c, s, s.order)
  {
    WorkShrinks(c, s, t, s.order);
    WorkShrinks(c, t, s, s.order);
  }

  // After a tick and a reclaim, every row is either delivered or pending.
  lemma ReclaimAll(c: Config, s: State) returns (acts: seq<Action>)
    requires Inv(s)
    ensures acts == [Tick(STALE_AFTER + 1), Reclaim] && CanRun(c, s, acts)
    ensures var t := RunAll(c, s, acts);
            && Inv(t) && SameWorld(s, t) && t.workers == s.workers
            && Work(c, t, s.order) == Work(c, s, s.order)
            && Settled(t)
  {
    var tick := Tick(STALE_AFTER + 1);
    acts := [tick, Reclaim];
    var s1 := Apply(c, s, tick);
    OneStep(c, s, tick);
    OneStep(c, s1, Reclaim);
    RunsCompose(c, s, [tick], [Reclaim]);
    assert [tick] + [Reclaim] == acts;
    RunKeepsInv(c, s, acts);
    WorkByStatus(c, s, Apply(c, s1, Reclaim));
  }

  ghost predicate Settled(s: State) {
    forall e :: e in s.rows ==> s.rows[e].status.Delivered? || s.rows[e].status.Pending?
  }

  lemma PollTakesWork(c: Config, s: State, w: WorkerId) returns (ids: seq<EventId>, t: State)
    requires Inv(s) && Free(s, w) && c.limit >= 1 && Work(c, s, s.order) > 0 && Settled(s)
    ensures t == Apply(c, s, Poll(w, {})) && ids != [] && Ready(c, t, w, ids, [])
    ensures SameWorld(s, t) && Work(c, t, s.order) == Work(c, s, s.order)
  {
    ids, t := Polled(c, s, {}), Apply(c, s, Poll(w, {}));
    ClaimablePending(s.order, s.rows, {});
    WorkByStatus(c, s, t);
    if ids == [] { AllDeliveredNoWork(c, s, s.order); }
  }

  lemma {:induction false} AllDeliveredNoWork(c: Config, s: State, order: seq<EventId>)
    requires forall e :: e in order ==> e in s.rows && s.rows[e].status.Delivered?
    ensures Work(c, s, order) == 0
  {
    if order != [] { AllDeliveredNoWork(c, s, order[1..]); }
  }

  lemma PollAndFinish(c: Config, s: State, w: WorkerId) returns (acts: seq<Action>, done: nat, t: State)
    requires Inv(s) && Free(s, w) && c.limit >= 1 && Work(c, s, s.order) > 0 && Settled(s)
    ensures CanRun(c, s, acts) && t == RunAll(c, s, acts)
    ensures done >= 1 && |acts| <= 1 + done * RowSteps(|s.redis|)
    ensures forall a :: a in acts ==> RoundAction(a, w)
    ensures Inv(t) && SameWorld(s, t) && Free(t, w) && Work(c, t, s.order) + done <= Work(c, s, s.order)
  {
    var ids, mid := PollTakesWork(c, s, w);
    OneStep(c, s, Poll(w, {}));
    StepKeepsInv(c, s, Poll(w, {}));
    var rest;
    rest, t := FinishBatch(c, mid, w, ids, []);
    RunsCompose(c, s, [Poll(w, {})], rest);
    acts, done := [Poll(w, {})] + rest, |ids|;
  }

  lemma OneRound(c: Config, s: State, w: WorkerId) returns (acts: seq<Action>, done: nat, t: State)
    requires Inv(s) && Free(s, w) && c.limit >= 1 && Work(c, s, s.order) > 0
    ensures CanRun(c, s, acts) && t == RunAll(c, s, acts)
    ensures done >= 1 && |acts| <= done * (RowSteps(|s.redis|) + 3)
    ensures forall a :: a in acts ==> RoundAction(a, w)
    ensures Inv(t) && SameWorld(s, t) && Free(t, w) && Work(c, t, s.order) + done <= Work(c, s, s.order)
  {
    var r := ReclaimAll(c, s);
    var rest;
    rest, done, t := PollAndFinish(c, RunAll(c, s, r), w);
    RunsCompose(c, s, r, rest);
    acts := r + rest;
    assert done * (RowSteps(|s.redis|) + 3) == done * RowSteps(|s.redis|) + 3 * done;
  }

  // Every delivery completes: the statement at the head of this file.
  lemma {:induction false} Drain(c: Config, s: State, w: WorkerId) returns (acts: seq<Action>)
    requires Inv(s) && Free(s, w) && c.limit >= 1
    ensures CanRun(c, s, acts) && |acts| <= Work(c, s, s.order) * (RowSteps(|s.redis|) + 3)
    ensures forall a :: a in acts ==> RoundAction(a, w)
    ensures var t := RunAll(c, s, acts);
            t.order == s.order && Work(c, t, s.order) == 0
    decreases Work(c, s, s.order)
  {
    if Work(c, s, s.order) == 0 {
      acts := [];
    } else {
      var first, done, mid := OneRound(c, s, w);
      var rest := Drain(c, mid, w);
      RunsCompose(c, s, first, rest);
      acts := first + rest;
      BoundAdds(done, Work(c, mid, s.order), Work(c, s, s.order), RowSteps(|s.redis|) + 3);
    }
  }

  lemma BoundAdds(a: nat, b: nat, total: nat, k: nat)
    requires a + b <= total
    ensures a * k + b * k <= total * k
  {
    assert a * k + b * k == (a + b) * k;
    assert (total - (a + b)) * k >= 0;
  }

  // The same rows, all of them delivered.
  ghost predicate AllDelivered(s: State, t: State) {
    t.rows.Keys == s.rows.Keys && forall e :: e in s.rows ==> t.rows[e].status.Delivered?
  }

  lemma NoWorkAllDelivered(c: Config, s: State, t: State)
    requires Inv(s) && Inv(t) && t.order == s.order && Work(c, t, s.order) == 0
    ensures AllDelivered(s, t)
  {
    WorkBounded(c, t, s.order);
    assert forall e :: e in t.rows <==> e in s.rows;
  }

  // From every reachable state, any one free worker delivers every row within the bound.
  lemma {:induction false} NoDeliveryIsStuck(c: Config, s: State, w: WorkerId)
    requires Reachable(c, s) && Free(s, w) && c.limit >= 1
    ensures exists acts ::
              && CanRun(c, s, acts)
              && (forall a :: a in acts ==> RoundAction(a, w))
              && |acts| <= 2 * |s.order| * (2 * |s.redis| + 9)
              && AllDelivered(s, RunAll(c, s, acts))
  {
    ReachableInv(c, s);
    var acts := Drain(c, s, w);
    RunKeepsInv(c, s, acts);
    NoWorkAllDelivered(c, s, RunAll(c, s, acts));
    WorkBounded(c, s, s.order);
    BoundAdds(Work(c, s, s.order), 0, 2 * |s.order|, RowSteps(|s.redis|) + 3);
  }
}
