/**
 The exception in the relay's replay guarantee, exactly: an attempt about to claim an event that was
 already applied can run its handler again if and only if the claim's key is not yet confirmed. It is
 real for every number of Redis shards: a run applies one event a second time, after a late revert
 of its delivered row and a change of routing epoch.
 */
module RelayReplay {
  import opened Common
  import opened RegionRelay
  import RelayLiveness

  const ADAPTER := Config(true, 1)

  lemma Onward(c: Config, s: State, a: Action)
    requires Reachable(c, s) && Enabled(c, s, a)
    ensures Reachable(c, Apply(c, s, a))
  {
    var s0, acts :| Initial(s0) && CanRun(c, s0, acts) && s == RunAll(c, s0, acts);
    RelayLiveness.OneStep(c, s, a);
    RelayLiveness.RunsCompose(c, s0, acts, [a]);
    assert Apply(c, s, a) == RunAll(c, s0, acts + [a]);
  }

  predicate Claiming(s: State, w: WorkerId, e: EventId) {
    w in s.workers && s.workers[w] == Begin(ADAPTER, [e], []) && Key(s.epoch, e) !in s.proposals
  }

  // Where a worker stands after a fresh claim when no shard answers.
  function AtHandler(s: State, w: WorkerId, e: EventId): State {
    var key := Key(s.epoch, e);
    s.(proposals := s.proposals + {key},
       workers := s.workers[w := Busy([e], AtHandle, Claimed(Confirmed, key), e in s.idem, |s.redis| > 0, [])])
  }

  lemma ClaimReachesHandler(s: State, w: WorkerId, e: EventId)
    requires Reachable(ADAPTER, s) && Claiming(s, w, e)
    ensures Reachable(ADAPTER, AtHandler(s, w, e))
  {
    Onward(ADAPTER, s, Run(w));
    var t := Apply(ADAPTER, s, Run(w));
    if |s.redis| > 0 {
      Onward(ADAPTER, t, Fail(w));
      var u := Apply(ADAPTER, t, Fail(w));
      Onward(ADAPTER, u, Fail(w));
      assert Apply(ADAPTER, u, Fail(w)) == AtHandler(s, w, e);
    } else {
      assert t == AtHandler(s, w, e);
    }
  }

  // The one delivery row, with worker 1 about to revert it and worker 2 in some place.
  function Scene(shards: seq<set<Key>>, row: Row, idem: set<EventId>, proposals: set<Key>, epoch: nat, handled: multiset<EventId>,
                 one: Worker, two: Worker): State {
    State([0], map[0 := row], idem, proposals, shards, epoch, 61, map[1 := one, 2 := two], handled)
  }

  function Reverting(): Worker { Busy([0], AtRevert, NoClaim, false, false, []) }

  lemma OnlyRow(s: State)
    requires s.order == [0] && s.rows == map[0 := Row(Pending, None)]
    ensures Polled(ADAPTER, s, {}) == [0]
  {
    assert s.order[1..] == [];
    assert Claimable([], s.rows, {}) == [];
  }

  ghost predicate NoKeys(shards: seq<set<Key>>) { forall i :: 0 <= i < |shards| ==> shards[i] == {} }

  function Begun(shards: seq<set<Key>>, now: nat, row: Row, workers: map<WorkerId, Worker>): State {
    State([0], map[0 := row], {}, {}, shards, 0, now, workers, multiset{})
  }

  lemma FirstWorkerPolls(shards: seq<set<Key>>)
    requires NoKeys(shards)
    ensures Reachable(ADAPTER, Begun(shards, 0, Row(Processing, Some(0)), map[1 := Begin(ADAPTER, [0], [])]))
  {
    var s0 := State([], map[], {}, {}, shards, 0, 0, map[], multiset{});
    assert Reachable(ADAPTER, s0) by { assert Initial(s0) && CanRun(ADAPTER, s0, []) && RunAll(ADAPTER, s0, []) == s0; }
    Onward(ADAPTER, s0, Insert(0));
    var s1 := Begun(shards, 0, Row(Pending, None), map[]);
    assert Apply(ADAPTER, s0, Insert(0)) == s1;
    OnlyRow(s1);
    Onward(ADAPTER, s1, Poll(1, {}));
    assert Apply(ADAPTER, s1, Poll(1, {})).rows == map[0 := Row(Processing, Some(0))];
  }

  lemma FirstWorkerFails(shards: seq<set<Key>>)
    requires NoKeys(shards)
    ensures Reachable(ADAPTER, Begun(shards, 61, Row(Pending, None), map[1 := Reverting()]))
  {
    FirstWorkerPolls(shards);
    var s2 := Begun(shards, 0, Row(Processing, Some(0)), map[1 := Begin(ADAPTER, [0], [])]);
    Onward(ADAPTER, s2, Fail(1));
    var s3 := Begun(shards, 0, Row(Processing, Some(0)), map[1 := Reverting()]);
    assert Apply(ADAPTER, s2, Fail(1)) == s3;
    Onward(ADAPTER, s3, Tick(61));
    var s4 := Begun(shards, 61, Row(Processing, Some(0)), map[1 := Reverting()]);
    Onward(ADAPTER, s4, Reclaim);
    assert Apply(ADAPTER, s4, Reclaim).rows == map[0 := Row(Pending, None)];
  }

  // Worker 1 polls and fails to claim, the row goes stale, and worker 2 polls it.
  lemma SecondWorkerPolls(shards: seq<set<Key>>)
    requires NoKeys(shards)
    ensures Reachable(ADAPTER, Scene(shards, Row(Processing, Some(61)), {}, {}, 0, multiset{}, Reverting(), Begin(ADAPTER, [0], [])))
  {
    FirstWorkerFails(shards);
    var s5 := Begun(shards, 61, Row(Pending, None), map[1 := Reverting()]);
    OnlyRow(s5);
    Onward(ADAPTER, s5, Poll(2, {}));
    assert Apply(ADAPTER, s5, Poll(2, {})).rows == map[0 := Row(Processing, Some(61))];
  }

  function Second(shards: nat, pc: Pc): Worker {
    Busy([0], pc, Claimed(Confirmed, Key(0, 0)), false, shards > 0, [])
  }

  lemma SecondWorkerHandles(shards: seq<set<Key>>)
    requires NoKeys(shards)
    ensures Reachable(ADAPTER, Scene(shards, Row(Processing, Some(61)), {}, {Key(0, 0)}, 0, multiset{0}, Reverting(),
                                     Second(|shards|, AtCommit)))
  {
    SecondWorkerPolls(shards);
    var s := Scene(shards, Row(Processing, Some(61)), {}, {}, 0, multiset{}, Reverting(), Begin(ADAPTER, [0], []));
    ClaimReachesHandler(s, 2, 0);
    var t := Scene(shards, Row(Processing, Some(61)), {}, {Key(0, 0)}, 0, multiset{}, Reverting(), Second(|shards|, AtHandle));
    assert AtHandler(s, 2, 0) == t;
    Onward(ADAPTER, t, Run(2));
    assert Apply(ADAPTER, t, Run(2)).handled == multiset{0};
  }

  lemma SecondWorkerDelivers(shards: seq<set<Key>>)
    requires NoKeys(shards)
    ensures Reachable(ADAPTER, Scene(shards, Row(Delivered, None), {0}, {Key(0, 0)}, 0, multiset{0}, Reverting(), Idle([0])))
  {
    SecondWorkerHandles(shards);
    var b := Second(|shards|, AtCommit);
    var u := Scene(shards, Row(Processing, Some(61)), {}, {Key(0, 0)}, 0, multiset{0}, Reverting(), b);
    Onward(ADAPTER, u, Run(2));
    assert [0][1..] == [];
    assert OnSuccess(ADAPTER, u, b) == Idle([0]);
    assert Apply(ADAPTER, u, Run(2)).rows == map[0 := Row(Delivered, None)];
  }

  // Worker 2 applies the event, then worker 1's late revert takes the row back to PENDING.
  lemma LateRevert(shards: seq<set<Key>>)
    requires NoKeys(shards)
    ensures Reachable(ADAPTER, Scene(shards, Row(Pending, None), {0}, {Key(0, 0)}, 0, multiset{0}, Idle([]), Idle([0])))
  {
    SecondWorkerDelivers(shards);
    var v := Scene(shards, Row(Delivered, None), {0}, {Key(0, 0)}, 0, multiset{0}, Reverting(), Idle([0]));
    Onward(ADAPTER, v, Run(1));
    assert [0][1..] == [];
    assert Apply(ADAPTER, v, Run(1)) == Scene(shards, Row(Pending, None), {0}, {Key(0, 0)}, 0, multiset{0}, Idle([]), Idle([0]));
  }

  // A state about to replay, and the replay: the event was applied once, in an earlier attempt; the
  // attempt at the handler began after that, under a claim it confirmed itself; its next statement
  // runs the handler again.
  lemma HandlerMayRunTwice(shards: seq<set<Key>>) returns (s: State, t: State)
    requires NoKeys(shards)
    ensures Reachable(ADAPTER, s) && s.redis == shards && s.handled[0] == 1 && 0 in s.idem && BusyAt(s, 2)
    ensures var b := s.workers[2];
            b.batch == [0] && b.pc == AtHandle && b.appliedBefore && b.claim == Claimed(Confirmed, Key(1, 0))
    ensures t == Apply(ADAPTER, s, Run(2)) && Reachable(ADAPTER, t) && t.handled[0] == 2
  {
    LateRevert(shards);
    var a := Scene(shards, Row(Pending, None), {0}, {Key(0, 0)}, 0, multiset{0}, Idle([]), Idle([0]));
    Onward(ADAPTER, a, SetEpoch(1));
    var b := a.(epoch := 1);
    OnlyRow(b);
    Onward(ADAPTER, b, Poll(2, {}));
    var d := Apply(ADAPTER, b, Poll(2, {}));
    ClaimReachesHandler(d, 2, 0);
    s := AtHandler(d, 2, 0);
    Onward(ADAPTER, s, Run(2));
    t := Apply(ADAPTER, s, Run(2));
  }

  // ---------------------------------------------------------------- when an attempt can replay

  // The worker is at its handler, in the attempt on the first row of `batch`.
  predicate Handling(s: State, w: WorkerId, batch: seq<EventId>) {
    w in s.workers && s.workers[w].Busy? && s.workers[w].pc.AtHandle? && s.workers[w].batch == batch
  }

  // Steps of the worker alone, answered or not, take its current attempt to the handler.
  ghost predicate MayHandle(c: Config, s: State, w: WorkerId)
    requires BusyAt(s, w)
  {
    exists acts :: CanRun(c, s, acts) && (forall a :: a in acts ==> OwnStep(a, w))
                   && Handling(RunAll(c, s, acts), w, s.workers[w].batch)
  }

  lemma TwoSteps(c: Config, s: State, a: Action, b: Action)
    requires Enabled(c, s, a) && Enabled(c, Apply(c, s, a), b)
    ensures CanRun(c, s, [a, b]) && RunAll(c, s, [a, b]) == Apply(c, Apply(c, s, a), b)
  {
    RelayLiveness.OneStep(c, Apply(c, s, a), b);
    assert [a, b][1..] == [b];
  }

  lemma FreshClaimMayHandle(c: Config, s: State, w: WorkerId)
    requires BusyAt(s, w) && s.workers[w].pc.AtClaim? && Key(s.epoch, s.workers[w].batch[0]) !in s.proposals
    ensures MayHandle(c, s, w)
  {
    var t := Apply(c, s, Run(w));
    RelayLiveness.OneStep(c, s, Run(w));
    if |s.redis| == 0 {
      assert Handling(RunAll(c, s, [Run(w)]), w, s.workers[w].batch);
    } else {
      TwoSteps(c, t, Fail(w), Fail(w));
      RelayLiveness.RunsCompose(c, s, [Run(w)], [Fail(w), Fail(w)]);
      assert Handling(RunAll(c, s, [Run(w)] + [Fail(w), Fail(w)]), w, s.workers[w].batch);
    }
  }

  // The attempt on the first row of `batch` is over, or can only mark or revert the row.
  predicate NoHandler(s: State, w: WorkerId, batch: seq<EventId>)
    requires batch != []
  {
    w in s.workers && (s.workers[w].Busy? ==>
      var b := s.workers[w];
      || |b.batch| < |batch|
      || (&& b.batch == batch && batch[0] in s.idem
          && (b.pc.AtMark? || b.pc.AtRevert? || b.pc == AtCheck(AfterClaim)
              || (b.pc.AtClaim? && Key(s.epoch, batch[0]) in s.proposals))))
  }

  lemma OwnStepKeepsNoHandler(c: Config, s: State, a: Action, w: WorkerId, batch: seq<EventId>)
    requires batch != [] && NoHandler(s, w, batch) && Enabled(c, s, a) && OwnStep(a, w)
    ensures NoHandler(Apply(c, s, a), w, batch)
  {
    var b := s.workers[w];
    match b.pc
    case AtClaim =>
    case AtCheck(_) =>
    case AtSetNX(_, _, _) =>
    case AtHandle =>
    case AtCommit =>
    case AtMark =>
    case AtRevert =>
  }

  lemma {:induction false} RunKeepsNoHandler(c: Config, s: State, acts: seq<Action>, w: WorkerId, batch: seq<EventId>)
    requires batch != [] && NoHandler(s, w, batch) && CanRun(c, s, acts) && forall a :: a in acts ==> OwnStep(a, w)
    ensures NoHandler(RunAll(c, s, acts), w, batch)
    decreases |acts|
  {
    if acts != [] {
      OwnStepKeepsNoHandler(c, s, acts[0], w, batch);
      RunKeepsNoHandler(c, Apply(c, s, acts[0]), acts[1..], w, batch);
    }
  }

  // Exactly when an attempt about to claim an applied event can still reach its handler.
  lemma ReplayPossibleIff(c: Config, s: State, w: WorkerId)
    requires BusyAt(s, w) && s.workers[w].pc.AtClaim? && s.workers[w].batch[0] in s.idem
    ensures MayHandle(c, s, w) <==> Key(s.epoch, s.workers[w].batch[0]) !in s.proposals
  {
    var batch := s.workers[w].batch;
    if Key(s.epoch, batch[0]) !in s.proposals {
      FreshClaimMayHandle(c, s, w);
    } else {
      forall acts | CanRun(c, s, acts) && forall a :: a in acts ==> OwnStep(a, w)
        ensures !Handling(RunAll(c, s, acts), w, batch)
      {
        RunKeepsNoHandler(c, s, acts, w, batch);
      }
    }
  }
}
