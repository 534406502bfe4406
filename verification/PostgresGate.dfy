/**
 The two-class admission gate in front of Postgres: a counting semaphore `sem`, a second
 channel `low` of slots for low-priority callers, and an atomic `inFlight` counter. Every
 channel operation and every counter update is one atomic step of one thread.
 */
module PostgresGate {

  const RESERVE := 1

  function AtLeast(x: int, lo: int): int { if x < lo then lo else x }

  // Channel capacities computed by the constructor.
  function Capacity(maxConns: int): (cap: nat)
    ensures cap >= 2
  {
    AtLeast(maxConns - RESERVE, 2)
  }

  function LowCapacity(maxConns: int): (cap: nat)
    ensures 1 <= cap < Capacity(maxConns)
  {
    AtLeast(Capacity(maxConns) - 1, 1)
  }

  // Where a thread is inside the gate, named by what it did last.
  datatype Pc =
    | Out
    | HighWaiting  // in the select of AcquireHigh
    | HighTook     // sent to sem, counter not yet raised
    | HighHolds
    | HighLowered  // counter lowered, sem not yet received from
    | LowWaiting   // holds a low slot, in the second select of AcquireLow
    | LowGaveUp    // context done, low slot not yet returned
    | LowTook
    | LowHolds
    | LowLowered
    | LowFreedSem  // sem received from, low slot not yet returned

  datatype Action =
    | HighCall(t: nat) | HighCancel(t: nat) | HighSend(t: nat) | HighCount(t: nat)
    | HighUncount(t: nat) | HighReceive(t: nat)
    | LowSlot(t: nat) | LowReject(t: nat) | LowCancelEarly(t: nat)
    | LowSend(t: nat) | LowCancel(t: nat) | LowReturnSlot(t: nat) | LowCount(t: nat)
    | LowUncount(t: nat) | LowReceive(t: nat) | LowFreeSlot(t: nat)

  datatype State = State(capacity: nat, lowCapacity: nat, sem: int, low: int, inFlight: int, threads: seq<Pc>)

  predicate HasSem(p: Pc) { p in {HighTook, HighHolds, HighLowered, LowTook, LowHolds, LowLowered} }
  predicate HasHighSem(p: Pc) { p in {HighTook, HighHolds, HighLowered} }
  predicate HasLowSem(p: Pc) { p in {LowTook, LowHolds, LowLowered} }
  predicate HasSlot(p: Pc) { p in {LowWaiting, LowGaveUp, LowTook, LowHolds, LowLowered, LowFreedSem} }
  predicate IsCounted(p: Pc) { p in {HighHolds, LowHolds} }

  // The place an action starts from; sending and receiving also need room or an item.
  function From(a: Action): Pc {
    match a
    case HighCall(_) => Out
    case HighCancel(_) => HighWaiting
    case HighSend(_) => HighWaiting
    case HighCount(_) => HighTook
    case HighUncount(_) => HighHolds
    case HighReceive(_) => HighLowered
    case LowSlot(_) => Out
    case LowReject(_) => Out
    case LowCancelEarly(_) => Out
    case LowSend(_) => LowWaiting
    case LowCancel(_) => LowWaiting
    case LowReturnSlot(_) => LowGaveUp
    case LowCount(_) => LowTook
    case LowUncount(_) => LowHolds
    case LowReceive(_) => LowLowered
    case LowFreeSlot(_) => LowFreedSem
  }

  predicate Enabled(s: State, a: Action) {
    && a.t < |s.threads|
    && s.threads[a.t] == From(a)
    && (a.HighSend? || a.LowSend? ==> s.sem < s.capacity)
    && (a.HighReceive? || a.LowReceive? ==> s.sem > 0)
    && (a.LowSlot? ==> s.low < s.lowCapacity)
    && (a.LowReject? ==> s.low >= s.lowCapacity) // default is taken only when the send would block
    && (a.LowReturnSlot? || a.LowFreeSlot? ==> s.low > 0)
  }

  function Apply(s: State, a: Action): State
    requires Enabled(s, a)
  {
    var at := (p: Pc) => s.(threads := s.threads[a.t := p]);
    match a
    case HighCall(_) => at(HighWaiting)
    case HighCancel(_) => at(Out)
    case HighSend(_) => at(HighTook).(sem := s.sem + 1)
    case HighCount(_) => at(HighHolds).(inFlight := s.inFlight + 1)
    case HighUncount(_) => at(HighLowered).(inFlight := s.inFlight - 1)
    case HighReceive(_) => at(Out).(sem := s.sem - 1)
    case LowSlot(_) => at(LowWaiting).(low := s.low + 1)
    case LowReject(_) => at(Out)
    case LowCancelEarly(_) => at(Out)
    case LowSend(_) => at(LowTook).(sem := s.sem + 1)
    case LowCancel(_) => at(LowGaveUp)
    case LowReturnSlot(_) => at(Out).(low := s.low - 1)
    case LowCount(_) => at(LowHolds).(inFlight := s.inFlight + 1)
    case LowUncount(_) => at(LowLowered).(inFlight := s.inFlight - 1)
    case LowReceive(_) => at(LowFreedSem).(sem := s.sem - 1)
    case LowFreeSlot(_) => at(Out).(low := s.low - 1)
  }

  ghost predicate CanRun(s: State, acts: seq<Action>)
    decreases |acts|
  {
    acts == [] || (Enabled(s, acts[0]) && CanRun(Apply(s, acts[0]), acts[1..]))
  }

  ghost function RunAll(s: State, acts: seq<Action>): State
    requires CanRun(s, acts)
    decreases |acts|
  {
    if acts == [] then s else RunAll(Apply(s, acts[0]), acts[1..])
  }

  ghost predicate Initial(maxConns: int, s: State) {
    && s.capacity == Capacity(maxConns) && s.lowCapacity == LowCapacity(maxConns)
    && s.sem == 0 && s.low == 0 && s.inFlight == 0
    && forall t :: 0 <= t < |s.threads| ==> s.threads[t] == Out
  }

  ghost predicate Reachable(maxConns: int, s: State) {
    exists s0, acts :: Initial(maxConns, s0) && CanRun(s0, acts) && s == RunAll(s0, acts)
  }

  // ---------------------------------------------------------------- counting threads

  function Count(threads: seq<Pc>, p: Pc -> bool): nat {
    if threads == [] then 0 else (if p(threads[0]) then 1 else 0) + Count(threads[1..], p)
  }

  lemma {:induction false} CountUpdate(threads: seq<Pc>, t: nat, q: Pc, p: Pc -> bool)
    requires t < |threads|
    ensures Count(threads[t := q], p) ==
            Count(threads, p) + (if p(q) then 1 else 0) - (if p(threads[t]) then 1 else 0)
  {
    if t > 0 {
      CountUpdate(threads[1..], t - 1, q, p);
      assert threads[t := q][1..] == threads[1..][t - 1 := q];
    } else {
      assert threads[t := q][1..] == threads[1..];
    }
  }

  lemma {:induction false} CountWitness(threads: seq<Pc>, p: Pc -> bool)
    ensures Count(threads, p) > 0 ==> exists t :: 0 <= t < |threads| && p(threads[t])
    ensures Count(threads, p) == 0 ==> forall t :: 0 <= t < |threads| ==> !p(threads[t])
  {
    if threads != [] {
      CountWitness(threads[1..], p);
      if Count(threads[1..], p) > 0 {
        var t :| 0 <= t < |threads| - 1 && p(threads[1..][t]);
        assert p(threads[t + 1]);
      }
      forall t | Count(threads, p) == 0 && 0 <= t < |threads| ensures !p(threads[t]) {
        if t > 0 { assert threads[t] == threads[1..][t - 1]; }
      }
    }
  }

  lemma {:induction false} CountNone(threads: seq<Pc>, p: Pc -> bool)
    requires forall t :: 0 <= t < |threads| ==> !p(threads[t])
    ensures Count(threads, p) == 0
  {
    if threads != [] { CountNone(threads[1..], p); }
  }

  lemma {:induction false} CountSplit(threads: seq<Pc>)
    ensures Count(threads, HasSem) == Count(threads, HasHighSem) + Count(threads, HasLowSem)
    ensures Count(threads, HasLowSem) <= Count(threads, HasSlot)
    ensures Count(threads, IsCounted) <= Count(threads, HasSem)
  {
    if threads != [] { CountSplit(threads[1..]); }
  }

  // ---------------------------------------------------------------- the invariant

  // Each counter is the number of threads standing where it has been raised.
  ghost predicate Inv(s: State) {
    && 1 <= s.lowCapacity < s.capacity
    && s.sem == Count(s.threads, HasSem) <= s.capacity
    && s.low == Count(s.threads, HasSlot) <= s.lowCapacity
    && s.inFlight == Count(s.threads, IsCounted)
  }

  function Bit(b: bool): int { if b then 1 else 0 }

  // A step moves one thread, and each counter by what that thread takes or gives back.
  lemma StepMoves(s: State, a: Action)
    requires Enabled(s, a)
    ensures var t, p := Apply(s, a), s.threads[a.t];
            && |t.threads| == |s.threads| && t.threads == s.threads[a.t := t.threads[a.t]]
            && t.capacity == s.capacity && t.lowCapacity == s.lowCapacity
            && t.sem == s.sem + Bit(HasSem(t.threads[a.t])) - Bit(HasSem(p))
            && t.low == s.low + Bit(HasSlot(t.threads[a.t])) - Bit(HasSlot(p))
            && t.inFlight == s.inFlight + Bit(IsCounted(t.threads[a.t])) - Bit(IsCounted(p))
            && (t.sem > s.sem ==> s.sem < s.capacity) && (t.low > s.low ==> s.low < s.lowCapacity)
  {
  }

  lemma StepKeepsInv(s: State, a: Action)
    requires Inv(s) && Enabled(s, a)
    ensures Inv(Apply(s, a))
  {
    StepMoves(s, a);
    var q := Apply(s, a).threads[a.t];
    CountUpdate(s.threads, a.t, q, HasSem);
    CountUpdate(s.threads, a.t, q, HasSlot);
    CountUpdate(s.threads, a.t, q, IsCounted);
  }

  lemma {:induction false} RunKeepsInv(s: State, acts: seq<Action>)
    requires Inv(s) && CanRun(s, acts)
    ensures Inv(RunAll(s, acts))
    decreases |acts|
  {
    if acts != [] {
      StepKeepsInv(s, acts[0]);
      RunKeepsInv(Apply(s, acts[0]), acts[1..]);
    }
  }

  lemma ReachableInv(maxConns: int, s: State)
    requires Reachable(maxConns, s)
    ensures Inv(s)
  {
    var s0, acts :| Initial(maxConns, s0) && CanRun(s0, acts) && s == RunAll(s0, acts);
    CountNone(s0.threads, HasSem);
    CountNone(s0.threads, HasSlot);
    CountNone(s0.threads, IsCounted);
    RunKeepsInv(s0, acts);
  }

  // The counters are ordered, low callers never fill the semaphore, and a full semaphore means
  // that a high caller is inside.
  lemma CountersOrdered(maxConns: int, s: State)
    requires Reachable(maxConns, s)
    ensures 0 <= s.inFlight <= s.sem <= s.capacity
    ensures Count(s.threads, HasLowSem) <= s.low <= s.capacity - 1
    ensures s.sem == s.capacity ==> exists t :: 0 <= t < |s.threads| && HasHighSem(s.threads[t])
    ensures (forall t :: 0 <= t < |s.threads| ==> s.threads[t] == Out) ==>
              s.sem == 0 && s.low == 0 && s.inFlight == 0
  {
    ReachableInv(maxConns, s);
    CountSplit(s.threads);
    CountWitness(s.threads, HasHighSem);
    if forall t :: 0 <= t < |s.threads| ==> s.threads[t] == Out {
      CountNone(s.threads, HasSem);
      CountNone(s.threads, HasSlot);
      CountNone(s.threads, IsCounted);
    }
  }

  // The step a thread inside the gate can always take; only the two waits may block.
  function OwnStep(p: Pc, t: nat): Action
    requires p != Out && p != HighWaiting && p != LowWaiting
  {
    match p
    case HighTook => HighCount(t)
    case HighHolds => HighUncount(t)
    case HighLowered => HighReceive(t)
    case LowGaveUp => LowReturnSlot(t)
    case LowTook => LowCount(t)
    case LowHolds => LowUncount(t)
    case LowLowered => LowReceive(t)
    case LowFreedSem => LowFreeSlot(t)
  }

  lemma {:induction false} Counted(threads: seq<Pc>, t: nat, p: Pc -> bool)
    requires t < |threads| && p(threads[t])
    ensures Count(threads, p) > 0
  {
    if t > 0 { Counted(threads[1..], t - 1, p); }
  }

  // No release ever blocks: every receive of a reachable state finds an item.
  lemma ReleaseNeverBlocks(maxConns: int, s: State, t: nat)
    requires Reachable(maxConns, s) && t < |s.threads|
    requires s.threads[t] != Out && s.threads[t] != HighWaiting && s.threads[t] != LowWaiting
    ensures Enabled(s, OwnStep(s.threads[t], t))
  {
    ReachableInv(maxConns, s);
    OwnStepEnabled(s, t);
  }

  // A caller blocked on a full semaphore is waiting for a holder that can take its next step.
  lemma BlockedCallerHasLiveHolder(maxConns: int, s: State, t: nat)
    requires Reachable(maxConns, s) && t < |s.threads| && s.sem == s.capacity
    requires s.threads[t] == HighWaiting || s.threads[t] == LowWaiting
    ensures exists u :: 0 <= u < |s.threads| && HasHighSem(s.threads[u]) && Enabled(s, OwnStep(s.threads[u], u))
  {
    CountersOrdered(maxConns, s);
    var u :| 0 <= u < |s.threads| && HasHighSem(s.threads[u]);
    ReleaseNeverBlocks(maxConns, s, u);
  }

  lemma OwnStepEnabled(s: State, t: nat)
    requires Inv(s) && t < |s.threads|
    requires s.threads[t] != Out && s.threads[t] != HighWaiting && s.threads[t] != LowWaiting
    ensures Enabled(s, OwnStep(s.threads[t], t))
  {
    if HasSem(s.threads[t]) { Counted(s.threads, t, HasSem); }
    if HasSlot(s.threads[t]) { Counted(s.threads, t, HasSlot); }
  }

  // ---------------------------------------------------------------- the selects

  // A waiting caller is admitted exactly when the semaphore has room and may give up at any time;
  // giving up takes it out, a low one with its slot returned.
  lemma WaitingMoves(s: State, t: nat)
    requires Inv(s) && t < |s.threads| && (s.threads[t] == HighWaiting || s.threads[t] == LowWaiting)
    ensures s.threads[t] == HighWaiting ==>
              && (Enabled(s, HighSend(t)) <==> s.sem < s.capacity)
              && Enabled(s, HighCancel(t)) && Apply(s, HighCancel(t)) == s.(threads := s.threads[t := Out])
    ensures s.threads[t] == LowWaiting ==>
              && (Enabled(s, LowSend(t)) <==> s.sem < s.capacity)
              && Enabled(s, LowCancel(t)) && Apply(s, LowCancel(t)) == s.(threads := s.threads[t := LowGaveUp])
              && Enabled(Apply(s, LowCancel(t)), LowReturnSlot(t))
              && Apply(Apply(s, LowCancel(t)), LowReturnSlot(t)) == s.(threads := s.threads[t := Out], low := s.low - 1)
  {
    if s.threads[t] == LowWaiting { Counted(s.threads, t, HasSlot); }
  }

  // A low caller gets a slot exactly when there is one, and is turned away exactly when there is none.
  lemma LowCallMoves(s: State, t: nat)
    requires t < |s.threads| && s.threads[t] == Out
    ensures Enabled(s, LowSlot(t)) <==> s.low < s.lowCapacity
    ensures Enabled(s, LowReject(t)) <==> !Enabled(s, LowSlot(t))
    ensures Enabled(s, LowReject(t)) ==> Apply(s, LowReject(t)) == s
    ensures Enabled(s, LowCancelEarly(t)) && Apply(s, LowCancelEarly(t)) == s && Enabled(s, HighCall(t))
  {
    assert s.threads[t := Out] == s.threads;
  }

  // ---------------------------------------------------------------- progress

  // Steps a thread needs to leave the gate.
  function Left(p: Pc): nat {
    match p
    case Out => 0
    case HighWaiting => 4
    case HighTook => 3
    case HighHolds => 2
    case HighLowered => 1
    case LowWaiting => 5
    case LowTook => 4
    case LowHolds => 3
    case LowLowered => 2
    case LowFreedSem => 1
    case LowGaveUp => 1
  }

  function AllLeft(threads: seq<Pc>): nat {
    if threads == [] then 0 else Left(threads[0]) + AllLeft(threads[1..])
  }

  lemma {:induction false} LeftUpdate(threads: seq<Pc>, t: nat, q: Pc)
    requires t < |threads|
    ensures AllLeft(threads[t := q]) == AllLeft(threads) + Left(q) - Left(threads[t])
  {
    if t > 0 {
      LeftUpdate(threads[1..], t - 1, q);
      assert threads[t := q][1..] == threads[1..][t - 1 := q];
    } else {
      assert threads[t := q][1..] == threads[1..];
    }
  }

  lemma {:induction false} LeftZero(threads: seq<Pc>)
    ensures AllLeft(threads) == 0 <==> forall t :: 0 <= t < |threads| ==> threads[t] == Out
  {
    if threads != [] {
      LeftZero(threads[1..]);
      assert forall t :: 0 <= t < |threads[1..]| ==> threads[1..][t] == threads[t + 1];
      if forall t :: 0 <= t < |threads[1..]| ==> threads[1..][t] == Out {
        assert forall t :: 0 < t < |threads| ==> threads[t] == threads[1..][t - 1];
      }
    }
  }

  // Serving steps: no caller gives up and no new caller arrives.
  predicate Serves(a: Action) {
    !a.HighCall? && !a.HighCancel? && !a.LowSlot? && !a.LowReject? && !a.LowCancelEarly? && !a.LowCancel?
  }

  lemma OwnStepLeaves(s: State, t: nat)
    requires Inv(s) && t < |s.threads|
    requires s.threads[t] != Out && s.threads[t] != HighWaiting && s.threads[t] != LowWaiting
    ensures var a := OwnStep(s.threads[t], t);
            Serves(a) && Enabled(s, a) && AllLeft(Apply(s, a).threads) == AllLeft(s.threads) - 1
  {
    OwnStepEnabled(s, t);
    LeftUpdate(s.threads, t, Apply(s, OwnStep(s.threads[t], t)).threads[t]);
  }

  // Some serving step is enabled as long as a thread is inside or waiting.
  lemma ServingStep(s: State) returns (a: Action)
    requires Inv(s) && AllLeft(s.threads) > 0
    ensures Serves(a) && Enabled(s, a) && AllLeft(Apply(s, a).threads) == AllLeft(s.threads) - 1
  {
    LeftZero(s.threads);
    var t :| 0 <= t < |s.threads| && s.threads[t] != Out;
    if s.threads[t] != HighWaiting && s.threads[t] != LowWaiting {
      a := OwnStep(s.threads[t], t);
      OwnStepLeaves(s, t);
    } else if s.sem < s.capacity {
      a := if s.threads[t] == HighWaiting then HighSend(t) else LowSend(t);
      LeftUpdate(s.threads, t, if s.threads[t] == HighWaiting then HighTook else LowTook);
    } else {
      CountWitness(s.threads, HasSem);
      var u :| 0 <= u < |s.threads| && HasSem(s.threads[u]);
      a := OwnStep(s.threads[u], u);
      OwnStepLeaves(s, u);
    }
  }

  // Every serving step, whichever it is, brings its caller one step nearer to leaving.
  lemma ServingStepLeaves(s: State, a: Action)
    requires Enabled(s, a) && Serves(a)
    ensures AllLeft(Apply(s, a).threads) == AllLeft(s.threads) - 1
  {
    LeftUpdate(s.threads, a.t, Apply(s, a).threads[a.t]);
  }

  lemma {:induction false} ServingRunLeaves(s: State, acts: seq<Action>)
    requires CanRun(s, acts) && forall a :: a in acts ==> Serves(a)
    ensures |acts| + AllLeft(RunAll(s, acts).threads) == AllLeft(s.threads)
    decreases |acts|
  {
    if acts != [] {
      ServingStepLeaves(s, acts[0]);
      ServingRunLeaves(Apply(s, acts[0]), acts[1..]);
    }
  }

  // Every schedule serves everybody, with no fairness: from every reachable state, a run of serving
  // steps is as long as the steps all callers need at most, and one that no serving step extends
  // has everybody out and all three counters at zero.
  lemma EveryScheduleServes(maxConns: int, s: State, acts: seq<Action>)
    requires Reachable(maxConns, s) && CanRun(s, acts) && forall a :: a in acts ==> Serves(a)
    ensures var t := RunAll(s, acts);
            && |acts| + AllLeft(t.threads) == AllLeft(s.threads)
            && (|acts| == AllLeft(s.threads) || exists a :: Serves(a) && Enabled(t, a))
            && (|acts| == AllLeft(s.threads) ==>
                  && (forall i :: 0 <= i < |t.threads| ==> t.threads[i] == Out)
                  && t.sem == 0 && t.low == 0 && t.inFlight == 0)
  {
    ReachableInv(maxConns, s);
    RunKeepsInv(s, acts);
    ServingRunLeaves(s, acts);
    var t := RunAll(s, acts);
    if AllLeft(t.threads) > 0 {
      var a := ServingStep(t);
    } else {
      LeftZero(t.threads);
      CountNone(t.threads, HasSem);
      CountNone(t.threads, HasSlot);
      CountNone(t.threads, IsCounted);
    }
  }

  // ---------------------------------------------------------------- how many are admitted

  ghost predicate Leads(s: State, acts: seq<Action>, t: State) {
    CanRun(s, acts) && RunAll(s, acts) == t
  }

  lemma {:induction false} LeadsOn(s: State, acts: seq<Action>, t: State, a: Action)
    requires Leads(s, acts, t) && Enabled(t, a)
    ensures Leads(s, acts + [a], Apply(t, a))
    decreases |acts|
  {
    if acts == [] {
      assert [a][1..] == [];
    } else {
      LeadsOn(Apply(s, acts[0]), acts[1..], t, a);
      assert (acts + [a])[1..] == acts[1..] + [a];
    }
  }

  lemma Onward(maxConns: int, s: State, a: Action, t: State)
    requires Reachable(maxConns, s) && Enabled(s, a) && t == Apply(s, a)
    ensures Reachable(maxConns, t)
  {
    var s0, acts :| Initial(maxConns, s0) && CanRun(s0, acts) && s == RunAll(s0, acts);
    LeadsOn(s0, acts, s, a);
  }

  // The first `i` of `n` callers are inside, those below `high` as high ones; caller `i` is at `p`.
  function Filled(maxConns: int, n: nat, high: nat, i: nat, p: Pc): State {
    State(Capacity(maxConns), LowCapacity(maxConns), i + Bit(HasSem(p)),
          (if i <= high then 0 else i - high) + Bit(HasSlot(p)), i + Bit(IsCounted(p)),
          seq(n, k => if k < i then (if k < high then HighHolds else LowHolds) else if k == i then p else Out))
  }

  // The steps of a caller on its way in, and where each leads.
  predicate WayIn(a: Action, p: Pc) {
    match a
    case HighCall(_) => p == HighWaiting
    case HighSend(_) => p == HighTook
    case HighCount(_) => p == HighHolds
    case LowSlot(_) => p == LowWaiting
    case LowSend(_) => p == LowTook
    case LowCount(_) => p == LowHolds
    case _ => false
  }

  lemma Advance(maxConns: int, n: nat, high: nat, i: nat, a: Action, p: Pc)
    requires i < n && i < Capacity(maxConns) && (i >= high ==> i - high < LowCapacity(maxConns))
    requires a.t == i && WayIn(a, p) && Reachable(maxConns, Filled(maxConns, n, high, i, From(a)))
    ensures Reachable(maxConns, Filled(maxConns, n, high, i, p))
  {
    var s := Filled(maxConns, n, high, i, From(a));
    assert s.threads[i] == From(a) && Enabled(s, a);
    var t := Apply(s, a);
    assert t.threads[i] == p;
    StepMoves(s, a);
    assert t.threads == Filled(maxConns, n, high, i, p).threads;
    Onward(maxConns, s, a, t);
  }

  lemma AdmitNext(maxConns: int, n: nat, high: nat, i: nat)
    requires i < n && i < Capacity(maxConns) && (i >= high ==> i - high < LowCapacity(maxConns))
    requires Reachable(maxConns, Filled(maxConns, n, high, i, Out))
    ensures Reachable(maxConns, Filled(maxConns, n, high, i, if i < high then HighHolds else LowHolds))
  {
    if i < high {
      Advance(maxConns, n, high, i, HighCall(i), HighWaiting);
      Advance(maxConns, n, high, i, HighSend(i), HighTook);
      Advance(maxConns, n, high, i, HighCount(i), HighHolds);
    } else {
      Advance(maxConns, n, high, i, LowSlot(i), LowWaiting);
      Advance(maxConns, n, high, i, LowSend(i), LowTook);
      Advance(maxConns, n, high, i, LowCount(i), LowHolds);
    }
  }

  lemma OneMoreInside(maxConns: int, n: nat, high: nat, i: nat)
    requires i < n
    ensures Filled(maxConns, n, high, i, if i < high then HighHolds else LowHolds) == Filled(maxConns, n, high, i + 1, Out)
  {
    assert Filled(maxConns, n, high, i, if i < high then HighHolds else LowHolds).threads == Filled(maxConns, n, high, i + 1, Out).threads;
  }

  lemma {:induction false} FillUp(maxConns: int, n: nat, high: nat, i: nat)
    requires i <= n <= Capacity(maxConns) && (i >= high ==> i - high <= LowCapacity(maxConns))
    ensures Reachable(maxConns, Filled(maxConns, n, high, i, Out))
  {
    if i == 0 {
      var s := Filled(maxConns, n, high, 0, Out);
      assert Initial(maxConns, s) && CanRun(s, []) && RunAll(s, []) == s;
    } else {
      FillUp(maxConns, n, high, i - 1);
      AdmitNext(maxConns, n, high, i - 1);
      OneMoreInside(maxConns, n, high, i - 1);
    }
  }

  lemma {:induction false} CapacityKept(s: State, acts: seq<Action>)
    requires CanRun(s, acts)
    ensures RunAll(s, acts).capacity == s.capacity && RunAll(s, acts).lowCapacity == s.lowCapacity
    decreases |acts|
  {
    if acts != [] { CapacityKept(Apply(s, acts[0]), acts[1..]); }
  }

  // How many callers a gate for `maxConns` connections holds at once.
  function Places(maxConns: int): nat { if maxConns < 3 then 2 else maxConns - 1 }

  predicate Holding(p: Pc, high: bool) { p == if high then HighHolds else LowHolds }

  lemma {:induction false} CountPlaces(threads: seq<Pc>, high: nat)
    requires high <= |threads| && forall k :: 0 <= k < |threads| ==> Holding(threads[k], k < high)
    ensures Count(threads, IsCounted) == |threads| && Count(threads, HasSlot) == |threads| - high
    decreases |threads|
  {
    if threads != [] {
      assert forall k :: 0 <= k < |threads| - 1 ==> threads[1..][k] == threads[k + 1] && Holding(threads[k + 1], k + 1 < high);
      CountPlaces(threads[1..], if high == 0 then 0 else high - 1);
    }
  }

  // Exactly which mixes of callers can be inside together: `high` high and `low` low ones if and
  // only if they are at most maxConns - 1 in all, or two where that is less, and the low ones
  // leave a place.
  lemma AdmittedTogetherIff(maxConns: int, high: nat, low: nat)
    ensures (exists s :: Reachable(maxConns, s) && |s.threads| == high + low
               && forall k :: 0 <= k < |s.threads| ==> Holding(s.threads[k], k < high))
            <==> high + low <= Places(maxConns) && low <= Places(maxConns) - 1
  {
    if high + low <= Places(maxConns) && low <= Places(maxConns) - 1 {
      FillUp(maxConns, high + low, high, high + low);
      var s := Filled(maxConns, high + low, high, high + low, Out);
      assert forall k :: 0 <= k < |s.threads| ==> Holding(s.threads[k], k < high);
    }
    forall s | Reachable(maxConns, s) && |s.threads| == high + low
               && forall k :: 0 <= k < |s.threads| ==> Holding(s.threads[k], k < high)
      ensures high + low <= Places(maxConns) && low <= Places(maxConns) - 1
    {
      FullPlaces(maxConns, s, high);
    }
  }

  lemma FullPlaces(maxConns: int, s: State, high: nat)
    requires Reachable(maxConns, s) && high <= |s.threads|
    requires forall k :: 0 <= k < |s.threads| ==> Holding(s.threads[k], k < high)
    ensures |s.threads| <= Places(maxConns) && |s.threads| - high <= Places(maxConns) - 1
  {
    var s0, acts :| Initial(maxConns, s0) && CanRun(s0, acts) && s == RunAll(s0, acts);
    CapacityKept(s0, acts);
    ReachableInv(maxConns, s);
    CountersOrdered(maxConns, s);
    CountPlaces(s.threads, high);
  }

  // ---------------------------------------------------------------- the object

  datatype Acquired = Admitted | Rejected | Cancelled | Waiting

  /**
   The gate object. `threads` and `log` are ghost: where each caller stands, and the atomic
   steps taken since construction. Valid says that the fields are exactly what those steps
   lead to, so everything proved of reachable states holds of the object. A method runs its
   steps with no other caller in between, up to a select that has to wait, which the caller enters
   again later; the runs above are all interleavings.
   `cancelled` says whether the caller's context is done.
   */
  class Gate {
    const capacity: nat
    const lowCapacity: nat
    var sem: int
    var low: int
    var inFlight: int
    ghost const start: State
    ghost var threads: seq<Pc>
    ghost var log: seq<Action>

    ghost function Snapshot(): State
      reads this
    {
      State(capacity, lowCapacity, sem, low, inFlight, threads)
    }

    ghost predicate Valid()
      reads this
    {
      Inv(Snapshot()) && Leads(start, log, Snapshot())
    }

    constructor (maxConns: int, ghost callers: nat)
      ensures Valid() && Initial(maxConns, start) && log == [] && |threads| == callers
    {
      capacity, lowCapacity := Capacity(maxConns), LowCapacity(maxConns);
      sem, low, inFlight := 0, 0, 0;
      threads, log := seq(callers, _ => Out), [];
      start := State(Capacity(maxConns), LowCapacity(maxConns), 0, 0, 0, seq(callers, _ => Out));
      new;
      CountNone(threads, HasSem);
      CountNone(threads, HasSlot);
      CountNone(threads, IsCounted);
    }

    // One channel operation or counter update, applied to the fields it names.
    method Step(ghost a: Action, dSem: int, dLow: int, dFlight: int)
      requires Valid() && Enabled(Snapshot(), a)
      requires Apply(Snapshot(), a).sem == sem + dSem && Apply(Snapshot(), a).low == low + dLow
      requires Apply(Snapshot(), a).inFlight == inFlight + dFlight
      modifies this
      ensures Valid() && log == old(log) + [a] && Snapshot() == Apply(old(Snapshot()), a)
    {
      StepKeepsInv(Snapshot(), a);
      LeadsOn(start, log, Snapshot(), a);
      threads, log := Apply(Snapshot(), a).threads, log + [a];
      sem, low, inFlight := sem + dSem, low + dLow, inFlight + dFlight;
    }

    // Admitted, or cancelled when the context ended first, or still waiting in the select when
    // neither is ready; with both ready, either way.
    method AcquireHigh(ghost t: nat, cancelled: bool) returns (r: Acquired)
      requires Valid() && t < |threads| && threads[t] == Out
      modifies this
      ensures Valid() && |threads| == old(|threads|) && r != Rejected
      ensures r.Admitted? ==> log == old(log) + [HighCall(t), HighSend(t), HighCount(t)] && threads[t] == HighHolds
      ensures r.Cancelled? ==> cancelled && log == old(log) + [HighCall(t), HighCancel(t)] && threads[t] == Out
      ensures r.Waiting? <==> old(sem) == capacity && !cancelled
      ensures r.Waiting? ==> log == old(log) + [HighCall(t)] && threads[t] == HighWaiting
    {
      Step(HighCall(t), 0, 0, 0);
      r := AwaitHigh(t, cancelled);
    }

    // The select of AcquireHigh, entered or looked at again.
    method AwaitHigh(ghost t: nat, cancelled: bool) returns (r: Acquired)
      requires Valid() && t < |threads| && threads[t] == HighWaiting
      modifies this
      ensures Valid() && |threads| == old(|threads|) && r != Rejected
      ensures r.Admitted? ==> log == old(log) + [HighSend(t), HighCount(t)] && threads[t] == HighHolds
      ensures r.Cancelled? ==> cancelled && log == old(log) + [HighCancel(t)] && threads[t] == Out
      ensures r.Waiting? <==> old(sem) == capacity && !cancelled
      ensures r.Waiting? ==> log == old(log) && threads == old(threads)
    {
      var pickDone: bool := *;
      if cancelled && (sem == capacity || pickDone) {
        Step(HighCancel(t), 0, 0, 0);
        return Cancelled;
      }
      if sem == capacity { return Waiting; }
      SendHigh(t);
      return Admitted;
    }

    method SendHigh(ghost t: nat)
      requires Valid() && t < |threads| && threads[t] == HighWaiting && sem < capacity
      modifies this
      ensures Valid() && threads == old(threads)[t := HighHolds] && log == old(log) + [HighSend(t), HighCount(t)]
    {
      Step(HighSend(t), 1, 0, 0);
      Step(HighCount(t), 0, 0, 1);
    }

    method ReleaseHigh(ghost t: nat)
      requires Valid() && t < |threads| && threads[t] == HighHolds
      modifies this
      ensures Valid() && log == old(log) + [HighUncount(t), HighReceive(t)] && threads == old(threads)[t := Out]
    {
      Step(HighUncount(t), 0, 0, -1);
      OwnStepEnabled(Snapshot(), t);
      Step(HighReceive(t), -1, 0, 0);
    }

    method AcquireLow(ghost t: nat, cancelled: bool) returns (r: Acquired)
      requires Valid() && t < |threads| && threads[t] == Out
      modifies this
      ensures Valid() && |threads| == old(|threads|)
      ensures r.Rejected? ==> old(low) == lowCapacity && log == old(log) + [LowReject(t)] && threads[t] == Out
      ensures r.Admitted? ==> log == old(log) + [LowSlot(t), LowSend(t), LowCount(t)] && threads[t] == LowHolds
      ensures r.Cancelled? ==> cancelled && threads[t] == Out &&
                               (log == old(log) + [LowCancelEarly(t)]
                                || log == old(log) + [LowSlot(t), LowCancel(t), LowReturnSlot(t)])
      ensures r.Waiting? <==> old(low) < lowCapacity && old(sem) == capacity && !cancelled
      ensures r.Waiting? ==> log == old(log) + [LowSlot(t)] && threads[t] == LowWaiting
    {
      var pickDone: bool := *;
      if cancelled && (pickDone || low == lowCapacity) {
        Step(LowCancelEarly(t), 0, 0, 0);
        return Cancelled;
      }
      if low == lowCapacity {
        Step(LowReject(t), 0, 0, 0);
        return Rejected;
      }
      Step(LowSlot(t), 0, 1, 0);
      r := AwaitLow(t, cancelled);
    }

    // The second select of AcquireLow: the slot is held, the semaphore is not.
    method AwaitLow(ghost t: nat, cancelled: bool) returns (r: Acquired)
      requires Valid() && t < |threads| && threads[t] == LowWaiting
      modifies this
      ensures Valid() && |threads| == old(|threads|) && r != Rejected
      ensures r.Admitted? ==> log == old(log) + [LowSend(t), LowCount(t)] && threads[t] == LowHolds
      ensures r.Cancelled? ==> cancelled && log == old(log) + [LowCancel(t), LowReturnSlot(t)] && threads[t] == Out
      ensures r.Waiting? <==> old(sem) == capacity && !cancelled
      ensures r.Waiting? ==> log == old(log) && threads == old(threads)
    {
      var pickDone: bool := *;
      if cancelled && (sem == capacity || pickDone) {
        GiveUpSlot(t);
        return Cancelled;
      }
      if sem == capacity { return Waiting; }
      SendLow(t);
      return Admitted;
    }

    method SendLow(ghost t: nat)
      requires Valid() && t < |threads| && threads[t] == LowWaiting && sem < capacity
      modifies this
      ensures Valid() && threads == old(threads)[t := LowHolds] && log == old(log) + [LowSend(t), LowCount(t)]
    {
      Step(LowSend(t), 1, 0, 0);
      Step(LowCount(t), 0, 0, 1);
    }

    method GiveUpSlot(ghost t: nat)
      requires Valid() && t < |threads| && threads[t] == LowWaiting
      modifies this
      ensures Valid() && threads == old(threads)[t := Out] && log == old(log) + [LowCancel(t), LowReturnSlot(t)]
    {
      Step(LowCancel(t), 0, 0, 0);
      OwnStepEnabled(Snapshot(), t);
      Step(LowReturnSlot(t), 0, -1, 0);
    }

    method ReleaseLow(ghost t: nat)
      requires Valid() && t < |threads| && threads[t] == LowHolds
      modifies this
      ensures Valid() && threads == old(threads)[t := Out]
      ensures log == old(log) + [LowUncount(t), LowReceive(t), LowFreeSlot(t)]
    {
      LeaveLow(t);
      OwnStepEnabled(Snapshot(), t);
      Step(LowFreeSlot(t), 0, -1, 0);
    }

    method LeaveLow(ghost t: nat)
      requires Valid() && t < |threads| && threads[t] == LowHolds
      modifies this
      ensures Valid() && threads == old(threads)[t := LowFreedSem] && log == old(log) + [LowUncount(t), LowReceive(t)]
    {
      Step(LowUncount(t), 0, 0, -1);
      OwnStepEnabled(Snapshot(), t);
      Step(LowReceive(t), -1, 0, 0);
    }
  }
}
