/**
 When the quota of Redis can exceed what is reserved, in terms of guards: a warm-up that finds the
 initial reservation already applied, and grants or returns a chunk it did not reserve; and when two
 warm-ups can be between lock and unlock.
 */
module QuotaGuards {
  import opened Quota

  function Excess(s: State): int { s.stores.books.granted - s.stores.books.reserved }

  // ---------------------------------------------------------------- the guard of a warm-up

  // Steps of one worker that are answered, one way or the other.
  predicate Answered(a: Action, w: nat) { a == Proceed(w, Ok) || a == Proceed(w, Error) }

  ghost predicate MayExceed(c: Config, s: State, w: nat) {
    exists acts :: CanRun(c, s, acts) && (forall a :: a in acts ==> Answered(a, w)) && Excess(RunAll(c, s, acts)) > Excess(s)
  }

  // The excess along a warm-up that reserved its own chunk, or none.
  ghost predicate Backed(s: State, w: nat, excess: int) {
    && w < |s.workers|
    && match s.workers[w]
       case WarmReserve => Excess(s) <= excess && (!s.stores.initApplied || s.shadow)
       case WarmGrant(own) => own && Excess(s) <= excess - 1
       case WarmRollback(own) => own && Excess(s) <= excess - 1
       case WarmUnlock => Excess(s) <= excess
       case Idle => Excess(s) <= excess
       case _ => false
  }

  lemma AnsweredKeepsBacked(c: Config, s: State, a: Action, w: nat, excess: int)
    requires Backed(s, w, excess) && Enabled(c, s, a) && Answered(a, w)
    ensures Backed(Apply(c, s, a), w, excess)
  {
    match s.workers[w]
    case WarmReserve =>
    case WarmGrant(_) =>
    case WarmRollback(_) =>
    case WarmUnlock =>
    case _ =>
  }

  lemma {:induction false} RunKeepsBacked(c: Config, s: State, acts: seq<Action>, w: nat, excess: int)
    requires Backed(s, w, excess) && CanRun(c, s, acts) && forall a :: a in acts ==> Answered(a, w)
    ensures Backed(RunAll(c, s, acts), w, excess)
    decreases |acts|
  {
    if acts != [] {
      AnsweredKeepsBacked(c, s, acts[0], w, excess);
      RunKeepsBacked(c, Apply(c, s, acts[0]), acts[1..], w, excess);
    }
  }

  lemma OneStep(c: Config, s: State, a: Action)
    requires Enabled(c, s, a)
    ensures CanRun(c, s, [a]) && RunAll(c, s, [a]) == Apply(c, s, a)
  {
    assert [a][1..] == [];
    assert RunAll(c, Apply(c, s, a), []) == Apply(c, s, a);
  }

  lemma TwoSteps(c: Config, s: State, a: Action, b: Action)
    requires Enabled(c, s, a) && Enabled(c, Apply(c, s, a), b)
    ensures CanRun(c, s, [a, b]) && RunAll(c, s, [a, b]) == Apply(c, Apply(c, s, a), b)
  {
    OneStep(c, Apply(c, s, a), b);
    assert [a, b][1..] == [b];
  }

  // Exactly when a warm-up about to reserve can raise what Redis holds over what is reserved, by
  // answered steps of its own: the initial reservation is already applied, in live mode.
  lemma WarmUpExceedsIff(c: Config, s: State, w: nat)
    requires w < |s.workers| && s.workers[w] == WarmReserve
    ensures MayExceed(c, s, w) <==> s.stores.initApplied && !s.shadow
  {
    if s.stores.initApplied && !s.shadow {
      var acts := [Proceed(w, Ok), Proceed(w, Ok)];
      TwoSteps(c, s, Proceed(w, Ok), Proceed(w, Ok));
      assert Excess(RunAll(c, s, acts)) > Excess(s);
    } else {
      forall acts | CanRun(c, s, acts) && forall a :: a in acts ==> Answered(a, w)
        ensures Excess(RunAll(c, s, acts)) <= Excess(s)
      {
        RunKeepsBacked(c, s, acts, w, Excess(s));
      }
    }
  }

  // ---------------------------------------------------------------- runs that keep to the guard

  // The grant of a worker is not answered, or a live warm-up passes its reservation on an applied key.
  predicate Unguarded(s: State, a: Action)
    requires a.Proceed? ==> a.w < |s.workers|
  {
    a.Proceed? &&
    var p := s.workers[a.w];
    || ((p.RefillGrant? || p.WarmGrant?) && a.reply == Lost)
    || (p.WarmReserve? && a.reply == Ok && s.stores.initApplied && !s.shadow)
  }

  ghost predicate GuardedRun(c: Config, s: State, acts: seq<Action>)
    requires CanRun(c, s, acts)
    decreases |acts|
  {
    acts == [] || (!Unguarded(s, acts[0]) && GuardedRun(c, Apply(c, s, acts[0]), acts[1..]))
  }

  // A warm-up with a chunk that is not its own.
  predicate Borrows(p: Pc) { (p.WarmGrant? || p.WarmRollback?) && !p.own }

  // Nothing unbacked so far, and no worker about to add to it.
  ghost predicate AllBacked(s: State) {
    Unbacked(s.stores.books) == 0 && forall w :: 0 <= w < |s.workers| ==> !Borrows(s.workers[w])
  }

  lemma GuardedStepKeepsBacked(c: Config, s: State, a: Action)
    requires AllBacked(s) && Enabled(c, s, a) && !Unguarded(s, a)
    ensures AllBacked(Apply(c, s, a))
  {
    match a
    case Proceed(w, reply) => GuardedProceed(s.stores, s.workers[w], reply, s.shadow, Exceeded(c, s));
    case _ =>
  }

  lemma GuardedProceed(x: Stores, p: Pc, reply: Reply, shadow: bool, full: bool)
    requires !Borrows(p) && p != Idle
    requires !((p.RefillGrant? || p.WarmGrant?) && reply == Lost) && !(p.WarmReserve? && reply == Ok && x.initApplied && !shadow)
    ensures var m := WorkerStep(x, p, reply, shadow, full);
            Unbacked(m.stores.books) == Unbacked(x.books) && !Borrows(m.pc)
  {
    match p
    case RefillClaim =>
    case RefillReserve =>
    case RefillGrant =>
    case RefillRollback =>
    case Requeue =>
    case RequeueAdd =>
    case WarmLock =>
    case WarmRecheck =>
    case WarmReserve =>
    case WarmGrant(_) =>
    case WarmRollback(_) =>
    case WarmUnlock =>
  }

  lemma {:induction false} GuardedRunKeepsBacked(c: Config, s: State, acts: seq<Action>)
    requires AllBacked(s) && CanRun(c, s, acts) && GuardedRun(c, s, acts)
    ensures AllBacked(RunAll(c, s, acts))
    decreases |acts|
  {
    if acts != [] {
      GuardedStepKeepsBacked(c, s, acts[0]);
      GuardedRunKeepsBacked(c, Apply(c, s, acts[0]), acts[1..]);
    }
  }

  lemma IdleBorrowNothing(workers: seq<Pc>)
    requires forall w :: 0 <= w < |workers| ==> workers[w] == Idle
    ensures forall w :: 0 <= w < |workers| ==> !Borrows(workers[w])
  {
  }

  lemma InitiallyBacked(s0: State)
    requires Initial(s0)
    ensures AllBacked(s0)
  {
    IdleBorrowNothing(s0.workers);
  }

  lemma BackedIsReserved(c: Config, s: State)
    requires Reachable(c, s) && AllBacked(s)
    ensures Excess(s) <= 0
  {
    RedisNeverUnreserved(c, s);
  }

  lemma RunIsReachable(c: Config, s0: State, acts: seq<Action>)
    requires Initial(s0) && CanRun(c, s0, acts)
    ensures Reachable(c, RunAll(c, s0, acts))
  {
  }

  // Over every run in which every grant is answered and no live warm-up passes its reservation on
  // an applied key, whatever else fails, is lost or crashes: Redis never holds unreserved quota.
  lemma GuardedRunsStayReserved(c: Config, s0: State, acts: seq<Action>)
    requires Initial(s0) && CanRun(c, s0, acts) && GuardedRun(c, s0, acts)
    ensures Excess(RunAll(c, s0, acts)) <= 0
  {
    InitiallyBacked(s0);
    GuardedRunKeepsBacked(c, s0, acts);
    RunIsReachable(c, s0, acts);
    BackedIsReserved(c, RunAll(c, s0, acts));
  }

  // ---------------------------------------------------------------- what happens without the guard

  // Reachable; if `plain`, with every reply answered and no crash, no key lost, no lock expired.
  predicate Plain(a: Action) { a.AskRefill? || a.PopRefill? || a.SeeMissingKey? || (a.Proceed? && a.reply != Lost) }

  ghost predicate Reaches(c: Config, s: State, plain: bool) {
    exists s0, acts :: Initial(s0) && CanRun(c, s0, acts) && s == RunAll(c, s0, acts) && (plain ==> forall a :: a in acts ==> Plain(a))
  }

  lemma {:induction false} RunOneMore(c: Config, s: State, acts: seq<Action>, a: Action)
    requires CanRun(c, s, acts) && Enabled(c, RunAll(c, s, acts), a)
    ensures CanRun(c, s, acts + [a]) && RunAll(c, s, acts + [a]) == Apply(c, RunAll(c, s, acts), a)
    decreases |acts|
  {
    if acts == [] {
      assert [a][1..] == [];
    } else {
      RunOneMore(c, Apply(c, s, acts[0]), acts[1..], a);
      assert (acts + [a])[1..] == acts[1..] + [a];
    }
  }

  lemma Onward(c: Config, s: State, a: Action, t: State, plain: bool)
    requires Reaches(c, s, plain) && Enabled(c, s, a) && (plain ==> Plain(a)) && Apply(c, s, a) == t
    ensures Reaches(c, t, plain)
  {
    var s0, acts :| Initial(s0) && CanRun(c, s0, acts) && s == RunAll(c, s0, acts) && (plain ==> forall a :: a in acts ==> Plain(a));
    RunOneMore(c, s0, acts, a);
  }

  // One warm-up worker over stores with the given books, key and lock.
  function Scene(b: Books, initApplied: bool, quotaKey: bool, lock: bool, p: Pc): State {
    State(false, Stores(b, initApplied, quotaKey, lock, false), [p], Settlement(0, 0))
  }

  function Fresh(): Books { Books(0, 0, 0, 0, 0, 0, 0, 0) }

  lemma WarmUpLocks(c: Config, b: Books, initApplied: bool, plain: bool)
    requires Reaches(c, Scene(b, initApplied, false, false, Idle), plain)
    ensures Reaches(c, Scene(b, initApplied, false, true, WarmRecheck), plain)
  {
    Onward(c, Scene(b, initApplied, false, false, Idle), SeeMissingKey(0), Scene(b, initApplied, false, false, WarmLock), plain);
    Onward(c, Scene(b, initApplied, false, false, WarmLock), Proceed(0, Ok), Scene(b, initApplied, false, true, WarmRecheck), plain);
  }

  lemma WarmUpToReserve(c: Config, b: Books, initApplied: bool, plain: bool)
    requires Reaches(c, Scene(b, initApplied, false, false, Idle), plain)
    ensures Reaches(c, Scene(b, initApplied, false, true, WarmReserve), plain)
  {
    WarmUpLocks(c, b, initApplied, plain);
    Onward(c, Scene(b, initApplied, false, true, WarmRecheck), Proceed(0, Ok), Scene(b, initApplied, false, true, WarmReserve), plain);
  }

  lemma FirstReservation(c: Config, plain: bool)
    requires 0 < c.chunk <= c.room
    ensures Reaches(c, Scene(Fresh().(reserved := 1), true, false, true, WarmGrant(true)), plain)
  {
    var s0 := Scene(Fresh(), false, false, false, Idle);
    assert Reaches(c, s0, plain) by { assert CanRun(c, s0, []) && RunAll(c, s0, []) == s0; }
    WarmUpToReserve(c, Fresh(), false, plain);
    Onward(c, Scene(Fresh(), false, false, true, WarmReserve), Proceed(0, Ok),
           Scene(Fresh().(reserved := 1), true, false, true, WarmGrant(true)), plain);
  }

  lemma FirstGrantFails(c: Config)
    requires 0 < c.chunk <= c.room
    ensures Reaches(c, Scene(Fresh(), true, false, false, Idle), true)
  {
    FirstReservation(c, true);
    var one := Fresh().(reserved := 1);
    Onward(c, Scene(one, true, false, true, WarmGrant(true)), Proceed(0, Error), Scene(one, true, false, true, WarmRollback(true)), true);
    Onward(c, Scene(one, true, false, true, WarmRollback(true)), Proceed(0, Ok), Scene(Fresh(), true, false, true, WarmUnlock), true);
    Unlocked(c, Fresh(), false, true);
  }

  lemma Unlocked(c: Config, b: Books, quotaKey: bool, plain: bool)
    requires Reaches(c, Scene(b, true, quotaKey, true, WarmUnlock), plain)
    ensures Reaches(c, Scene(b, true, quotaKey, false, Idle), plain)
  {
    Onward(c, Scene(b, true, quotaKey, true, WarmUnlock), Proceed(0, Ok), Scene(b, true, quotaKey, false, Idle), plain);
  }

  // The plain retry: the first warm-up's grant fails and its reservation is returned; the next
  // finds the idempotency row, reserves nothing and grants. No reply is lost, nothing crashes and
  // no key disappears.
  lemma RetryGrantsUnreserved(c: Config) returns (s: State)
    requires 0 < c.chunk <= c.room
    ensures Reaches(c, s, true) && s.stores.books == Fresh().(granted := 1, repeatWarms := 1)
  {
    FirstGrantFails(c);
    WarmUpToReserve(c, Fresh(), true, true);
    Onward(c, Scene(Fresh(), true, false, true, WarmReserve), Proceed(0, Ok), Scene(Fresh(), true, false, true, WarmGrant(false)), true);
    s := Scene(Fresh().(granted := 1, repeatWarms := 1), true, true, true, WarmUnlock);
    Onward(c, Scene(Fresh(), true, false, true, WarmGrant(false)), Proceed(0, Ok), s, true);
  }

  function Warmed(): Books { Books(1, 1, 0, 0, 0, 0, 0, 0) }

  lemma WarmedThenLost(c: Config)
    requires 0 < c.chunk <= c.room
    ensures Reaches(c, Scene(Warmed(), true, false, false, Idle), false)
  {
    FirstReservation(c, false);
    Onward(c, Scene(Fresh().(reserved := 1), true, false, true, WarmGrant(true)), Proceed(0, Ok), Scene(Warmed(), true, true, true, WarmUnlock), false);
    Unlocked(c, Warmed(), true, false);
    Onward(c, Scene(Warmed(), true, true, false, Idle), KeyLost, Scene(Warmed(), true, false, false, Idle), false);
  }

  lemma SecondGrantFails(c: Config)
    requires 0 < c.chunk <= c.room
    ensures Reaches(c, Scene(Warmed(), true, false, true, WarmRollback(false)), false)
  {
    WarmedThenLost(c);
    WarmUpToReserve(c, Warmed(), true, false);
    Onward(c, Scene(Warmed(), true, false, true, WarmReserve), Proceed(0, Ok), Scene(Warmed(), true, false, true, WarmGrant(false)), false);
    Onward(c, Scene(Warmed(), true, false, true, WarmGrant(false)), Proceed(0, Error), Scene(Warmed(), true, false, true, WarmRollback(false)), false);
  }

  // Without any repeated grant: after the quota key is lost, a second warm-up whose grant fails
  // returns the first one's reservation, and Redis is left with quota nothing is reserved for.
  lemma UnreservedWithoutRepeatedGrant(c: Config) returns (s: State)
    requires 0 < c.chunk <= c.room
    ensures Reaches(c, s, false) && s.stores.books == Fresh().(granted := 1, overReleases := 1)
  {
    SecondGrantFails(c);
    s := Scene(Fresh().(granted := 1, overReleases := 1), true, false, true, WarmUnlock);
    Onward(c, Scene(Warmed(), true, false, true, WarmRollback(false)), Proceed(0, Ok), s, false);
  }

  // ---------------------------------------------------------------- the warm-up lock

  // Between taking the refill lock and giving it back.
  predicate Inside(p: Pc) { p.WarmRecheck? || p.WarmReserve? || p.WarmGrant? || p.WarmRollback? || p.WarmUnlock? }

  // The lock goes while a warm-up other than the one that acts is inside: by a refill's GETDEL,
  // another user's delete, or the time to live.
  ghost predicate TakesLock(c: Config, s: State, a: Action)
    requires Enabled(c, s, a)
  {
    && s.stores.lock && !Apply(c, s, a).stores.lock
    && exists w :: 0 <= w < |s.workers| && Inside(s.workers[w]) && !(a.Proceed? && a.w == w)
  }

  ghost predicate LockKeptRun(c: Config, s: State, acts: seq<Action>)
    requires CanRun(c, s, acts)
    decreases |acts|
  {
    acts == [] || (!TakesLock(c, s, acts[0]) && LockKeptRun(c, Apply(c, s, acts[0]), acts[1..]))
  }

  // At most one warm-up is inside, and while one is, the lock is there.
  ghost predicate Exclusive(s: State) {
    && (forall v, w :: 0 <= v < w < |s.workers| ==> !(Inside(s.workers[v]) && Inside(s.workers[w])))
    && (forall w :: 0 <= w < |s.workers| && Inside(s.workers[w]) ==> s.stores.lock)
  }

  // How one worker's step moves it in or out, and the lock with it.
  lemma ProceedAndLock(x: Stores, p: Pc, reply: Reply, shadow: bool, full: bool)
    requires p != Idle
    ensures var m := WorkerStep(x, p, reply, shadow, full);
            && (Inside(m.pc) && !Inside(p) ==> !x.lock && m.stores.lock)
            && (Inside(m.pc) && Inside(p) ==> m.stores.lock == x.lock)
  {
    match p
    case RefillClaim =>
    case RefillReserve =>
    case RefillGrant =>
    case RefillRollback =>
    case Requeue =>
    case RequeueAdd =>
    case WarmLock =>
    case WarmRecheck =>
    case WarmReserve =>
    case WarmGrant(_) =>
    case WarmRollback(_) =>
    case WarmUnlock =>
  }

  lemma StepKeepsExclusive(c: Config, s: State, a: Action)
    requires Exclusive(s) && Enabled(c, s, a) && !TakesLock(c, s, a)
    ensures Exclusive(Apply(c, s, a))
  {
    match a
    case Proceed(w, reply) => ProceedAndLock(s.stores, s.workers[w], reply, s.shadow, Exceeded(c, s));
    case _ =>
  }

  lemma {:induction false} RunKeepsExclusive(c: Config, s: State, acts: seq<Action>)
    requires Exclusive(s) && CanRun(c, s, acts) && LockKeptRun(c, s, acts)
    ensures Exclusive(RunAll(c, s, acts))
    decreases |acts|
  {
    if acts != [] {
      StepKeepsExclusive(c, s, acts[0]);
      RunKeepsExclusive(c, Apply(c, s, acts[0]), acts[1..]);
    }
  }

  // Over every run in which nobody takes the lock away from a warm-up that is inside, at most one
  // is inside at any time.
  lemma AtMostOneWarmUpInside(c: Config, s0: State, acts: seq<Action>)
    requires Initial(s0) && CanRun(c, s0, acts) && LockKeptRun(c, s0, acts)
    ensures Exclusive(RunAll(c, s0, acts))
  {
    RunKeepsExclusive(c, s0, acts);
  }

  predicate WarmUpStep(a: Action, v: nat) { a == SeeMissingKey(v) || (a.Proceed? && a.w == v) }

  ghost predicate MayEnter(c: Config, s: State, v: nat) {
    exists acts :: CanRun(c, s, acts) && (forall a :: a in acts ==> WarmUpStep(a, v))
                   && v < |RunAll(c, s, acts).workers| && Inside(RunAll(c, s, acts).workers[v])
  }

  lemma LockedOutStep(c: Config, s: State, a: Action, v: nat)
    requires v < |s.workers| && s.stores.lock && (s.workers[v] == Idle || s.workers[v] == WarmLock)
    requires Enabled(c, s, a) && WarmUpStep(a, v)
    ensures var t := Apply(c, s, a);
            |t.workers| == |s.workers| && t.stores.lock && (t.workers[v] == Idle || t.workers[v] == WarmLock)
  {
  }

  lemma {:induction false} LockedOut(c: Config, s: State, acts: seq<Action>, v: nat)
    requires v < |s.workers| && s.stores.lock && (s.workers[v] == Idle || s.workers[v] == WarmLock)
    requires CanRun(c, s, acts) && forall a :: a in acts ==> WarmUpStep(a, v)
    ensures v < |RunAll(c, s, acts).workers| && !Inside(RunAll(c, s, acts).workers[v])
    decreases |acts|
  {
    if acts != [] {
      assert WarmUpStep(acts[0], v);
      LockedOutStep(c, s, acts[0], v);
      LockedOut(c, Apply(c, s, acts[0]), acts[1..], v);
    }
  }

  // The other half: with the quota key missing, a further warm-up can enter by its own steps,
  // whoever is inside, if and only if the lock is gone.
  lemma WarmUpEntersIff(c: Config, s: State, v: nat)
    requires Enabled(c, s, SeeMissingKey(v))
    ensures MayEnter(c, s, v) <==> !s.stores.lock
  {
    if s.stores.lock {
      forall acts | CanRun(c, s, acts) && forall a :: a in acts ==> WarmUpStep(a, v)
        ensures !(v < |RunAll(c, s, acts).workers| && Inside(RunAll(c, s, acts).workers[v]))
      {
        LockedOut(c, s, acts, v);
      }
    } else {
      var acts := [SeeMissingKey(v), Proceed(v, Ok)];
      TwoSteps(c, s, SeeMissingKey(v), Proceed(v, Ok));
      assert Inside(RunAll(c, s, acts).workers[v]);
    }
  }

  // A refill worker and two warm-ups.
  function Three(lock: bool, needed: bool, refill: Pc, first: Pc, second: Pc): State {
    State(false, Stores(Fresh(), false, false, lock, needed), [refill, first, second], Settlement(0, 0))
  }

  lemma RefillClaims(c: Config, first: Pc)
    requires Reaches(c, Three(true, true, Idle, first, Idle), true)
    ensures Reaches(c, Three(false, false, RefillReserve, first, Idle), true)
  {
    Onward(c, Three(true, true, Idle, first, Idle), PopRefill(0), Three(true, false, RefillClaim, first, Idle), true);
    Onward(c, Three(true, false, RefillClaim, first, Idle), Proceed(0, Ok), Three(false, false, RefillReserve, first, Idle), true);
  }

  lemma RefillFailsToReserve(c: Config)
    ensures Reaches(c, Three(false, false, Requeue, Idle, Idle), true)
  {
    var s0 := Three(false, false, Idle, Idle, Idle);
    assert Reaches(c, s0, true) by { assert CanRun(c, s0, []) && RunAll(c, s0, []) == s0; }
    Onward(c, s0, AskRefill, Three(true, true, Idle, Idle, Idle), true);
    RefillClaims(c, Idle);
    Onward(c, Three(false, false, RefillReserve, Idle, Idle), Proceed(0, Error), Three(false, false, Requeue, Idle, Idle), true);
  }

  lemma FirstLocks(c: Config)
    ensures Reaches(c, Three(true, false, Requeue, WarmRecheck, Idle), true)
  {
    RefillFailsToReserve(c);
    Onward(c, Three(false, false, Requeue, Idle, Idle), SeeMissingKey(1), Three(false, false, Requeue, WarmLock, Idle), true);
    Onward(c, Three(false, false, Requeue, WarmLock, Idle), Proceed(1, Ok), Three(true, false, Requeue, WarmRecheck, Idle), true);
  }

  lemma FirstEnters(c: Config)
    ensures Reaches(c, Three(true, true, Idle, WarmRecheck, Idle), true)
  {
    FirstLocks(c);
    Onward(c, Three(true, false, Requeue, WarmRecheck, Idle), Proceed(0, Ok), Three(true, false, RequeueAdd, WarmRecheck, Idle), true);
    Onward(c, Three(true, false, RequeueAdd, WarmRecheck, Idle), Proceed(0, Ok), Three(true, true, Idle, WarmRecheck, Idle), true);
  }

  // It does go: a refill that was put back in the queue claims the lock of a warm-up, and a second
  // warm-up enters beside it, with no reply lost and nothing expired.
  lemma RefillTakesWarmUpLock(c: Config) returns (s: State)
    ensures Reaches(c, s, true) && |s.workers| == 3 && Inside(s.workers[1]) && Inside(s.workers[2])
  {
    FirstEnters(c);
    RefillClaims(c, WarmRecheck);
    Onward(c, Three(false, false, RefillReserve, WarmRecheck, Idle), SeeMissingKey(2), Three(false, false, RefillReserve, WarmRecheck, WarmLock), true);
    s := Three(true, false, RefillReserve, WarmRecheck, WarmRecheck);
    Onward(c, Three(false, false, RefillReserve, WarmRecheck, WarmLock), Proceed(2, Ok), s, true);
  }
}
