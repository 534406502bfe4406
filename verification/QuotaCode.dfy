/**
 A refill and a warm-up against their code, written as structured programs; how often a refill
 reserves for each time the refill lock is set; and what shadow mode and the idempotency key of the
 initial reservation keep from happening, over every run.
 */
module QuotaCode {
  import opened Quota
  import opened QuotaGuards

  // ---------------------------------------------------------------- the code

  datatype Command = ClaimLock | Reserve | Grant | Release | SetLock | AddToRefills | TakeLock | LookForKey | ReserveInitial | DeleteLock

  // What a command answers: yes, no, or an error. Claiming: the lock was there; taking it: it was not;
  // looking: the key exists; reserving: in live mode, in shadow mode, or over the budget.
  datatype Answer = Yes | YesShadow | No | Failed

  datatype Program =
    | Ask(command: Command, yes: Program, shadow: Program, no: Program, failed: Program)
    | Done

  // A command whose answer does not matter.
  function Just(command: Command, next: Program): Program { Ask(command, next, next, next, next) }

  function Requeued(): Program { Just(SetLock, Just(AddToRefills, Done)) }

  function RefillCampaign(): Program {
    var granted := Ask(Grant, Done, Done, Done, Just(Release, Requeued()));
    Ask(ClaimLock, Ask(Reserve, granted, Done, Done, Requeued()), Done, Done, Done)
  }

  function WarmCampaign(): Program {
    var unlock := Just(DeleteLock, Done);
    var granted := Ask(Grant, unlock, unlock, unlock, Just(Release, unlock));
    var reserved := Ask(ReserveInitial, granted, unlock, unlock, unlock);
    Ask(TakeLock, Ask(LookForKey, unlock, unlock, reserved, unlock), Done, Done, Done)
  }

  // ---------------------------------------------------------------- what a run shows of it

  function CommandAt(p: Pc): Command {
    match p
    case RefillClaim => ClaimLock
    case RefillReserve => Reserve
    case RefillGrant => Grant
    case RefillRollback => Release
    case Requeue => SetLock
    case RequeueAdd => AddToRefills
    case WarmLock => TakeLock
    case WarmRecheck => LookForKey
    case WarmReserve => ReserveInitial
    case WarmGrant(_) => Grant
    case WarmRollback(_) => Release
    case WarmUnlock => DeleteLock
    case Idle => DeleteLock
  }

  // What the stores answer. Where a reservation is already applied, its answer is the same.
  function StoreAnswer(x: Stores, command: Command, shadow: bool, full: bool): Answer {
    match command
    case ClaimLock => if x.lock then Yes else No
    case TakeLock => if x.lock then No else Yes
    case LookForKey => if x.quotaKey then Yes else No
    case Reserve => if full then No else if shadow then YesShadow else Yes
    case ReserveInitial => if full && !x.initApplied then No else if shadow then YesShadow else Yes
    case _ => Yes
  }

  // A command whose acknowledgement is lost has failed for its caller.
  function AnswerTo(x: Stores, p: Pc, reply: Reply, shadow: bool, full: bool): Answer {
    if reply == Ok then StoreAnswer(x, CommandAt(p), shadow, full) else Failed
  }

  function LineOf(c: Config, s: State, w: nat, reply: Reply): Line
    requires w < |s.workers|
  {
    Line(CommandAt(s.workers[w]), AnswerTo(s.stores, s.workers[w], reply, s.shadow, Exceeded(c, s)))
  }

  function Branch(p: Program, a: Answer): Program
    requires p.Ask?
  {
    match a case Yes => p.yes case YesShadow => p.shadow case No => p.no case Failed => p.failed
  }

  datatype Line = Line(command: Command, answer: Answer)

  // What is left of a program after these lines; Done when it would not have issued them.
  predicate Issues(p: Program, lines: seq<Line>, rest: Program)
    decreases |lines|
  {
    if lines == [] then p == rest
    else p.Ask? && p.command == lines[0].command && Issues(Branch(p, lines[0].answer), lines[1..], rest)
  }

  // The commands of worker `w` in a run, with their answers.
  ghost function Transcript(c: Config, s: State, acts: seq<Action>, w: nat): seq<Line>
    requires CanRun(c, s, acts) && w < |s.workers|
    decreases |acts|
  {
    if acts == [] then []
    else
      (if acts[0].Proceed? && acts[0].w == w then [LineOf(c, s, w, acts[0].reply)] else [])
      + Transcript(c, Apply(c, s, acts[0]), acts[1..], w)
  }

  // The call of `w` goes on: it neither crashes nor begins another.
  predicate Within(a: Action, w: nat) { a.Crash? || a.PopRefill? || a.SeeMissingKey? ==> a.w != w }

  // The stores after a command that took effect.
  ghost predicate TookEffect(command: Command, x: Stores, y: Stores, full: bool) {
    match command
    case ClaimLock => Became(x.(lock := false), y, 0, 0)
    case Reserve => Became(x, y, One(!full), 0)
    case Grant => Became(x.(quotaKey := true), y, 0, 1)
    case Release => Became(x, y, -1, 0)
    case SetLock => Became(x.(lock := true), y, 0, 0)
    case AddToRefills => Became(x.(refillNeeded := true), y, 0, 0)
    case TakeLock => Became(x.(lock := true), y, 0, 0)
    case LookForKey => Became(x, y, 0, 0)
    case ReserveInitial => Became(x.(initApplied := x.initApplied || !full), y, One(!full && !x.initApplied), 0)
    case DeleteLock => Became(x.(lock := false), y, 0, 0)
  }

  predicate Became(x: Stores, y: Stores, reserved: int, granted: int) {
    SameStores(x, y) && y.books.reserved == x.books.reserved + reserved && y.books.granted == x.books.granted + granted
  }

  lemma RefillEffect(x: Stores, p: Pc, reply: Reply, shadow: bool, full: bool)
    requires p.RefillClaim? || p.RefillReserve? || p.RefillGrant? || p.RefillRollback? || p.Requeue? || p.RequeueAdd?
    ensures var y := RefillStep(x, p, reply, shadow, full).stores;
            if reply == Error then Became(x, y, 0, 0) else TookEffect(CommandAt(p), x, y, full)
  {
  }

  lemma WarmEffect(x: Stores, p: Pc, reply: Reply, shadow: bool, full: bool)
    requires p.WarmLock? || p.WarmRecheck? || p.WarmReserve? || p.WarmGrant? || p.WarmRollback? || p.WarmUnlock?
    ensures var y := WarmStep(x, p, reply, shadow, full).stores;
            if reply == Error then Became(x, y, 0, 0) else TookEffect(CommandAt(p), x, y, full)
  {
  }

  // A command that fails leaves the stores; one that takes effect, acknowledged or not, changes what
  // it is about. A reservation over the budget, or already made under its key, adds nothing.
  lemma CommandEffect(x: Stores, p: Pc, reply: Reply, shadow: bool, full: bool)
    requires p != Idle
    ensures var y := WorkerStep(x, p, reply, shadow, full).stores;
            if reply == Error then Became(x, y, 0, 0) else TookEffect(CommandAt(p), x, y, full)
  {
    if p.RefillClaim? || p.RefillReserve? || p.RefillGrant? || p.RefillRollback? || p.Requeue? || p.RequeueAdd? {
      RefillEffect(x, p, reply, shadow, full);
    } else {
      WarmEffect(x, p, reply, shadow, full);
    }
  }

  predicate SameStores(x: Stores, y: Stores) {
    y.initApplied == x.initApplied && y.quotaKey == x.quotaKey && y.lock == x.lock && y.refillNeeded == x.refillNeeded
  }

  function One(b: bool): nat { if b then 1 else 0 }

  // Settling lowers the reservation by the amount, not below zero, and what is left of the budget
  // by all of it; nothing else moves.
  lemma SettleEffect(c: Config, s: State, amount: nat)
    requires Column(c, s) >= 0
    ensures var t := Apply(c, s, Settle(amount));
            && t == s.(settled := t.settled) && Room(c, t) == Room(c, s) - amount
            && Column(c, t) == if Column(c, s) < amount then 0 else Column(c, s) - amount
  {
  }

  // What happens to a campaign besides: a crash leaves its worker idle and the stores as they are,
  // but that a chunk the worker held is abandoned; the filter asks for a refill unless the lock is
  // there; the lock and the key may come and go.
  lemma EnvironmentEffect(c: Config, s: State, a: Action)
    requires Enabled(c, s, a) && !a.Proceed? && !a.PopRefill? && !a.SeeMissingKey? && !a.Settle?
    ensures var t := Apply(c, s, a);
            var x, y := s.stores, t.stores;
            && t.settled == s.settled && y.books.reserved == x.books.reserved && y.books.granted == x.books.granted
            && t.shadow == (if a.SetMode? then a.shadow else s.shadow)
            && t.workers == (if a.Crash? then s.workers[a.w := Idle] else s.workers)
            && y.books.abandoned == x.books.abandoned + One(a.Crash? && Holds(s.workers[a.w]))
            && y.initApplied == x.initApplied && y.quotaKey == (x.quotaKey && !a.KeyLost?)
            && y.lock == ((x.lock || a.AskRefill? || a.LockTaken?) && !a.LockExpires?)
            && y.refillNeeded == (x.refillNeeded || (a.AskRefill? && !x.lock))
  {
  }

  // When a refill and a warm-up may begin: the campaign is asked for; its quota key is missing and,
  // in shadow mode, nothing is reserved for it.
  lemma BeginsIff(c: Config, s: State, w: nat)
    requires w < |s.workers| && s.workers[w] == Idle
    ensures Enabled(c, s, PopRefill(w)) <==> s.stores.refillNeeded
    ensures Enabled(c, s, SeeMissingKey(w)) <==> !s.stores.quotaKey && (s.shadow ==> Column(c, s) <= 0)
    ensures s.stores.refillNeeded ==> !Apply(c, s, PopRefill(w)).stores.refillNeeded
  {
  }

  // ---------------------------------------------------------------- simulation

  function Left(p: Pc): Program {
    var unlock := Just(DeleteLock, Done);
    match p
    case Idle => Done
    case RefillClaim => RefillCampaign()
    case RefillReserve => RefillCampaign().yes
    case RefillGrant => RefillCampaign().yes.yes
    case RefillRollback => Just(Release, Requeued())
    case Requeue => Requeued()
    case RequeueAdd => Just(AddToRefills, Done)
    case WarmLock => WarmCampaign()
    case WarmRecheck => WarmCampaign().yes
    case WarmReserve => WarmCampaign().yes.no
    case WarmGrant(_) => WarmCampaign().yes.no.yes
    case WarmRollback(_) => Just(Release, unlock)
    case WarmUnlock => unlock
  }

  ghost predicate Follows(p: Pc, n: Pc, line: Line) {
    Left(p).Ask? && Left(p).command == line.command && Left(n) == Branch(Left(p), line.answer)
  }

  lemma RefillFollows(x: Stores, p: Pc, reply: Reply, shadow: bool, full: bool)
    requires p.RefillClaim? || p.RefillReserve? || p.RefillGrant? || p.RefillRollback? || p.Requeue? || p.RequeueAdd?
    ensures Follows(p, RefillStep(x, p, reply, shadow, full).pc, Line(CommandAt(p), AnswerTo(x, p, reply, shadow, full)))
  {
  }

  lemma WarmFollows(x: Stores, p: Pc, reply: Reply, shadow: bool, full: bool)
    requires p.WarmLock? || p.WarmRecheck? || p.WarmReserve? || p.WarmGrant? || p.WarmRollback? || p.WarmUnlock?
    ensures Follows(p, WarmStep(x, p, reply, shadow, full).pc, Line(CommandAt(p), AnswerTo(x, p, reply, shadow, full)))
  {
  }

  lemma StepFollows(c: Config, s: State, w: nat, reply: Reply)
    requires Enabled(c, s, Proceed(w, reply))
    ensures Follows(s.workers[w], Apply(c, s, Proceed(w, reply)).workers[w], LineOf(c, s, w, reply))
  {
    var p := s.workers[w];
    if p.RefillClaim? || p.RefillReserve? || p.RefillGrant? || p.RefillRollback? || p.Requeue? || p.RequeueAdd? {
      RefillFollows(s.stores, p, reply, s.shadow, Exceeded(c, s));
    } else {
      WarmFollows(s.stores, p, reply, s.shadow, Exceeded(c, s));
    }
  }

  lemma OthersKeepPlace(c: Config, s: State, a: Action, w: nat)
    requires Enabled(c, s, a) && Within(a, w) && w < |s.workers|
    ensures |Apply(c, s, a).workers| == |s.workers|
    ensures !(a.Proceed? && a.w == w) ==> Apply(c, s, a).workers[w] == s.workers[w]
  {
  }

  lemma {:induction false} RunFollows(c: Config, s: State, acts: seq<Action>, w: nat)
    requires w < |s.workers| && CanRun(c, s, acts) && forall a :: a in acts ==> Within(a, w)
    ensures |RunAll(c, s, acts).workers| == |s.workers|
    ensures Issues(Left(s.workers[w]), Transcript(c, s, acts, w), Left(RunAll(c, s, acts).workers[w]))
    decreases |acts|
  {
    if acts != [] {
      var t := Apply(c, s, acts[0]);
      OthersKeepPlace(c, s, acts[0], w);
      RunFollows(c, t, acts[1..], w);
      var rest := Transcript(c, t, acts[1..], w);
      if acts[0].Proceed? && acts[0].w == w {
        StepFollows(c, s, w, acts[0].reply);
        assert Transcript(c, s, acts, w)[1..] == rest;
      } else {
        assert [] + rest == rest;
      }
    }
  }

  lemma OnlyIdleIsDone(p: Pc)
    ensures Left(p) == Done <==> p == Idle
  {
  }

  // A refill and a warm-up issue exactly the commands of their code, whatever is answered, lost or
  // done by others in between, and are over exactly when the code is; until then the next may fail.
  lemma CallFollowsCode(c: Config, s: State, w: nat, a: Action, acts: seq<Action>) returns (left: Program)
    requires Enabled(c, s, a) && (a == PopRefill(w) || a == SeeMissingKey(w))
    requires CanRun(c, Apply(c, s, a), acts) && forall b :: b in acts ==> Within(b, w)
    ensures var t := RunAll(c, Apply(c, s, a), acts);
            && w < |Apply(c, s, a).workers| && w < |t.workers|
            && Issues(if a.PopRefill? then RefillCampaign() else WarmCampaign(), Transcript(c, Apply(c, s, a), acts, w), left)
            && (left == Done <==> t.workers[w] == Idle)
            && (left != Done ==> left.command == CommandAt(t.workers[w]) && Enabled(c, t, Proceed(w, Error)))
  {
    RunFollows(c, Apply(c, s, a), acts, w);
    var p := RunAll(c, Apply(c, s, a), acts).workers[w];
    left := Left(p);
    OnlyIdleIsDone(p);
  }

  // ---------------------------------------------------------------- the refill lock

  predicate OwnStep(a: Action, w: nat) { a.Proceed? && a.w == w }

  // Steps of the worker alone, answered or not, take it to its reservation.
  ghost predicate MayReserve(c: Config, s: State, w: nat) {
    exists acts :: CanRun(c, s, acts) && (forall a :: a in acts ==> OwnStep(a, w))
                   && w < |RunAll(c, s, acts).workers| && RunAll(c, s, acts).workers[w] == RefillReserve
  }

  // Idle, or about to claim a lock that is gone.
  predicate ShutOut(s: State, w: nat) {
    w < |s.workers| && (s.workers[w] == Idle || (s.workers[w] == RefillClaim && !s.stores.lock))
  }

  lemma {:induction false} StaysShutOut(c: Config, s: State, acts: seq<Action>, w: nat)
    requires ShutOut(s, w) && CanRun(c, s, acts) && forall a :: a in acts ==> OwnStep(a, w)
    ensures ShutOut(RunAll(c, s, acts), w)
    decreases |acts|
  {
    if acts != [] {
      ShutOutStep(c, s, acts[0], w);
      StaysShutOut(c, Apply(c, s, acts[0]), acts[1..], w);
    }
  }

  lemma ShutOutStep(c: Config, s: State, a: Action, w: nat)
    requires ShutOut(s, w) && Enabled(c, s, a) && OwnStep(a, w)
    ensures ShutOut(Apply(c, s, a), w)
  {
  }

  // A refill about to claim can come to reserve, by steps of its own, if and only if the lock is there.
  lemma RefillReservesIff(c: Config, s: State, w: nat)
    requires w < |s.workers| && s.workers[w] == RefillClaim
    ensures MayReserve(c, s, w) <==> s.stores.lock
  {
    if s.stores.lock {
      OneStep(c, s, Proceed(w, Ok));
      assert RunAll(c, s, [Proceed(w, Ok)]).workers[w] == RefillReserve;
    } else {
      forall acts | CanRun(c, s, acts) && forall a :: a in acts ==> OwnStep(a, w)
        ensures ShutOut(RunAll(c, s, acts), w)
      {
        StaysShutOut(c, s, acts, w);
      }
    }
  }

  // The step adds a chunk to the reservation, from this place.
  predicate ReservesAt(c: Config, s: State, a: Action, p: Pc)
    requires Enabled(c, s, a)
  {
    a.Proceed? && s.workers[a.w] == p && Apply(c, s, a).stores.books.reserved > s.stores.books.reserved
  }

  predicate SetsLock(c: Config, s: State, a: Action)
    requires Enabled(c, s, a)
  {
    !s.stores.lock && Apply(c, s, a).stores.lock
  }

  ghost function ReservedBy(c: Config, s: State, acts: seq<Action>, p: Pc): nat
    requires CanRun(c, s, acts)
    decreases |acts|
  {
    if acts == [] then 0 else One(ReservesAt(c, s, acts[0], p)) + ReservedBy(c, Apply(c, s, acts[0]), acts[1..], p)
  }

  ghost function LockSets(c: Config, s: State, acts: seq<Action>): nat
    requires CanRun(c, s, acts)
    decreases |acts|
  {
    if acts == [] then 0 else One(SetsLock(c, s, acts[0])) + LockSets(c, Apply(c, s, acts[0]), acts[1..])
  }

  // Refills that have claimed and not yet reserved.
  function Claimed(workers: seq<Pc>): nat {
    if workers == [] then 0 else One(workers[0] == RefillReserve) + Claimed(workers[1..])
  }

  lemma {:induction false} ClaimedUpdate(workers: seq<Pc>, w: nat, p: Pc)
    requires w < |workers|
    ensures Claimed(workers[w := p]) + One(workers[w] == RefillReserve) == Claimed(workers) + One(p == RefillReserve)
  {
    if w > 0 {
      ClaimedUpdate(workers[1..], w - 1, p);
      assert workers[w := p][1..] == workers[1..][w - 1 := p];
    } else {
      assert workers[w := p][1..] == workers[1..];
    }
  }

  lemma {:induction false} NoneClaimed(workers: seq<Pc>)
    requires forall w :: 0 <= w < |workers| ==> workers[w] == Idle
    ensures Claimed(workers) == 0
  {
    if workers != [] { NoneClaimed(workers[1..]); }
  }

  // One step of a worker: what it reserves and whether it has claimed, against the lock.
  lemma WorkerPaysWithLock(x: Stores, p: Pc, reply: Reply, shadow: bool, full: bool)
    requires p != Idle
    ensures var m := WorkerStep(x, p, reply, shadow, full);
            One(p == RefillReserve && m.stores.books.reserved > x.books.reserved) + One(m.pc == RefillReserve) + One(m.stores.lock)
              <= One(!x.lock && m.stores.lock) + One(p == RefillReserve) + One(x.lock)
  {
    match p
    case RefillClaim =>
    case RefillReserve =>
    case RefillGrant =>
    case RefillRollback =>
    case Requeue =>
    case RequeueAdd =>
    case WarmLock =>
    case WarmRecheck =>
    case WarmReserve =>
    case WarmGrant(_) =>
    case WarmRollback(_) =>
    case WarmUnlock =>
  }

  lemma StepPaysWithLock(c: Config, s: State, a: Action)
    requires Enabled(c, s, a)
    ensures var t := Apply(c, s, a);
            One(ReservesAt(c, s, a, RefillReserve)) + Claimed(t.workers) + One(t.stores.lock)
              <= One(SetsLock(c, s, a)) + Claimed(s.workers) + One(s.stores.lock)
  {
    match a
    case Proceed(w, reply) =>
      WorkerPaysWithLock(s.stores, s.workers[w], reply, s.shadow, Exceeded(c, s));
      ClaimedUpdate(s.workers, w, Apply(c, s, a).workers[w]);
    case PopRefill(w) => ClaimedUpdate(s.workers, w, RefillClaim);
    case SeeMissingKey(w) => ClaimedUpdate(s.workers, w, WarmLock);
    case Crash(w) => ClaimedUpdate(s.workers, w, Idle);
    case _ =>
  }

  lemma {:induction false} RunPaysWithLock(c: Config, s: State, acts: seq<Action>)
    requires CanRun(c, s, acts)
    ensures var t := RunAll(c, s, acts);
            ReservedBy(c, s, acts, RefillReserve) + Claimed(t.workers) + One(t.stores.lock)
              <= LockSets(c, s, acts) + Claimed(s.workers) + One(s.stores.lock)
    decreases |acts|
  {
    if acts != [] {
      StepPaysWithLock(c, s, acts[0]);
      RunPaysWithLock(c, Apply(c, s, acts[0]), acts[1..]);
    }
  }

  // Over every run refills reserve at most once for every time the refill lock was set, by
  // whomever, and once more if it was there at first; a claim that is still open counts too.
  lemma RefillsNeverOutnumberLocks(c: Config, s0: State, acts: seq<Action>)
    requires Initial(s0) && CanRun(c, s0, acts)
    ensures ReservedBy(c, s0, acts, RefillReserve) + Claimed(RunAll(c, s0, acts).workers) <= LockSets(c, s0, acts) + One(s0.stores.lock)
  {
    NoneClaimed(s0.workers);
    RunPaysWithLock(c, s0, acts);
  }

  // ---------------------------------------------------------------- the initial reservation, shadow mode

  lemma StepReservesInitially(c: Config, s: State, a: Action)
    requires Enabled(c, s, a)
    ensures One(ReservesAt(c, s, a, WarmReserve)) + One(!Apply(c, s, a).stores.initApplied) <= One(!s.stores.initApplied)
  {
    if a.Proceed? {
      match s.workers[a.w]
      case WarmReserve =>
      case _ =>
    }
  }

  // Whatever is retried, lost or crashes, all warm-ups of a run together reserve at most one chunk.
  lemma {:induction false} InitialReservationOnce(c: Config, s: State, acts: seq<Action>)
    requires CanRun(c, s, acts)
    ensures ReservedBy(c, s, acts, WarmReserve) + One(!RunAll(c, s, acts).stores.initApplied) <= One(!s.stores.initApplied)
    decreases |acts|
  {
    if acts != [] {
      StepReservesInitially(c, s, acts[0]);
      InitialReservationOnce(c, Apply(c, s, acts[0]), acts[1..]);
    }
  }

  // No worker is about to grant or to return a chunk.
  ghost predicate NoGrants(s: State) {
    && s.shadow && s.stores.books.granted == 0
    && forall w :: 0 <= w < |s.workers| ==>
         var p := s.workers[w]; !p.RefillGrant? && !p.RefillRollback? && !p.WarmGrant? && !p.WarmRollback?
  }

  lemma StepKeepsNoGrants(c: Config, s: State, a: Action)
    requires NoGrants(s) && Enabled(c, s, a) && a != SetMode(false)
    ensures NoGrants(Apply(c, s, a))
  {
    match a
    case Proceed(w, reply) =>
      match s.workers[w] {
        case RefillClaim =>
        case RefillReserve =>
        case Requeue =>
        case RequeueAdd =>
        case WarmLock =>
        case WarmRecheck =>
        case WarmReserve =>
        case WarmUnlock =>
        case _ =>
      }
    case _ =>
  }

  lemma {:induction false} RunKeepsNoGrants(c: Config, s: State, acts: seq<Action>)
    requires NoGrants(s) && CanRun(c, s, acts) && SetMode(false) !in acts
    ensures NoGrants(RunAll(c, s, acts))
    decreases |acts|
  {
    if acts != [] {
      StepKeepsNoGrants(c, s, acts[0]);
      RunKeepsNoGrants(c, Apply(c, s, acts[0]), acts[1..]);
    }
  }

  // Shadow mode reserves in Postgres only: over every run that stays in it, Redis is granted nothing.
  lemma ShadowGrantsNothing(c: Config, s0: State, acts: seq<Action>)
    requires Initial(s0) && s0.shadow && CanRun(c, s0, acts) && SetMode(false) !in acts
    ensures RunAll(c, s0, acts).stores.books.granted == 0
  {
    RunKeepsNoGrants(c, s0, acts);
  }
}
