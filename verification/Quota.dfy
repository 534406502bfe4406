/**
 Two-store quota reservation for one campaign: chunks are reserved in Postgres and then granted
 in Redis, by any number of refill and warm-up workers whose steps interleave. Every store
 operation may succeed, fail, or take effect and lose its acknowledgement; workers may crash.
 Reserved and granted quota is counted in chunks; Micro gives the amount. Settling spend moves
 any amount out of the reservation, at any time.
 */
module Quota {

  // Where a worker is. `own` tells whether its reserve call added a chunk to Postgres, or found
  // the campaign's initial reservation already applied.
  datatype Pc =
    | Idle
    | RefillClaim | RefillReserve | RefillGrant | RefillRollback | Requeue | RequeueAdd
    | WarmLock | WarmRecheck | WarmReserve | WarmGrant(own: bool) | WarmRollback(own: bool) | WarmUnlock

  // chunk: the reservation unit; room: budget_limit - current_spend at first.
  datatype Config = Config(chunk: nat, room: int)

  function Micro(c: Config, chunks: int): int { c.chunk * chunks }

  datatype Books = Books(
    reserved: int,        // chunks reserved in Postgres less chunks released
    granted: int,         // all increments of budget:quota
    // history
    abandoned: nat,       // reservations whose worker crashed or never learned of them
    failedRollbacks: nat, // reservations whose release failed
    shadowed: nat,        // reservations made in shadow mode
    repeatWarms: nat,     // grants by a warm-up that reserved nothing
    phantoms: nat,        // grants that were reported as failed
    overReleases: nat)    // releases by a warm-up that reserved nothing

  // initApplied: the idempotency row of the initial reservation exists in Postgres.
  datatype Stores = Stores(books: Books, initApplied: bool, quotaKey: bool, lock: bool, refillNeeded: bool)

  // Settled spend: what it took out of reserved_amount, and what was beyond it.
  datatype Settlement = Settlement(taken: nat, beyond: nat)

  datatype State = State(shadow: bool, stores: Stores, workers: seq<Pc>, settled: Settlement)

  // campaign_quotas.reserved_amount, and budget_limit - current_spend.
  function Column(c: Config, s: State): int { Micro(c, s.stores.books.reserved) - s.settled.taken }
  function Room(c: Config, s: State): int { c.room - s.settled.taken - s.settled.beyond }

  datatype Reply = Ok | Error | Lost

  datatype Action =
    | PopRefill(w: nat)
    | SeeMissingKey(w: nat)
    | Proceed(w: nat, reply: Reply)
    | Crash(w: nat)
    | AskRefill // by the filter script, when the quota runs low
    | LockTaken | LockExpires // by other users of the refill lock, or its time to live
    | KeyLost | SetMode(shadow: bool)
    | Settle(amount: nat)

  datatype Moved = Moved(stores: Stores, pc: Pc)

  // ---------------------------------------------------------------- steps of one worker

  // `full`: the reserve transaction would exceed the campaign's budget.
  function RefillStep(x: Stores, p: Pc, reply: Reply, shadow: bool, full: bool): Moved {
    var b := x.books;
    match p
    case RefillClaim => // GETDEL of the refill lock
      Moved(if reply == Error then x else x.(lock := false), if x.lock && reply == Ok then RefillReserve else Idle)
    case RefillReserve => // a reservation under a key of its own
      if reply == Error || (reply == Lost && full) then Moved(x, Requeue)
      else if full then Moved(x, Idle)
      else if reply == Lost then Moved(x.(books := b.(reserved := b.reserved + 1, abandoned := b.abandoned + 1)), Requeue)
      else if shadow then Moved(x.(books := b.(reserved := b.reserved + 1, shadowed := b.shadowed + 1)), Idle)
      else Moved(x.(books := b.(reserved := b.reserved + 1)), RefillGrant)
    case RefillGrant => // INCRBY of the quota key
      if reply == Error then Moved(x, RefillRollback)
      else if reply == Lost
      then Moved(x.(books := b.(granted := b.granted + 1, phantoms := b.phantoms + 1), quotaKey := true), RefillRollback)
      else Moved(x.(books := b.(granted := b.granted + 1), quotaKey := true), Idle)
    case RefillRollback =>
      if reply == Error then Moved(x.(books := b.(failedRollbacks := b.failedRollbacks + 1)), Requeue)
      else Moved(x.(books := b.(reserved := b.reserved - 1)), Requeue)
    case Requeue => // SET of the refill lock, then SADD of the campaign, whatever they answer
      Moved(if reply == Error then x else x.(lock := true), RequeueAdd)
    case RequeueAdd =>
      Moved(if reply == Error then x else x.(refillNeeded := true), Idle)
    case _ => Moved(x, p)
  }

  // The initial reservation; its idempotency key is the same every time.
  function InitReserve(x: Stores, reply: Reply, shadow: bool, full: bool): Moved {
    var b := x.books;
    if reply == Error then Moved(x, WarmUnlock)
    else if x.initApplied then Moved(x, if reply == Lost || shadow then WarmUnlock else WarmGrant(false))
    else if full then Moved(x, WarmUnlock)
    else if reply == Lost
    then Moved(x.(books := b.(reserved := b.reserved + 1, abandoned := b.abandoned + 1), initApplied := true), WarmUnlock)
    else if shadow
    then Moved(x.(books := b.(reserved := b.reserved + 1, shadowed := b.shadowed + 1), initApplied := true), WarmUnlock)
    else Moved(x.(books := b.(reserved := b.reserved + 1), initApplied := true), WarmGrant(true))
  }

  function WarmStep(x: Stores, p: Pc, reply: Reply, shadow: bool, full: bool): Moved {
    var b := x.books;
    match p
    case WarmLock => // SETNX of the refill lock
      Moved(if reply == Error then x else x.(lock := true), if x.lock || reply != Ok then Idle else WarmRecheck)
    case WarmRecheck =>
      Moved(x, if x.quotaKey || reply != Ok then WarmUnlock else WarmReserve)
    case WarmReserve => InitReserve(x, reply, shadow, full)
    case WarmGrant(own) =>
      if reply == Error then Moved(x, WarmRollback(own))
      else if reply == Lost
      then Moved(x.(books := b.(granted := b.granted + 1, phantoms := b.phantoms + 1), quotaKey := true), WarmRollback(own))
      else if own then Moved(x.(books := b.(granted := b.granted + 1), quotaKey := true), WarmUnlock)
      else Moved(x.(books := b.(granted := b.granted + 1, repeatWarms := b.repeatWarms + 1), quotaKey := true), WarmUnlock)
    case WarmRollback(own) =>
      if reply == Error then Moved(if own then x.(books := b.(failedRollbacks := b.failedRollbacks + 1)) else x, WarmUnlock)
      else if own then Moved(x.(books := b.(reserved := b.reserved - 1)), WarmUnlock)
      else Moved(x.(books := b.(reserved := b.reserved - 1, overReleases := b.overReleases + 1)), WarmUnlock)
    case WarmUnlock =>
      Moved(if reply == Error then x else x.(lock := false), Idle)
    case _ => Moved(x, p)
  }

  function WorkerStep(x: Stores, p: Pc, reply: Reply, shadow: bool, full: bool): Moved {
    if p.RefillClaim? || p.RefillReserve? || p.RefillGrant? || p.RefillRollback? || p.Requeue? || p.RequeueAdd?
    then RefillStep(x, p, reply, shadow, full) else WarmStep(x, p, reply, shadow, full)
  }

  // ---------------------------------------------------------------- transitions

  // A worker that has a reserved chunk it has neither granted nor returned.
  predicate Holds(p: Pc) {
    p.RefillGrant? || p.RefillRollback? || (p.WarmGrant? && p.own) || (p.WarmRollback? && p.own)
  }

  predicate Releases(p: Pc, reply: Reply) { (p.RefillRollback? || p.WarmRollback?) && reply != Error }

  predicate MayProceed(x: Stores, p: Pc, reply: Reply) { p != Idle && (Releases(p, reply) ==> x.books.reserved >= 1) }

  predicate Exceeded(c: Config, s: State) { Column(c, s) + c.chunk > Room(c, s) }

  predicate Enabled(c: Config, s: State, a: Action) {
    match a
    case PopRefill(w) => w < |s.workers| && s.workers[w] == Idle && s.stores.refillNeeded
    case SeeMissingKey(w) =>
      w < |s.workers| && s.workers[w] == Idle && !s.stores.quotaKey && !(s.shadow && Column(c, s) > 0)
    case Proceed(w, reply) => // the check reserved_amount >= 0 refuses a release of more than is there
      && w < |s.workers| && MayProceed(s.stores, s.workers[w], reply)
      && (Releases(s.workers[w], reply) ==> Column(c, s) >= c.chunk)
    case Crash(w) => w < |s.workers|
    case _ => true
  }

  function Abandon(x: Stores, p: Pc): Stores {
    if Holds(p) then x.(books := x.books.(abandoned := x.books.abandoned + 1)) else x
  }

  function Apply(c: Config, s: State, a: Action): State
    requires Enabled(c, s, a)
  {
    var x := s.stores;
    match a
    case PopRefill(w) => s.(workers := s.workers[w := RefillClaim], stores := x.(refillNeeded := false))
    case SeeMissingKey(w) => s.(workers := s.workers[w := WarmLock])
    case Proceed(w, reply) =>
      var m := WorkerStep(x, s.workers[w], reply, s.shadow, Exceeded(c, s));
      s.(workers := s.workers[w := m.pc], stores := m.stores)
    case Crash(w) => s.(workers := s.workers[w := Idle], stores := Abandon(x, s.workers[w]))
    case AskRefill => if x.lock then s else s.(stores := x.(lock := true, refillNeeded := true))
    case LockTaken => s.(stores := x.(lock := true))
    case LockExpires => s.(stores := x.(lock := false))
    case KeyLost => s.(stores := x.(quotaKey := false))
    case SetMode(b) => s.(shadow := b)
    case Settle(x) => // GREATEST(0, reserved_amount - x), and current_spend + x
      var there := if Column(c, s) < 0 then 0 else Column(c, s);
      var taken := if x < there then x else there;
      s.(settled := Settlement(s.settled.taken + taken, s.settled.beyond + x - taken))
  }

  ghost predicate CanRun(c: Config, s: State, acts: seq<Action>)
    decreases |acts|
  {
    acts == [] || (Enabled(c, s, acts[0]) && CanRun(c, Apply(c, s, acts[0]), acts[1..]))
  }

  ghost function RunAll(c: Config, s: State, acts: seq<Action>): State
    requires CanRun(c, s, acts)
    decreases |acts|
  {
    if acts == [] then s else RunAll(c, Apply(c, s, acts[0]), acts[1..])
  }

  ghost predicate Initial(s: State) {
    && s.stores.books == Books(0, 0, 0, 0, 0, 0, 0, 0) && !s.stores.initApplied && s.settled == Settlement(0, 0)
    && forall w :: 0 <= w < |s.workers| ==> s.workers[w] == Idle
  }

  ghost predicate Reachable(c: Config, s: State) {
    exists s0, acts :: Initial(s0) && CanRun(c, s0, acts) && s == RunAll(c, s0, acts)
  }

  // ---------------------------------------------------------------- accounting

  // Chunks granted without a reservation behind them; chunks reserved without a grant, which are
  // either held by a worker or left behind.
  function Unbacked(b: Books): nat { b.repeatWarms + b.phantoms + b.overReleases }
  function LeftBehind(b: Books): nat { b.abandoned + b.failedRollbacks + b.shadowed }
  function Held(p: Pc): nat { if Holds(p) then 1 else 0 }
  function InFlight(workers: seq<Pc>): nat { if workers == [] then 0 else Held(workers[0]) + InFlight(workers[1..]) }
  function Ungranted(s: State): nat { InFlight(s.workers) + LeftBehind(s.stores.books) }

  ghost predicate Balanced(c: Config, s: State) {
    var b := s.stores.books;
    && b.reserved + Unbacked(b) == b.granted + Ungranted(s)
    && RoomOk(c, b.reserved, s.settled.taken)
  }

  predicate RoomOk(c: Config, n: int, taken: nat) { 0 <= n && taken <= Micro(c, n) && (n > 0 ==> Micro(c, n) <= c.room) }

  lemma {:induction false} InFlightUpdate(workers: seq<Pc>, w: nat, p: Pc)
    requires w < |workers|
    ensures InFlight(workers[w := p]) == InFlight(workers) + Held(p) - Held(workers[w])
  {
    if w > 0 {
      InFlightUpdate(workers[1..], w - 1, p);
      assert workers[w := p][1..] == workers[1..][w - 1 := p];
    } else {
      assert workers[w := p][1..] == workers[1..];
    }
  }

  // A step moves the books by as much as the worker's own place accounts for.
  ghost predicate Accounted(x: Stores, p: Pc, reply: Reply, m: Moved, full: bool) {
    var b, d := x.books, m.stores.books;
    && d.reserved + Unbacked(d) - d.granted - LeftBehind(d) - Held(m.pc) == b.reserved + Unbacked(b) - b.granted - LeftBehind(b) - Held(p)
    && ReservedMoves(b.reserved, d.reserved, Releases(p, reply), full)
  }

  predicate ReservedMoves(n: int, m: int, releases: bool, full: bool) {
    m == n || (m == n - 1 && n >= 1 && releases) || (m == n + 1 && !full)
  }

  lemma RefillAccounted(x: Stores, p: Pc, reply: Reply, shadow: bool, full: bool)
    requires MayProceed(x, p, reply)
    ensures Accounted(x, p, reply, RefillStep(x, p, reply, shadow, full), full)
  {
    match p
    case RefillClaim =>
    case RefillReserve =>
    case RefillGrant =>
    case RefillRollback =>
    case _ =>
  }

  lemma InitReserveAccounted(x: Stores, reply: Reply, shadow: bool, full: bool)
    ensures Accounted(x, WarmReserve, reply, InitReserve(x, reply, shadow, full), full)
  {
  }

  lemma WarmGrantAccounted(x: Stores, own: bool, reply: Reply, shadow: bool, full: bool)
    ensures Accounted(x, WarmGrant(own), reply, WarmStep(x, WarmGrant(own), reply, shadow, full), full)
  {
  }

  lemma WarmRollbackAccounted(x: Stores, own: bool, reply: Reply, shadow: bool, full: bool)
    requires MayProceed(x, WarmRollback(own), reply)
    ensures Accounted(x, WarmRollback(own), reply, WarmStep(x, WarmRollback(own), reply, shadow, full), full)
  {
  }

  lemma WarmAccounted(x: Stores, p: Pc, reply: Reply, shadow: bool, full: bool)
    requires MayProceed(x, p, reply)
    ensures Accounted(x, p, reply, WarmStep(x, p, reply, shadow, full), full)
  {
    match p
    case WarmLock =>
    case WarmRecheck =>
    case WarmReserve => InitReserveAccounted(x, reply, shadow, full);
    case WarmGrant(own) => WarmGrantAccounted(x, own, reply, shadow, full);
    case WarmRollback(own) => WarmRollbackAccounted(x, own, reply, shadow, full);
    case WarmUnlock =>
    case _ =>
  }

  lemma StepAccounted(x: Stores, p: Pc, reply: Reply, shadow: bool, full: bool)
    requires MayProceed(x, p, reply)
    ensures Accounted(x, p, reply, WorkerStep(x, p, reply, shadow, full), full)
  {
    RefillAccounted(x, p, reply, shadow, full);
    WarmAccounted(x, p, reply, shadow, full);
  }

  lemma RoomKept(c: Config, n: int, m: int, taken: nat, beyond: nat, releases: bool, full: bool)
    requires RoomOk(c, n, taken) && ReservedMoves(n, m, releases, full)
    requires releases ==> Micro(c, n) - taken >= c.chunk
    requires full == (Micro(c, n) - taken + c.chunk > c.room - taken - beyond)
    ensures RoomOk(c, m, taken)
  {
    assert c.chunk * n == c.chunk * (n - 1) + c.chunk && c.chunk * (n + 1) == c.chunk * n + c.chunk;
  }

  lemma {:induction false} ProceedKeepsBalanced(c: Config, s: State, w: nat, reply: Reply)
    requires Balanced(c, s) && Enabled(c, s, Proceed(w, reply))
    ensures Balanced(c, Apply(c, s, Proceed(w, reply)))
  {
    var m := WorkerStep(s.stores, s.workers[w], reply, s.shadow, Exceeded(c, s));
    StepAccounted(s.stores, s.workers[w], reply, s.shadow, Exceeded(c, s));
    InFlightUpdate(s.workers, w, m.pc);
    RoomKept(c, s.stores.books.reserved, m.stores.books.reserved, s.settled.taken, s.settled.beyond,
             Releases(s.workers[w], reply), Exceeded(c, s));
  }

  lemma SettleKeepsRoom(c: Config, n: int, taken: nat, more: nat)
    requires RoomOk(c, n, taken) && taken + more <= Micro(c, n)
    ensures RoomOk(c, n, taken + more)
  {
  }

  lemma {:induction false} SettleKeepsBalanced(c: Config, s: State, amount: nat)
    requires Balanced(c, s)
    ensures Balanced(c, Apply(c, s, Settle(amount)))
  {
    var t := Apply(c, s, Settle(amount));
    SettleKeepsRoom(c, s.stores.books.reserved, s.settled.taken, t.settled.taken - s.settled.taken);
  }

  lemma {:induction false} StepKeepsBalanced(c: Config, s: State, a: Action)
    requires Balanced(c, s) && Enabled(c, s, a)
    ensures Balanced(c, Apply(c, s, a))
  {
    match a
    case Proceed(w, reply) => ProceedKeepsBalanced(c, s, w, reply);
    case Settle(x) => SettleKeepsBalanced(c, s, x);
    case PopRefill(w) => InFlightUpdate(s.workers, w, RefillClaim);
    case SeeMissingKey(w) => InFlightUpdate(s.workers, w, WarmLock);
    case Crash(w) => InFlightUpdate(s.workers, w, Idle);
    case _ =>
  }

  lemma {:induction false} RunKeepsBalanced(c: Config, s: State, acts: seq<Action>)
    requires Balanced(c, s) && CanRun(c, s, acts)
    ensures Balanced(c, RunAll(c, s, acts))
    decreases |acts|
  {
    if acts != [] {
      StepKeepsBalanced(c, s, acts[0]);
      RunKeepsBalanced(c, Apply(c, s, acts[0]), acts[1..]);
    }
  }

  lemma {:induction false} NoneInFlight(workers: seq<Pc>)
    requires forall w :: 0 <= w < |workers| ==> workers[w] == Idle
    ensures InFlight(workers) == 0
  {
    if workers != [] { NoneInFlight(workers[1..]); }
  }

  // The two stores at every step of every run, whatever was settled in between: reservations plus
  // unbacked chunks equal grants plus ungranted chunks, so Redis exceeds Postgres exactly when the
  // unbacked outnumber the ungranted; what is reserved now plus what settling took out of it is
  // what was reserved less released; and with it the spend never exceeds the campaign's budget,
  // but for spend settled beyond the reservation.
  lemma {:induction false} StoresBalance(c: Config, s: State)
    requires Reachable(c, s)
    ensures var b := s.stores.books;
            && Column(c, s) + s.settled.taken + Micro(c, Unbacked(b)) == Micro(c, b.granted) + Micro(c, Ungranted(s))
            && (b.granted <= b.reserved <==> Unbacked(b) <= Ungranted(s))
            && 0 <= Column(c, s) && (b.reserved > 0 ==> Column(c, s) <= Room(c, s) + s.settled.beyond)
  {
    ReachableBalanced(c, s);
    BalancedInMicro(c, s);
  }

  lemma {:induction false} ReachableBalanced(c: Config, s: State)
    requires Reachable(c, s)
    ensures Balanced(c, s)
  {
    var s0, acts :| Initial(s0) && CanRun(c, s0, acts) && s == RunAll(c, s0, acts);
    InitialBalanced(c, s0);
    RunKeepsBalanced(c, s0, acts);
  }

  lemma {:induction false} InitialBalanced(c: Config, s: State)
    requires Initial(s)
    ensures Balanced(c, s)
  {
    NoneInFlight(s.workers);
    assert Micro(c, 0) == 0;
  }

  lemma BalancedInMicro(c: Config, s: State)
    requires Balanced(c, s)
    ensures var b := s.stores.books;
            && Column(c, s) + s.settled.taken + Micro(c, Unbacked(b)) == Micro(c, b.granted) + Micro(c, Ungranted(s))
            && (b.granted <= b.reserved <==> Unbacked(b) <= Ungranted(s))
            && 0 <= Column(c, s) && (b.reserved > 0 ==> Column(c, s) <= Room(c, s) + s.settled.beyond)
  {
    var b := s.stores.books;
    MicroAdds(c, b.reserved, Unbacked(b));
    MicroAdds(c, b.granted, Ungranted(s));
  }

  lemma MicroAdds(c: Config, a: int, b: int)
    ensures Micro(c, a + b) == Micro(c, a) + Micro(c, b)
  {
  }

  // With no grant by a repeated warm-up, no lost acknowledgement of a grant, and no release of a
  // chunk the warm-up had not reserved, Redis never holds quota Postgres has not reserved.
  lemma RedisNeverUnreserved(c: Config, s: State)
    requires Reachable(c, s) && Unbacked(s.stores.books) == 0
    ensures s.stores.books.granted <= s.stores.books.reserved
  {
    StoresBalance(c, s);
  }
}
