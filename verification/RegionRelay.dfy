/**
 The region outbox relay as a state machine. Every SQL statement, transaction and Redis
 command is one atomic step of one worker; steps of any number of workers interleave with
 inserts, clock ticks, routing-epoch changes, key expiry, the stale-row reclaim, failed
 statements, statements whose acknowledgement is lost, and crashes.
 */
module RegionRelay {
  import opened Common

  type EventId = nat
  type WorkerId = nat

  const STALE_AFTER := 60 // seconds a row may stay PROCESSING before it is reclaimed

  // Identity of a confirmed dedup proposal, and of the Redis key derived from it.
  datatype Key = Key(epoch: nat, event: EventId)

  datatype Status = Pending | Processing | Delivered
  datatype Row = Row(status: Status, startedAt: Option<nat>)

  datatype Outcome = Confirmed | AlreadyConfirmed
  datatype Claim = NoClaim | Claimed(outcome: Outcome, key: Key)

  // The places where the idempotency table is consulted.
  datatype Stage = PlainCheck | AfterClaim | AfterFirstNX | SideEffects | AfterSecondNX

  // The next statement a worker will execute for the first row of its batch.
  datatype Pc =
    | AtClaim
    | AtCheck(stage: Stage)
    | AtSetNX(second: bool, shard: nat, allNew: bool)
    | AtHandle
    | AtCommit
    | AtMark
    | AtRevert

  // `counted` are the rows the call reports as delivered. `appliedBefore` and `nxFailed` are
  // history: the idempotency row existed at the first statement of the attempt, the claim or,
  // without an adapter, the check; a SETNX errored in the attempt.
  datatype Worker =
    | Idle(counted: seq<EventId>)
    | Busy(batch: seq<EventId>, pc: Pc, claim: Claim, appliedBefore: bool, nxFailed: bool,
           counted: seq<EventId>)

  // `order` lists the delivery rows by creation time; `handled` counts successful handler runs.
  datatype State = State(
    order: seq<EventId>,
    rows: map<EventId, Row>,
    idem: set<EventId>,
    proposals: set<Key>,
    redis: seq<set<Key>>,
    epoch: nat,
    now: nat,
    workers: map<WorkerId, Worker>,
    handled: multiset<EventId>)

  // Whether a dedup adapter is configured, and the LIMIT of the polling query.
  datatype Config = Config(adapter: bool, limit: nat)

  datatype Action =
    | Insert(event: EventId)
    | Tick(seconds: nat)
    | SetEpoch(value: nat)
    | Expire(shard: nat, key: Key)
    | Reclaim
    | Poll(worker: WorkerId, locked: set<EventId>)
    | Run(worker: WorkerId)
    | Fail(worker: WorkerId)
    | AckLost(worker: WorkerId)
    | Crash(worker: WorkerId)

  // ---------------------------------------------------------------- control flow

  function Begin(c: Config, batch: seq<EventId>, counted: seq<EventId>): Worker {
    if batch == [] then Idle(counted)
    else Busy(batch, if c.adapter then AtClaim else AtCheck(PlainCheck), NoClaim, false, false, counted)
  }

  function SideEntry(shards: nat, claim: Claim): Pc {
    match claim
    case NoClaim => AtHandle
    case Claimed(AlreadyConfirmed, _) => AtCheck(SideEffects)
    case Claimed(Confirmed, _) => if shards > 0 then AtSetNX(true, 0, true) else AtHandle
  }

  function FirstNX(shards: nat, claim: Claim): Pc {
    if shards > 0 then AtSetNX(false, 0, true) else SideEntry(shards, claim)
  }

  function NotApplied(shards: nat, claim: Claim, stage: Stage): Pc {
    match stage
    case AfterClaim => FirstNX(shards, claim)
    case AfterFirstNX => SideEntry(shards, claim)
    case PlainCheck => SideEntry(shards, claim)
    case _ => AtHandle
  }

  function SetNXDone(shards: nat, claim: Claim, second: bool, ok: bool): Pc {
    if second then (if ok then AtHandle else AtCheck(AfterSecondNX))
    else if !ok && claim.Claimed? && claim.outcome.Confirmed? then AtCheck(AfterFirstNX)
    else SideEntry(shards, claim)
  }

  predicate KeyKnown(s: State, b: Worker) {
    b.Busy? && b.pc.AtSetNX? && b.claim.Claimed? && b.pc.shard < |s.redis|
  }

  // Effect of the pending statement on the shared tables.
  function Effect(s: State, b: Worker): State
    requires b.Busy? && b.batch != []
  {
    var e := b.batch[0];
    match b.pc
    case AtClaim => s.(proposals := s.proposals + {Key(s.epoch, e)})
    case AtCheck(_) => s
    case AtSetNX(_, i, _) =>
      if KeyKnown(s, b) then s.(redis := s.redis[i := s.redis[i] + {b.claim.key}]) else s
    case AtHandle => s.(handled := s.handled + multiset{e})
    case AtCommit =>
      if e in s.idem then s
      else s.(idem := s.idem + {e}, rows := s.rows[e := Row(Delivered, None)])
    case AtMark => s.(rows := s.rows[e := Row(Delivered, None)])
    case AtRevert => s.(rows := s.rows[e := Row(Pending, None)])
  }

  // The worker after its statement succeeded in state `s`.
  function OnSuccess(c: Config, s: State, b: Worker): Worker
    requires b.Busy? && b.batch != []
  {
    var e := b.batch[0];
    match b.pc
    case AtClaim =>
      var key := Key(s.epoch, e);
      var claim := Claimed(if key in s.proposals then AlreadyConfirmed else Confirmed, key);
      b.(claim := claim, appliedBefore := e in s.idem,
         pc := if claim.outcome.AlreadyConfirmed? then AtCheck(AfterClaim) else FirstNX(|s.redis|, claim))
    case AtCheck(stage) =>
      b.(appliedBefore := if stage.PlainCheck? then e in s.idem else b.appliedBefore,
         pc := if e in s.idem then AtMark else NotApplied(|s.redis|, b.claim, stage))
    case AtSetNX(second, i, allNew) =>
      var ok := allNew && KeyKnown(s, b) && b.claim.key !in s.redis[i];
      b.(pc := if i + 1 < |s.redis| then AtSetNX(second, i + 1, ok) else SetNXDone(|s.redis|, b.claim, second, ok))
    case AtHandle => b.(pc := AtCommit)
    case AtCommit => Begin(c, b.batch[1..], b.counted + [e])
    case AtMark => Begin(c, b.batch[1..], b.counted + [e])
    case AtRevert => Begin(c, b.batch[1..], b.counted)
  }

  // The worker after its statement returned an error.
  function OnFailure(c: Config, s: State, b: Worker): Worker
    requires b.Busy? && b.batch != []
  {
    match b.pc
    case AtSetNX(second, _, _) =>
      b.(nxFailed := true, pc := if second then AtHandle else SideEntry(|s.redis|, b.claim))
    case AtRevert => Begin(c, b.batch[1..], b.counted)
    case _ => b.(pc := AtRevert)
  }

  // ---------------------------------------------------------------- shared statements

  function Claimable(order: seq<EventId>, rows: map<EventId, Row>, locked: set<EventId>): seq<EventId> {
    if order == [] then []
    else
      var rest := Claimable(order[1..], rows, locked);
      if order[0] in rows && rows[order[0]].status.Pending? && order[0] !in locked then [order[0]] + rest else rest
  }

  // The rows the polling query returns: pending, not locked elsewhere, oldest first, at most `limit`.
  function Polled(c: Config, s: State, locked: set<EventId>): seq<EventId> {
    var all := Claimable(s.order, s.rows, locked);
    if |all| <= c.limit then all else all[..c.limit]
  }

  predicate Stale(s: State, r: Row) {
    r.status.Processing? && r.startedAt.Some? && r.startedAt.value + STALE_AFTER < s.now
  }

  function ReclaimStale(s: State): State {
    s.(rows := map e | e in s.rows :: if Stale(s, s.rows[e]) then Row(Pending, None) else s.rows[e])
  }

  function StartProcessing(s: State, ids: seq<EventId>): State {
    s.(rows := map e | e in s.rows :: if e in ids then Row(Processing, Some(s.now)) else s.rows[e])
  }

  // ---------------------------------------------------------------- transitions

  predicate BusyAt(s: State, w: WorkerId) {
    w in s.workers && s.workers[w].Busy? && s.workers[w].batch != []
  }

  // A statement of `w`, answered or not.
  predicate OwnStep(a: Action, w: WorkerId) { a == Run(w) || a == Fail(w) || a == AckLost(w) }

  predicate InUse(s: State, key: Key) {
    exists w :: w in s.workers && s.workers[w].Busy? && s.workers[w].claim.Claimed? && s.workers[w].claim.key == key
  }

  predicate Enabled(c: Config, s: State, a: Action) {
    match a
    case Insert(e) => e !in s.rows && e !in s.order
    case Tick(_) => true
    case SetEpoch(_) => true
    case Expire(i, key) => i < |s.redis| && !InUse(s, key) // the TTL outlives any single attempt
    case Reclaim => true
    case Poll(w, _) => w in s.workers ==> s.workers[w].Idle?
    case Run(w) => BusyAt(s, w)
    case Fail(w) => BusyAt(s, w)
    case AckLost(w) => BusyAt(s, w) && !s.workers[w].pc.AtCheck? && !s.workers[w].pc.AtHandle?
    case Crash(w) => w in s.workers
  }

  function WithWorker(s: State, w: WorkerId, b: Worker): State {
    s.(workers := s.workers[w := b])
  }

  function Apply(c: Config, s: State, a: Action): State
    requires Enabled(c, s, a)
  {
    match a
    case Insert(e) => s.(order := s.order + [e], rows := s.rows[e := Row(Pending, None)])
    case Tick(d) => s.(now := s.now + d)
    case SetEpoch(v) => s.(epoch := v)
    case Expire(i, key) => s.(redis := s.redis[i := s.redis[i] - {key}])
    case Reclaim => ReclaimStale(s)
    case Poll(w, locked) =>
      var ids := Polled(c, s, locked);
      WithWorker(StartProcessing(s, ids), w, Begin(c, ids, []))
    case Run(w) => WithWorker(Effect(s, s.workers[w]), w, OnSuccess(c, s, s.workers[w]))
    case Fail(w) => WithWorker(s, w, OnFailure(c, s, s.workers[w]))
    case AckLost(w) => WithWorker(Effect(s, s.workers[w]), w, OnFailure(c, s, s.workers[w]))
    case Crash(w) => WithWorker(s, w, Idle([]))
  }

  ghost predicate CanRun(c: Config, s: State, acts: seq<Action>)
    decreases |acts|
  {
    acts == [] || (Enabled(c, s, acts[0]) && CanRun(c, Apply(c, s, acts[0]), acts[1..]))
  }

  ghost function RunAll(c: Config, s: State, acts: seq<Action>): State
    requires CanRun(c, s, acts)
    decreases |acts|
  {
    if acts == [] then s else RunAll(c, Apply(c, s, acts[0]), acts[1..])
  }

  ghost predicate Initial(s: State) {
    && s.order == [] && s.rows == map[] && s.idem == {} && s.proposals == {}
    && s.workers == map[] && s.handled == multiset{}
    && forall i :: 0 <= i < |s.redis| ==> s.redis[i] == {}
  }

  ghost predicate Reachable(c: Config, s: State) {
    exists s0, acts :: Initial(s0) && CanRun(c, s0, acts) && s == RunAll(c, s0, acts)
  }

  // ---------------------------------------------------------------- safety

  ghost predicate TablesOk(s: State) {
    && Distinct(s.order)
    && (forall e :: e in s.rows <==> e in s.order)
    && s.idem <= s.rows.Keys
    && (forall e :: e in s.rows && s.rows[e].status.Processing? ==>
          s.rows[e].startedAt.Some? && s.rows[e].startedAt.value <= s.now)
    && (forall e :: e in s.rows && s.rows[e].status.Delivered? ==> e in s.idem)
    && (forall e :: e in s.idem ==> s.handled[e] >= 1)
  }

  // What holds of a worker, whatever the other workers do.
  ghost predicate WorkerOk(s: State, b: Worker) {
    && (forall e :: e in b.counted ==> e in s.idem)
    && (b.Busy? ==>
          && b.batch != []
          && (forall e :: e in b.batch ==> e in s.rows)
          && ClaimOk(s, b)
          && (b.pc.AtCommit? ==> s.handled[b.batch[0]] >= 1)
          && (b.pc.AtMark? ==> b.batch[0] in s.idem)
          && (b.appliedBefore ==> b.batch[0] in s.idem)
          && (b.appliedBefore && b.pc.AtHandle? ==> MayReplay(s, b)))
  }

  // The one way an attempt that began after the event was applied can reach the handler again.
  ghost predicate MayReplay(s: State, b: Worker) {
    b.Busy? && b.claim.Claimed? && b.claim.outcome.Confirmed? && (b.nxFailed || |s.redis| == 0)
  }

  ghost predicate ClaimOk(s: State, b: Worker)
    requires b.Busy? && b.batch != []
  {
    && (b.claim.Claimed? ==> b.claim.key.event == b.batch[0] && b.claim.key in s.proposals)
    && (b.claim.NoClaim? && b.appliedBefore ==> b.pc.AtMark? || b.pc.AtRevert?)
    && (b.pc.AtCheck? && b.pc.stage.PlainCheck? ==> !b.appliedBefore && b.claim.NoClaim?)
    && (b.pc.AtClaim? ==> !b.appliedBefore && b.claim.NoClaim?)
    && (b.pc.AtSetNX? ==>
          && KeyKnown(s, b)
          && (b.pc.second ==> b.claim.outcome.Confirmed?)
          && (forall j :: 0 <= j < b.pc.shard ==> b.claim.key in s.redis[j])
          && (b.pc.second && !b.nxFailed ==> forall j :: 0 <= j < |s.redis| ==> b.claim.key in s.redis[j])
          && (b.pc.second && !b.nxFailed && b.pc.shard > 0 ==> !b.pc.allNew))
    && (b.pc.AtCheck? && b.pc.stage in {AfterClaim, AfterFirstNX} ==> b.claim.Claimed?)
    && (b.pc.AtCheck? && b.pc.stage == AfterClaim ==> b.claim.outcome.AlreadyConfirmed?)
    && (b.pc.AtCheck? && b.pc.stage == AfterFirstNX ==>
          b.claim.outcome.Confirmed? && forall j :: 0 <= j < |s.redis| ==> b.claim.key in s.redis[j])
  }

  ghost predicate Inv(s: State) {
    TablesOk(s) && forall w :: w in s.workers ==> WorkerOk(s, s.workers[w])
  }

  // Everything a worker relies on survives from `s` to `t`.
  ghost predicate Keeps(s: State, t: State, b: Worker) {
    && s.idem <= t.idem && s.proposals <= t.proposals && s.rows.Keys <= t.rows.Keys
    && |s.redis| == |t.redis|
    && (forall e :: s.handled[e] <= t.handled[e])
    && (b.Busy? && b.claim.Claimed? ==>
          forall j :: 0 <= j < |s.redis| && b.claim.key in s.redis[j] ==> b.claim.key in t.redis[j])
  }

  lemma OthersUndisturbed(s: State, t: State, b: Worker)
    requires WorkerOk(s, b) && Keeps(s, t, b)
    ensures WorkerOk(t, b)
  {
  }

  lemma EffectKeepsOthers(s: State, b: Worker, other: Worker)
    requires TablesOk(s) && WorkerOk(s, b) && b.Busy?
    ensures Keeps(s, Effect(s, b), other)
  {
  }

  lemma EffectKeepsTables(s: State, b: Worker)
    requires TablesOk(s) && WorkerOk(s, b) && b.Busy?
    ensures TablesOk(Effect(s, b))
  {
  }

  lemma EffectKeeps(s: State, b: Worker, other: Worker)
    requires TablesOk(s) && WorkerOk(s, b) && b.Busy?
    ensures Keeps(s, Effect(s, b), other)
    ensures TablesOk(Effect(s, b))
  {
    EffectKeepsOthers(s, b, other);
    EffectKeepsTables(s, b);
  }

  lemma SuccessAtClaim(c: Config, s: State, b: Worker)
    requires TablesOk(s) && WorkerOk(s, b) && b.Busy? && b.pc.AtClaim?
    ensures WorkerOk(Effect(s, b), OnSuccess(c, s, b))
  {
  }

  lemma SuccessAtCheck(c: Config, s: State, b: Worker)
    requires TablesOk(s) && WorkerOk(s, b) && b.Busy? && b.pc.AtCheck?
    ensures WorkerOk(Effect(s, b), OnSuccess(c, s, b))
  {
  }

  lemma SuccessAtSetNX(c: Config, s: State, b: Worker)
    requires TablesOk(s) && WorkerOk(s, b) && b.Busy? && b.pc.AtSetNX?
    ensures WorkerOk(Effect(s, b), OnSuccess(c, s, b))
  {
    var t, n := Effect(s, b), OnSuccess(c, s, b);
    assert forall j :: 0 <= j <= b.pc.shard ==> b.claim.key in t.redis[j];
    assert ClaimOk(t, n);
  }

  lemma SuccessOk(c: Config, s: State, b: Worker)
    requires TablesOk(s) && WorkerOk(s, b) && b.Busy?
    ensures WorkerOk(Effect(s, b), OnSuccess(c, s, b))
  {
    match b.pc
    case AtClaim => SuccessAtClaim(c, s, b);
    case AtCheck(_) => SuccessAtCheck(c, s, b);
    case AtSetNX(_, _, _) => SuccessAtSetNX(c, s, b);
    case _ =>
  }

  lemma FailureOk(c: Config, s: State, b: Worker)
    requires TablesOk(s) && WorkerOk(s, b) && b.Busy?
    ensures WorkerOk(s, OnFailure(c, s, b))
  {
    if b.pc.AtSetNX? { assert KeyKnown(s, b); }
  }

  // The statement took effect, but its worker does not know.
  lemma LostAckOk(c: Config, s: State, b: Worker)
    requires TablesOk(s) && WorkerOk(s, b) && b.Busy?
    ensures WorkerOk(Effect(s, b), OnFailure(c, s, b))
  {
    FailureOk(c, s, b);
    EffectKeepsOthers(s, b, OnFailure(c, s, b));
    OthersUndisturbed(s, Effect(s, b), OnFailure(c, s, b));
  }

  lemma ClaimablePending(order: seq<EventId>, rows: map<EventId, Row>, locked: set<EventId>)
    requires Distinct(order)
    ensures Distinct(Claimable(order, rows, locked))
    ensures forall e :: e in Claimable(order, rows, locked) <==>
              e in order && e in rows && rows[e].status.Pending? && e !in locked
  {
    if order != [] {
      var tail := order[1..];
      forall i, j | 0 <= i < j < |tail| ensures tail[i] != tail[j] {
        assert order[i + 1] != order[j + 1];
      }
      ClaimablePending(tail, rows, locked);
      assert forall i :: 0 <= i < |tail| ==> tail[i] == order[i + 1] && order[0] != order[i + 1];
    }
  }

  // One worker moved to a good place, the tables stayed good, the others were not disturbed.
  lemma InvByWorker(s: State, t: State, w: WorkerId)
    requires Inv(s) && TablesOk(t)
    requires w in t.workers && t.workers.Keys == s.workers.Keys + {w} && WorkerOk(t, t.workers[w])
    requires forall v :: v in s.workers && v != w ==> t.workers[v] == s.workers[v] && Keeps(s, t, s.workers[v])
    ensures Inv(t)
  {
    forall v | v in t.workers ensures WorkerOk(t, t.workers[v]) {
      if v != w { OthersUndisturbed(s, t, s.workers[v]); }
    }
  }

  // A step of the environment: no worker moves.
  lemma InvByEnvironment(s: State, t: State)
    requires Inv(s) && TablesOk(t) && t.workers == s.workers
    requires forall v :: v in s.workers ==> Keeps(s, t, s.workers[v])
    ensures Inv(t)
  {
    forall v | v in t.workers ensures WorkerOk(t, t.workers[v]) {
      OthersUndisturbed(s, t, s.workers[v]);
    }
  }

  lemma MovedWorker(s: State, mid: State, w: WorkerId, b: Worker)
    requires Inv(s) && TablesOk(mid) && mid.workers == s.workers && w in s.workers
    requires WorkerOk(mid, b)
    requires forall v :: v in s.workers && v != w ==> Keeps(s, mid, s.workers[v])
    ensures Inv(WithWorker(mid, w, b))
  {
    var t := WithWorker(mid, w, b);
    assert Keeps(mid, t, b);
    OthersUndisturbed(mid, t, b);
    forall v | v in s.workers && v != w ensures t.workers[v] == s.workers[v] && Keeps(s, t, s.workers[v]) {
      assert Keeps(s, mid, s.workers[v]);
    }
    InvByWorker(s, t, w);
  }

  lemma WorkerStepKeepsInv(c: Config, s: State, a: Action)
    requires Inv(s) && Enabled(c, s, a) && (a.Run? || a.Fail? || a.AckLost?)
    ensures Inv(Apply(c, s, a))
  {
    var w := a.worker;
    var b := s.workers[w];
    assert WorkerOk(s, b);
    forall v | v in s.workers ensures Keeps(s, Effect(s, b), s.workers[v]) {
      EffectKeeps(s, b, s.workers[v]);
    }
    EffectKeeps(s, b, b);
    match a
    case Run(_) => SuccessOk(c, s, b); MovedWorker(s, Effect(s, b), w, OnSuccess(c, s, b));
    case Fail(_) => FailureOk(c, s, b); MovedWorker(s, s, w, OnFailure(c, s, b));
    case AckLost(_) => LostAckOk(c, s, b); MovedWorker(s, Effect(s, b), w, OnFailure(c, s, b));
  }

  lemma PollKeepsInv(c: Config, s: State, w: WorkerId, locked: set<EventId>)
    requires Inv(s) && Enabled(c, s, Poll(w, locked))
    ensures Inv(Apply(c, s, Poll(w, locked)))
  {
    ClaimablePending(s.order, s.rows, locked);
    InvByWorker(s, Apply(c, s, Poll(w, locked)), w);
  }

  lemma InsertKeepsInv(c: Config, s: State, e: EventId)
    requires Inv(s) && Enabled(c, s, Insert(e))
    ensures Inv(Apply(c, s, Insert(e)))
  {
    var t := Apply(c, s, Insert(e));
    assert forall x :: x in t.order <==> x in s.order || x == e;
    InvByEnvironment(s, t);
  }

  lemma EnvironmentKeepsInv(c: Config, s: State, a: Action)
    requires Inv(s) && Enabled(c, s, a) && (a.Tick? || a.SetEpoch? || a.Expire? || a.Reclaim?)
    ensures Inv(Apply(c, s, a))
  {
    InvByEnvironment(s, Apply(c, s, a));
  }

  lemma CrashKeepsInv(c: Config, s: State, w: WorkerId)
    requires Inv(s) && Enabled(c, s, Crash(w))
    ensures Inv(Apply(c, s, Crash(w)))
  {
    InvByWorker(s, Apply(c, s, Crash(w)), w);
  }

  lemma StepKeepsInv(c: Config, s: State, a: Action)
    requires Inv(s) && Enabled(c, s, a)
    ensures Inv(Apply(c, s, a))
  {
    match a
    case Run(_) => WorkerStepKeepsInv(c, s, a);
    case Fail(_) => WorkerStepKeepsInv(c, s, a);
    case AckLost(_) => WorkerStepKeepsInv(c, s, a);
    case Poll(w, locked) => PollKeepsInv(c, s, w, locked);
    case Crash(w) => CrashKeepsInv(c, s, w);
    case Insert(e) => InsertKeepsInv(c, s, e);
    case Tick(_) => EnvironmentKeepsInv(c, s, a);
    case SetEpoch(_) => EnvironmentKeepsInv(c, s, a);
    case Expire(_, _) => EnvironmentKeepsInv(c, s, a);
    case Reclaim => EnvironmentKeepsInv(c, s, a);
  }

  lemma {:induction false} RunKeepsInv(c: Config, s: State, acts: seq<Action>)
    requires Inv(s) && CanRun(c, s, acts)
    ensures Inv(RunAll(c, s, acts))
    decreases |acts|
  {
    if acts != [] {
      StepKeepsInv(c, s, acts[0]);
      RunKeepsInv(c, Apply(c, s, acts[0]), acts[1..]);
    }
  }

  lemma ReachableInv(c: Config, s: State)
    requires Reachable(c, s)
    ensures Inv(s)
  {
    var s0, acts :| Initial(s0) && CanRun(c, s0, acts) && s == RunAll(c, s0, acts);
    RunKeepsInv(c, s0, acts);
  }

  // A delivered row has its idempotency row, and the handler succeeded for it earlier in the
  // run; so does every row a call reports as delivered, even one it left PROCESSING.
  lemma DeliveredWasHandled(c: Config, s: State, e: EventId)
    requires Reachable(c, s)
    ensures e in s.rows && s.rows[e].status.Delivered? ==> e in s.idem
    ensures e in s.idem ==> s.handled[e] >= 1
    ensures forall w :: w in s.workers && e in s.workers[w].counted ==> e in s.idem
  {
    ReachableInv(c, s);
  }

  // An attempt that starts on an event whose idempotency row already exists never runs the handler
  // again, unless it confirmed its own claim and Redis did not answer; so never without an
  // adapter. The second SETNX of an attempt always finds the key of the first, so a freshly
  // confirmed claim always consults the table.
  lemma NoReplayOnceApplied(c: Config, s: State, w: WorkerId)
    requires Reachable(c, s) && w in s.workers && s.workers[w].Busy?
    requires s.workers[w].pc.AtHandle? && s.workers[w].appliedBefore
    ensures s.workers[w].claim.Claimed? && s.workers[w].claim.outcome.Confirmed?
    ensures s.workers[w].nxFailed || |s.redis| == 0
  {
    ReachableInv(c, s);
    assert WorkerOk(s, s.workers[w]);
  }
}
