/**
 One call of the relay, from its poll to its return, against the code it runs written as a
 structured program: the statements it issues, in which order, for which row, and what each answer
 leads to. Other workers, the clock and Redis may do anything in between.
 */
module RelayBatch {
  import opened Common
  import opened RegionRelay

  // ---------------------------------------------------------------- what a poll takes

  // Position of a row in the creation order.
  ghost predicate Before(order: seq<EventId>, d: EventId, e: EventId) {
    exists i, j :: 0 <= i < j < |order| && order[i] == d && order[j] == e
  }

  predicate MayTake(s: State, locked: set<EventId>, e: EventId) {
    e in s.order && e in s.rows && s.rows[e].status.Pending? && e !in locked
  }

  lemma BeforeTail(order: seq<EventId>, d: EventId, e: EventId)
    requires order != [] && Before(order[1..], d, e)
    ensures Before(order, d, e)
  {
    var i, j :| 0 <= i < j < |order[1..]| && order[1..][i] == d && order[1..][j] == e;
    assert order[i + 1] == d && order[j + 1] == e;
  }

  lemma HeadBefore(order: seq<EventId>, e: EventId)
    requires order != [] && e in order[1..]
    ensures Before(order, order[0], e)
  {
    var k :| 0 <= k < |order[1..]| && order[1..][k] == e;
    assert order[k + 1] == e;
  }

  lemma {:induction false} ClaimableInOrder(order: seq<EventId>, rows: map<EventId, Row>, locked: set<EventId>, i: nat, j: nat)
    requires Distinct(order) && i < j < |Claimable(order, rows, locked)|
    ensures Before(order, Claimable(order, rows, locked)[i], Claimable(order, rows, locked)[j])
  {
    var tail := order[1..];
    assert forall k :: 0 <= k < |tail| ==> tail[k] == order[k + 1];
    var rest, ids := Claimable(tail, rows, locked), Claimable(order, rows, locked);
    if ids == rest {
      ClaimableInOrder(tail, rows, locked, i, j);
      BeforeTail(order, ids[i], ids[j]);
    } else if i > 0 {
      ClaimableInOrder(tail, rows, locked, i - 1, j - 1);
      BeforeTail(order, ids[i], ids[j]);
    } else {
      ClaimablePending(tail, rows, locked);
      assert ids[j] == rest[j - 1] && rest[j - 1] in rest;
      HeadBefore(order, ids[j]);
    }
  }

  // A poll takes pending rows that nobody has locked, each once, oldest first; it leaves one only
  // when it has taken `limit` older ones. It moves exactly these to PROCESSING.
  lemma PollTakesOldest(c: Config, s: State, w: WorkerId, locked: set<EventId>)
    requires Inv(s) && Enabled(c, s, Poll(w, locked))
    ensures var ids, t := Polled(c, s, locked), Apply(c, s, Poll(w, locked));
            && Distinct(ids) && |ids| <= c.limit
            && (forall e :: e in ids ==> MayTake(s, locked, e))
            && (forall i, j :: 0 <= i < j < |ids| ==> Before(s.order, ids[i], ids[j]))
            && (forall e :: MayTake(s, locked, e) && e !in ids ==>
                  |ids| == c.limit && forall d :: d in ids ==> Before(s.order, d, e))
            && t.rows == (map e | e in s.rows :: if e in ids then Row(Processing, Some(s.now)) else s.rows[e])
            && w in t.workers && t.workers[w].counted == []
            && t == s.(rows := t.rows, workers := s.workers[w := t.workers[w]])
            && (if ids == [] then t.workers[w].Idle? else t.workers[w].Busy? && t.workers[w].batch == ids)
  {
    var all, ids := Claimable(s.order, s.rows, locked), Polled(c, s, locked);
    ClaimablePending(s.order, s.rows, locked);
    forall i, j | 0 <= i < j < |all| ensures Before(s.order, all[i], all[j]) {
      ClaimableInOrder(s.order, s.rows, locked, i, j);
    }
    assert forall i :: 0 <= i < |ids| ==> ids[i] == all[i];
    forall e | MayTake(s, locked, e) && e !in ids
      ensures |ids| == c.limit && forall d :: d in ids ==> Before(s.order, d, e)
    {
      var j :| 0 <= j < |all| && all[j] == e;
      assert j >= |ids|;
    }
  }

  // ---------------------------------------------------------------- the code of a call

  datatype Statement = Claim | Check | Set(shard: nat) | Handle | Commit | Mark | Revert

  // Claim: confirmed by this call. Check: the event is applied. Set: the key was not there.
  datatype Answer = Yes | No | Error

  datatype Program =
    | Ask(event: EventId, statement: Statement, yes: Program, no: Program, error: Program)
    | Return(counted: seq<EventId>)

  // The code of one call: its rows in turn, each delivered and counted, or reverted and not.
  function Call(adapter: bool, shards: nat, rows: seq<EventId>, counted: seq<EventId>): Program {
    if rows == [] then Return(counted)
    else
      var next := Call(adapter, shards, rows[1..], counted);
      ApplyDelivery(adapter, shards, rows[0], Call(adapter, shards, rows[1..], counted + [rows[0]]),
                    Ask(rows[0], Revert, next, next, next))
  }

  function ApplyDelivery(adapter: bool, shards: nat, e: EventId, ok: Program, failed: Program): Program {
    if adapter then
      Ask(e, Claim, ClaimedBranch(shards, e, Confirmed, ok, failed),
          UnlessApplied(e, ClaimedBranch(shards, e, AlreadyConfirmed, ok, failed), ok, failed), failed)
    else UnlessApplied(e, Handled(e, ok, failed), ok, failed)
  }

  // Sets the key once on all shards; only a confirmed claim looks at the table when it was there.
  function ClaimedBranch(shards: nat, e: EventId, outcome: Outcome, ok: Program, failed: Program): Program {
    var effects := SideEffects(shards, e, outcome, ok, failed);
    SetOnAll(shards, 0, e, true, effects, if outcome.Confirmed? then UnlessApplied(e, effects, ok, failed) else effects, effects)
  }

  function SideEffects(shards: nat, e: EventId, outcome: Outcome, ok: Program, failed: Program): Program {
    var handled := Handled(e, ok, failed);
    if outcome.AlreadyConfirmed? then UnlessApplied(e, handled, ok, failed)
    else SetOnAll(shards, 0, e, true, handled, UnlessApplied(e, handled, ok, failed), handled)
  }

  function UnlessApplied(e: EventId, otherwise: Program, ok: Program, failed: Program): Program {
    Ask(e, Check, Do(e, Mark, ok, failed), otherwise, failed)
  }

  function Handled(e: EventId, ok: Program, failed: Program): Program {
    Do(e, Handle, Do(e, Commit, ok, failed), failed)
  }

  function Do(e: EventId, statement: Statement, ok: Program, failed: Program): Program {
    Ask(e, statement, ok, ok, failed)
  }

  function SetOnAll(shards: nat, i: nat, e: EventId, allNew: bool, unseen: Program, seen: Program, error: Program): Program
    decreases shards - i
  {
    if i >= shards then (if allNew then unseen else seen)
    else Ask(e, Set(i), SetOnAll(shards, i + 1, e, allNew, unseen, seen, error),
             SetOnAll(shards, i + 1, e, false, unseen, seen, error), error)
  }

  // ---------------------------------------------------------------- what a run shows of a call

  datatype Line = Line(event: EventId, statement: Statement, answer: Answer)

  function StatementAt(pc: Pc): Statement {
    match pc
    case AtClaim => Claim
    case AtCheck(_) => Check
    case AtSetNX(_, i, _) => Set(i)
    case AtHandle => Handle
    case AtCommit => Commit
    case AtMark => Mark
    case AtRevert => Revert
  }

  // What the tables answer to the pending statement of a worker.
  function TableAnswer(s: State, b: Worker): Answer
    requires b.Busy? && b.batch != []
  {
    match b.pc
    case AtClaim => if Key(s.epoch, b.batch[0]) in s.proposals then No else Yes
    case AtCheck(_) => if b.batch[0] in s.idem then Yes else No
    case AtSetNX(_, _, _) => if KeyKnown(s, b) && b.claim.key !in s.redis[b.pc.shard] then Yes else No
    case _ => Yes
  }

  // The call of `w` goes on: `w` neither crashes nor polls anew.
  predicate Within(a: Action, w: WorkerId) { a.Crash? || a.Poll? ==> a.worker != w }

  function LineOf(s: State, a: Action, w: WorkerId): Line
    requires BusyAt(s, w)
  {
    var b := s.workers[w];
    Line(b.batch[0], StatementAt(b.pc), if a == Run(w) then TableAnswer(s, b) else Error)
  }

  function LinesOf(s: State, a: Action, w: WorkerId): seq<Line>
    requires OwnStep(a, w) ==> BusyAt(s, w)
  {
    if OwnStep(a, w) then [LineOf(s, a, w)] else []
  }

  // The statements of `w` in a run, with their answers; a lost acknowledgement is an error.
  ghost function Transcript(c: Config, s: State, acts: seq<Action>, w: WorkerId): seq<Line>
    requires CanRun(c, s, acts)
    decreases |acts|
  {
    if acts == [] then [] else LinesOf(s, acts[0], w) + Transcript(c, Apply(c, s, acts[0]), acts[1..], w)
  }

  // What is left of a program after these lines; None when it would not have issued them.
  function After(p: Program, lines: seq<Line>): Option<Program>
    decreases |lines|
  {
    if lines == [] then Some(p)
    else if !p.Ask? || p.event != lines[0].event || p.statement != lines[0].statement then None
    else After(Branch(p, lines[0].answer), lines[1..])
  }

  function Branch(p: Program, a: Answer): Program
    requires p.Ask?
  {
    match a case Yes => p.yes case No => p.no case Error => p.error
  }

  // ---------------------------------------------------------------- simulation

  // The program left for a worker at its place.
  function Left(adapter: bool, shards: nat, b: Worker): Program {
    if b.Idle? || b.batch == [] then Return(b.counted)
    else
      var e, rest := b.batch[0], b.batch[1..];
      var next := Call(adapter, shards, rest, b.counted);
      LeftOfRow(shards, b.pc, b.claim, e, Call(adapter, shards, rest, b.counted + [e]), Ask(e, Revert, next, next, next))
  }

  function LeftOfRow(shards: nat, pc: Pc, claim: RegionRelay.Claim, e: EventId, ok: Program, failed: Program): Program {
    var handled := Handled(e, ok, failed);
    match pc
    case AtClaim => ApplyDelivery(true, shards, e, ok, failed)
    case AtCheck(AfterClaim) => UnlessApplied(e, ClaimedBranch(shards, e, AlreadyConfirmed, ok, failed), ok, failed)
    case AtCheck(AfterFirstNX) => UnlessApplied(e, SideEffects(shards, e, Confirmed, ok, failed), ok, failed)
    case AtCheck(_) => UnlessApplied(e, handled, ok, failed)
    case AtSetNX(false, i, allNew) =>
      var outcome := if claim.Claimed? then claim.outcome else Confirmed;
      var effects := SideEffects(shards, e, outcome, ok, failed);
      SetOnAll(shards, i, e, allNew, effects, if outcome.Confirmed? then UnlessApplied(e, effects, ok, failed) else effects, effects)
    case AtSetNX(true, i, allNew) => SetOnAll(shards, i, e, allNew, handled, UnlessApplied(e, handled, ok, failed), handled)
    case AtHandle => handled
    case AtCommit => Do(e, Commit, ok, failed)
    case AtMark => Do(e, Mark, ok, failed)
    case AtRevert => failed
  }

  lemma BeginIsCall(c: Config, shards: nat, rows: seq<EventId>, counted: seq<EventId>)
    ensures Left(c.adapter, shards, Begin(c, rows, counted)) == Call(c.adapter, shards, rows, counted)
  {
  }

  // What a step of `w` leads to, and what the program does on the same answer.
  lemma OwnStepFollows(c: Config, s: State, a: Action, w: WorkerId)
    requires Inv(s) && Enabled(c, s, a) && OwnStep(a, w)
    ensures var p, line, t := Left(c.adapter, |s.redis|, s.workers[w]), LineOf(s, a, w), Apply(c, s, a);
            && p.Ask? && p.event == line.event && p.statement == line.statement
            && Left(c.adapter, |s.redis|, t.workers[w]) == Branch(p, line.answer)
  {
    var b := s.workers[w];
    assert WorkerOk(s, b);
    if a == Run(w) { SuccessFollows(c, s, b); } else { FailureFollows(c, s, b); }
  }

  lemma SuccessFollows(c: Config, s: State, b: Worker)
    requires WorkerOk(s, b) && b.Busy?
    ensures var p := Left(c.adapter, |s.redis|, b);
            && p.Ask? && p.event == b.batch[0] && p.statement == StatementAt(b.pc)
            && Left(c.adapter, |s.redis|, OnSuccess(c, s, b)) == Branch(p, TableAnswer(s, b))
  {
    match b.pc
    case AtClaim =>
    case AtCheck(_) =>
    case AtSetNX(_, _, _) => SetFollows(c, s, b);
    case AtHandle =>
    case AtCommit => BeginIsCall(c, |s.redis|, b.batch[1..], b.counted + [b.batch[0]]);
    case AtMark => BeginIsCall(c, |s.redis|, b.batch[1..], b.counted + [b.batch[0]]);
    case AtRevert => BeginIsCall(c, |s.redis|, b.batch[1..], b.counted);
  }

  lemma SideEntryFollows(shards: nat, claim: RegionRelay.Claim, e: EventId, ok: Program, failed: Program)
    requires claim.Claimed?
    ensures LeftOfRow(shards, SideEntry(shards, claim), claim, e, ok, failed) == SideEffects(shards, e, claim.outcome, ok, failed)
  {
  }

  // The last shard answered.
  lemma SetDoneFollows(shards: nat, claim: RegionRelay.Claim, second: bool, allNew: bool, e: EventId, ok: Program, failed: Program)
    requires claim.Claimed? && (second ==> claim.outcome.Confirmed?)
    ensures LeftOfRow(shards, SetNXDone(shards, claim, second, allNew), claim, e, ok, failed)
         == LeftOfRow(shards, AtSetNX(second, shards, allNew), claim, e, ok, failed)
  {
    SideEntryFollows(shards, claim, e, ok, failed);
  }

  lemma SetFollows(c: Config, s: State, b: Worker)
    requires WorkerOk(s, b) && b.Busy? && b.pc.AtSetNX?
    ensures var p := Left(c.adapter, |s.redis|, b);
            && p.Ask? && p.event == b.batch[0] && p.statement == StatementAt(b.pc)
            && Left(c.adapter, |s.redis|, OnSuccess(c, s, b)) == Branch(p, TableAnswer(s, b))
  {
    var shards, e, rest := |s.redis|, b.batch[0], b.batch[1..];
    var ok, next := Call(c.adapter, shards, rest, b.counted + [e]), Call(c.adapter, shards, rest, b.counted);
    var failed := Ask(e, Revert, next, next, next);
    assert KeyKnown(s, b);
    var allNew := b.pc.allNew && b.claim.key !in s.redis[b.pc.shard];
    SetDoneFollows(shards, b.claim, b.pc.second, allNew, e, ok, failed);
    assert Branch(Left(c.adapter, shards, b), TableAnswer(s, b))
        == LeftOfRow(shards, AtSetNX(b.pc.second, b.pc.shard + 1, allNew), b.claim, e, ok, failed);
  }

  lemma FailureFollows(c: Config, s: State, b: Worker)
    requires WorkerOk(s, b) && b.Busy?
    ensures var p := Left(c.adapter, |s.redis|, b);
            && p.Ask? && p.event == b.batch[0] && p.statement == StatementAt(b.pc)
            && Left(c.adapter, |s.redis|, OnFailure(c, s, b)) == Branch(p, Error)
  {
    if b.pc.AtRevert? { BeginIsCall(c, |s.redis|, b.batch[1..], b.counted); }
  }

  // Steps of others leave the place of `w`, and nobody adds or removes shards.
  lemma OtherStepsKeepPlace(c: Config, s: State, a: Action, w: WorkerId)
    requires Enabled(c, s, a) && Within(a, w) && w in s.workers
    ensures var t := Apply(c, s, a);
            && |t.redis| == |s.redis| && w in t.workers && (!OwnStep(a, w) ==> t.workers[w] == s.workers[w])
  {
  }

  lemma AfterAdds(p: Program, a: seq<Line>, q: Program, b: seq<Line>)
    requires |a| <= 1 && After(p, a) == Some(q)
    ensures After(p, a + b) == After(q, b)
  {
    if a == [] {
      assert a + b == b;
    } else {
      assert (a + b)[1..] == b && a[1..] == [];
    }
  }

  lemma StepFollows(c: Config, s: State, a: Action, w: WorkerId)
    requires Inv(s) && Enabled(c, s, a) && Within(a, w) && w in s.workers
    ensures w in Apply(c, s, a).workers && |Apply(c, s, a).redis| == |s.redis|
    ensures After(Left(c.adapter, |s.redis|, s.workers[w]), LinesOf(s, a, w))
         == Some(Left(c.adapter, |s.redis|, Apply(c, s, a).workers[w]))
  {
    OtherStepsKeepPlace(c, s, a, w);
    if OwnStep(a, w) { OwnStepFollows(c, s, a, w); }
  }

  lemma {:induction false} RunFollows(c: Config, s: State, acts: seq<Action>, w: WorkerId)
    requires Inv(s) && w in s.workers && CanRun(c, s, acts) && forall a :: a in acts ==> Within(a, w)
    ensures var t := RunAll(c, s, acts);
            && |t.redis| == |s.redis| && w in t.workers
            && After(Left(c.adapter, |s.redis|, s.workers[w]), Transcript(c, s, acts, w)) == Some(Left(c.adapter, |s.redis|, t.workers[w]))
    decreases |acts|
  {
    if acts != [] {
      var a, s1 := acts[0], Apply(c, s, acts[0]);
      StepKeepsInv(c, s, a);
      StepFollows(c, s, a, w);
      RunFollows(c, s1, acts[1..], w);
      AfterAdds(Left(c.adapter, |s.redis|, s.workers[w]), LinesOf(s, a, w), Left(c.adapter, |s.redis|, s1.workers[w]),
                Transcript(c, s1, acts[1..], w));
    }
  }

  // The call issues exactly the statements of its code, whatever the answers and whatever happens
  // in between, and returns when the code does, with the rows the code counts. Until then its next
  // statement may be answered or fail, and a write may take effect unacknowledged.
  lemma CallFollowsCode(c: Config, s: State, w: WorkerId, locked: set<EventId>, acts: seq<Action>)
    requires Reachable(c, s) && Enabled(c, s, Poll(w, locked))
    requires CanRun(c, Apply(c, s, Poll(w, locked)), acts) && forall a :: a in acts ==> Within(a, w)
    ensures var polled := Apply(c, s, Poll(w, locked));
            var t := RunAll(c, polled, acts);
            var left := After(Call(c.adapter, |s.redis|, Polled(c, s, locked), []), Transcript(c, polled, acts, w));
            && w in t.workers && left.Some?
            && (t.workers[w].Idle? <==> left.value.Return?)
            && (t.workers[w].Idle? ==> left.value == Return(t.workers[w].counted))
            && (t.workers[w].Busy? ==>
                  && BusyAt(t, w) && left.value.event == t.workers[w].batch[0] && left.value.statement == StatementAt(t.workers[w].pc)
                  && Enabled(c, t, Run(w)) && Enabled(c, t, Fail(w))
                  && (left.value.statement != Check && left.value.statement != Handle ==> Enabled(c, t, AckLost(w))))
  {
    var polled := Apply(c, s, Poll(w, locked));
    ReachableInv(c, s);
    StepKeepsInv(c, s, Poll(w, locked));
    BeginIsCall(c, |s.redis|, Polled(c, s, locked), []);
    RunFollows(c, polled, acts, w);
    RunKeepsInv(c, polled, acts);
    var t := RunAll(c, polled, acts);
    assert WorkerOk(t, t.workers[w]);
    if t.workers[w].Busy? { SuccessFollows(c, t, t.workers[w]); }
  }

  // ---------------------------------------------------------------- every row in its turn

  // How a row ends: counted when its commit or its mark is acknowledged, or reverted, whether or
  // not the revert succeeds.
  predicate Counts(l: Line) { (l.statement == Commit || l.statement == Mark) && l.answer != Error }

  predicate Ends(l: Line) { Counts(l) || l.statement == Revert }

  function Ended(lines: seq<Line>): seq<EventId> {
    if lines == [] then [] else if Ends(lines[0]) then [lines[0].event] + Ended(lines[1..]) else Ended(lines[1..])
  }

  function CountedOf(lines: seq<Line>): seq<EventId> {
    if lines == [] then [] else if Counts(lines[0]) then [lines[0].event] + CountedOf(lines[1..]) else CountedOf(lines[1..])
  }

  // The rows of a worker that have not ended.
  function Open(b: Worker): seq<EventId> { if b.Busy? then b.batch else [] }

  predicate Went(b: Worker, n: Worker, lines: seq<Line>) {
    Open(b) == Ended(lines) + Open(n) && n.counted == b.counted + CountedOf(lines)
  }

  lemma {:induction false} EndedAdds(a: seq<Line>, b: seq<Line>)
    ensures Ended(a + b) == Ended(a) + Ended(b) && CountedOf(a + b) == CountedOf(a) + CountedOf(b)
  {
    if a == [] {
      assert a + b == b;
    } else {
      assert (a + b)[1..] == a[1..] + b;
      EndedAdds(a[1..], b);
    }
  }

  lemma WentCompose(b: Worker, m: Worker, n: Worker, before: seq<Line>, after: seq<Line>)
    requires Went(b, m, before) && Went(m, n, after)
    ensures Went(b, n, before + after)
  {
    EndedAdds(before, after);
  }

  lemma OneLine(b: Worker, n: Worker, l: Line)
    requires b.Busy? && b.batch != [] && l.event == b.batch[0]
    requires Open(n) == if Ends(l) then b.batch[1..] else b.batch
    requires n.counted == if Counts(l) then b.counted + [l.event] else b.counted
    ensures Went(b, n, [l])
  {
    assert [l][1..] == [] && b.batch == [b.batch[0]] + b.batch[1..];
    assert Ended([l]) == if Ends(l) then [l.event] else [];
    assert CountedOf([l]) == if Counts(l) then [l.event] else [];
  }

  lemma SuccessEndsRow(c: Config, s: State, b: Worker)
    requires b.Busy? && b.batch != []
    ensures Went(b, OnSuccess(c, s, b), [Line(b.batch[0], StatementAt(b.pc), TableAnswer(s, b))])
  {
    OneLine(b, OnSuccess(c, s, b), Line(b.batch[0], StatementAt(b.pc), TableAnswer(s, b)));
  }

  lemma FailureEndsRow(c: Config, s: State, b: Worker)
    requires b.Busy? && b.batch != []
    ensures Went(b, OnFailure(c, s, b), [Line(b.batch[0], StatementAt(b.pc), Error)])
  {
    OneLine(b, OnFailure(c, s, b), Line(b.batch[0], StatementAt(b.pc), Error));
  }

  lemma StepEndsRow(c: Config, s: State, a: Action, w: WorkerId)
    requires Enabled(c, s, a) && Within(a, w) && w in s.workers
    ensures w in Apply(c, s, a).workers && Went(s.workers[w], Apply(c, s, a).workers[w], LinesOf(s, a, w))
  {
    OtherStepsKeepPlace(c, s, a, w);
    if a == Run(w) {
      SuccessEndsRow(c, s, s.workers[w]);
    } else if OwnStep(a, w) {
      FailureEndsRow(c, s, s.workers[w]);
    }
  }

  lemma {:induction false} RunEndsRows(c: Config, s: State, acts: seq<Action>, w: WorkerId)
    requires w in s.workers && CanRun(c, s, acts) && forall a :: a in acts ==> Within(a, w)
    ensures w in RunAll(c, s, acts).workers && Went(s.workers[w], RunAll(c, s, acts).workers[w], Transcript(c, s, acts, w))
    decreases |acts|
  {
    if acts != [] {
      var s1 := Apply(c, s, acts[0]);
      StepEndsRow(c, s, acts[0], w);
      RunEndsRows(c, s1, acts[1..], w);
      WentCompose(s.workers[w], s1.workers[w], RunAll(c, s1, acts[1..]).workers[w],
                  LinesOf(s, acts[0], w), Transcript(c, s1, acts[1..], w));
    }
  }

  // No row of a poll is left behind: at every point of the call the rows that ended, each by being
  // counted or by its own revert, are the polled ones in order up to the row at work; so all of them
  // when the call returns, which reports exactly the counted ones.
  lemma BatchIsWorkedThrough(c: Config, s: State, w: WorkerId, locked: set<EventId>, acts: seq<Action>)
    requires Enabled(c, s, Poll(w, locked))
    requires CanRun(c, Apply(c, s, Poll(w, locked)), acts) && forall a :: a in acts ==> Within(a, w)
    ensures var polled, rows := Apply(c, s, Poll(w, locked)), Polled(c, s, locked);
            var t, lines := RunAll(c, polled, acts), Transcript(c, polled, acts, w);
            && w in t.workers && t.workers[w].counted == CountedOf(lines)
            && rows == Ended(lines) + (if t.workers[w].Busy? then t.workers[w].batch else [])
  {
    var polled := Apply(c, s, Poll(w, locked));
    RunEndsRows(c, polled, acts, w);
    assert Open(polled.workers[w]) == Polled(c, s, locked) && polled.workers[w].counted == [];
  }

  // A row that failed leaves the next one to be attempted from its first statement, whether its
  // revert is acknowledged, lost or refused; the revert itself returns the row to PENDING.
  lemma FailureLeavesTheNextRow(c: Config, s: State, a: Action, w: WorkerId)
    requires Enabled(c, s, a) && OwnStep(a, w) && s.workers[w].pc.AtRevert?
    ensures var b, t := s.workers[w], Apply(c, s, a);
            && (|b.batch| == 1 ==> t.workers[w] == Idle(b.counted))
            && (|b.batch| > 1 ==>
                  && t.workers[w].Busy? && t.workers[w].batch == b.batch[1..] && t.workers[w].counted == b.counted
                  && t.workers[w].claim.NoClaim? && t.workers[w].pc == if c.adapter then AtClaim else AtCheck(PlainCheck))
            && t.rows == (if a == Fail(w) then s.rows else s.rows[b.batch[0] := Row(Pending, None)])
  {
  }
}
