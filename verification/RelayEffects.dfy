/**
 What the statements of the relay do to its tables, and what a run shows of it: how often a handler
 ran, when a row can be taken from a worker, and, in the statements an attempt issued, when an
 applied event can reach its handler again.
 */
module RelayEffects {
  import opened Common
  import opened RegionRelay
  import opened RelayBatch

  // ---------------------------------------------------------------- one statement

  ghost predicate Tables(t: State, s: State, rows: map<EventId, Row>, idem: set<EventId>, proposals: set<Key>, redis: seq<set<Key>>,
                         handled: multiset<EventId>) {
    && t.rows == rows && t.idem == idem && t.proposals == proposals && t.redis == redis && t.handled == handled
    && t.order == s.order && t.epoch == s.epoch && t.now == s.now
  }

  // A statement that fails changes no table; one that takes effect, acknowledged or not, changes
  // the one it is about, for the row at work.
  lemma StatementEffect(c: Config, s: State, a: Action, w: WorkerId)
    requires Inv(s) && Enabled(c, s, a) && OwnStep(a, w)
    ensures var b, t := s.workers[w], Apply(c, s, a);
            var e := b.batch[0];
            if a == Fail(w) then Tables(t, s, s.rows, s.idem, s.proposals, s.redis, s.handled)
            else match StatementAt(b.pc)
              case Claim => Tables(t, s, s.rows, s.idem, s.proposals + {Key(s.epoch, e)}, s.redis, s.handled)
              case Check => Tables(t, s, s.rows, s.idem, s.proposals, s.redis, s.handled)
              case Set(i) => b.claim.Claimed? && b.claim.key.event == e && i < |s.redis| &&
                             Tables(t, s, s.rows, s.idem, s.proposals, s.redis[i := s.redis[i] + {b.claim.key}], s.handled)
              case Handle => Tables(t, s, s.rows, s.idem, s.proposals, s.redis, s.handled + multiset{e})
              case Commit => Tables(t, s, if e in s.idem then s.rows else s.rows[e := Row(Delivered, None)], s.idem + {e},
                                    s.proposals, s.redis, s.handled)
              case Mark => Tables(t, s, s.rows[e := Row(Delivered, None)], s.idem, s.proposals, s.redis, s.handled)
              case Revert => Tables(t, s, s.rows[e := Row(Pending, None)], s.idem, s.proposals, s.redis, s.handled)
  {
    assert WorkerOk(s, s.workers[w]);
  }

  // What happens besides: rows are inserted as PENDING and last in order, time passes, the routing
  // epoch changes, keys expire, and a crash leaves its worker idle with nothing reported.
  lemma EnvironmentEffect(c: Config, s: State, a: Action)
    requires Enabled(c, s, a) && !a.Poll? && !a.Reclaim? && !a.Run? && !a.Fail? && !a.AckLost?
    ensures var t := Apply(c, s, a);
            && t.idem == s.idem && t.proposals == s.proposals && t.handled == s.handled
            && t.order == (if a.Insert? then s.order + [a.event] else s.order)
            && t.rows == (if a.Insert? then s.rows[a.event := Row(Pending, None)] else s.rows)
            && t.now == (if a.Tick? then s.now + a.seconds else s.now) && t.epoch == (if a.SetEpoch? then a.value else s.epoch)
            && |t.redis| == |s.redis|
            && (forall i :: 0 <= i < |s.redis| ==> t.redis[i] == if a.Expire? && a.shard == i then s.redis[i] - {a.key} else s.redis[i])
            && t.workers == (if a.Crash? then s.workers[a.worker := Idle([])] else s.workers)
  {
  }

  // ---------------------------------------------------------------- how often a handler ran

  // The step is a successful handler of the event.
  predicate Handles(s: State, a: Action, e: EventId) {
    a.Run? && BusyAt(s, a.worker) && s.workers[a.worker].pc.AtHandle? && s.workers[a.worker].batch[0] == e
  }

  ghost function HandlerRuns(c: Config, s: State, acts: seq<Action>, e: EventId): nat
    requires CanRun(c, s, acts)
    decreases |acts|
  {
    if acts == [] then 0
    else (if Handles(s, acts[0], e) then 1 else 0) + HandlerRuns(c, Apply(c, s, acts[0]), acts[1..], e)
  }

  lemma StepHandles(c: Config, s: State, a: Action, e: EventId)
    requires Inv(s) && Enabled(c, s, a)
    ensures Apply(c, s, a).handled[e] == s.handled[e] + (if Handles(s, a, e) then 1 else 0)
    ensures e in Apply(c, s, a).idem && e !in s.idem ==>
              (a.Run? || a.AckLost?) && s.workers[a.worker].pc.AtCommit? && s.workers[a.worker].batch[0] == e
  {
    if a.Run? || a.Fail? || a.AckLost? { StatementEffect(c, s, a, a.worker); }
  }

  // Over every run the handler of an event ran exactly as often as the handled count says, and an
  // event is applied by a commit of its own only.
  lemma {:induction false} HandledCountsRuns(c: Config, s: State, acts: seq<Action>, e: EventId)
    requires Inv(s) && CanRun(c, s, acts)
    ensures RunAll(c, s, acts).handled[e] == s.handled[e] + HandlerRuns(c, s, acts, e)
    decreases |acts|
  {
    if acts != [] {
      StepKeepsInv(c, s, acts[0]);
      StepHandles(c, s, acts[0], e);
      HandledCountsRuns(c, Apply(c, s, acts[0]), acts[1..], e);
    }
  }

  // ---------------------------------------------------------------- reclaiming

  // A reclaim returns to PENDING exactly the rows that have been PROCESSING for over a minute.
  lemma ReclaimReturnsStale(c: Config, s: State)
    ensures var t := Apply(c, s, Reclaim);
            && t == s.(rows := t.rows) && t.rows.Keys == s.rows.Keys
            && forall e :: e in s.rows ==>
                 var r := s.rows[e];
                 t.rows[e] == if r.status.Processing? && r.startedAt.Some? && s.now > r.startedAt.value + 60 then Row(Pending, None) else r
  {
  }

  // No statement of any worker on this row.
  predicate Untouched(s: State, a: Action, e: EventId) {
    a.Run? || a.AckLost? ==> BusyAt(s, a.worker) && s.workers[a.worker].batch[0] != e
  }

  ghost predicate UntouchedRun(c: Config, s: State, acts: seq<Action>, e: EventId)
    requires CanRun(c, s, acts)
    decreases |acts|
  {
    acts == [] || (Untouched(s, acts[0], e) && UntouchedRun(c, Apply(c, s, acts[0]), acts[1..], e))
  }

  lemma StepKeepsRow(c: Config, s: State, a: Action, e: EventId, since: nat)
    requires Inv(s) && Enabled(c, s, a) && Untouched(s, a, e)
    requires e in s.rows && s.rows[e] == Row(Processing, Some(since)) && s.now <= since + 60
    ensures e in Apply(c, s, a).rows && Apply(c, s, a).rows[e] == s.rows[e] && Apply(c, s, a).now >= s.now
  {
    match a
    case Poll(w, locked) => ClaimablePending(s.order, s.rows, locked);
    case Run(w) => StatementEffect(c, s, a, w);
    case AckLost(w) => StatementEffect(c, s, a, w);
    case _ =>
  }

  lemma {:induction false} TimePasses(c: Config, s: State, acts: seq<Action>)
    requires CanRun(c, s, acts)
    ensures RunAll(c, s, acts).now >= s.now
    decreases |acts|
  {
    if acts != [] { TimePasses(c, Apply(c, s, acts[0]), acts[1..]); }
  }

  // Within a minute of its poll a row is taken from its worker by no reclaim and no other poll,
  // over every run in which no statement is about that row.
  lemma {:induction false} RowIsKeptForAMinute(c: Config, s: State, acts: seq<Action>, e: EventId, since: nat)
    requires Inv(s) && CanRun(c, s, acts) && UntouchedRun(c, s, acts, e)
    requires e in s.rows && s.rows[e] == Row(Processing, Some(since)) && RunAll(c, s, acts).now <= since + 60
    ensures e in RunAll(c, s, acts).rows && RunAll(c, s, acts).rows[e] == Row(Processing, Some(since))
    decreases |acts|
  {
    TimePasses(c, s, acts);
    if acts != [] {
      StepKeepsInv(c, s, acts[0]);
      StepKeepsRow(c, s, acts[0], e, since);
      RowIsKeptForAMinute(c, Apply(c, s, acts[0]), acts[1..], e, since);
    }
  }

  // ---------------------------------------------------------------- replay, in the statements issued

  // What a worker remembers of its attempt, against what it has issued since it began.
  ghost predicate Remembers(b: Worker, e: EventId, lines: seq<Line>) {
    && b.Busy? && b.batch != [] && b.batch[0] == e
    && (b.claim.Claimed? && b.claim.outcome.Confirmed? ==> Line(e, Claim, Yes) in lines)
    && (b.nxFailed ==> exists i :: Line(e, Set(i), Error) in lines)
    && (b.pc.AtClaim? || b.pc == AtCheck(PlainCheck) || b.pc.AtRevert? || b.appliedBefore)
  }

  // The attempt on the first row of `batch` is over.
  predicate Passed(b: Worker, batch: seq<EventId>) { b.Idle? || |b.batch| < |batch| }

  ghost predicate InAttempt(b: Worker, batch: seq<EventId>, lines: seq<Line>)
    requires batch != []
  {
    Passed(b, batch) || (b.Busy? && b.batch == batch && Remembers(b, batch[0], lines))
  }

  lemma SuccessRemembers(c: Config, s: State, b: Worker, lines: seq<Line>)
    requires WorkerOk(s, b) && b.Busy? && b.batch[0] in s.idem && Remembers(b, b.batch[0], lines)
    ensures InAttempt(OnSuccess(c, s, b), b.batch, lines + [Line(b.batch[0], StatementAt(b.pc), TableAnswer(s, b))])
  {
  }

  lemma FailureRemembers(c: Config, s: State, b: Worker, lines: seq<Line>)
    requires WorkerOk(s, b) && b.Busy? && Remembers(b, b.batch[0], lines)
    ensures InAttempt(OnFailure(c, s, b), b.batch, lines + [Line(b.batch[0], StatementAt(b.pc), Error)])
  {
    var more := lines + [Line(b.batch[0], StatementAt(b.pc), Error)];
    if b.pc.AtSetNX? { assert Line(b.batch[0], Set(b.pc.shard), Error) in more; }
  }

  lemma StepRemembers(c: Config, s: State, a: Action, w: WorkerId, batch: seq<EventId>, lines: seq<Line>)
    requires Inv(s) && Enabled(c, s, a) && Within(a, w) && w in s.workers
    requires batch != [] && batch[0] in s.idem && InAttempt(s.workers[w], batch, lines)
    ensures w in Apply(c, s, a).workers && batch[0] in Apply(c, s, a).idem
    ensures InAttempt(Apply(c, s, a).workers[w], batch, lines + LinesOf(s, a, w))
  {
    var b := s.workers[w];
    OtherStepsKeepPlace(c, s, a, w);
    assert WorkerOk(s, b);
    if !OwnStep(a, w) {
      assert lines + [] == lines;
    } else if Passed(b, batch) {
    } else if a == Run(w) {
      SuccessRemembers(c, s, b, lines);
    } else {
      FailureRemembers(c, s, b, lines);
    }
  }

  lemma {:induction false} RunRemembers(c: Config, s: State, acts: seq<Action>, w: WorkerId, batch: seq<EventId>, lines: seq<Line>)
    requires Inv(s) && w in s.workers && CanRun(c, s, acts) && forall a :: a in acts ==> Within(a, w)
    requires batch != [] && batch[0] in s.idem && InAttempt(s.workers[w], batch, lines)
    ensures w in RunAll(c, s, acts).workers
    ensures InAttempt(RunAll(c, s, acts).workers[w], batch, lines + Transcript(c, s, acts, w))
    decreases |acts|
  {
    if acts == [] {
      assert lines + [] == lines;
    } else {
      var t := Apply(c, s, acts[0]);
      StepKeepsInv(c, s, acts[0]);
      StepRemembers(c, s, acts[0], w, batch, lines);
      RunRemembers(c, t, acts[1..], w, batch, lines + LinesOf(s, acts[0], w));
      Regroup(lines, LinesOf(s, acts[0], w), Transcript(c, t, acts[1..], w));
    }
  }

  lemma Regroup(a: seq<Line>, b: seq<Line>, c: seq<Line>)
    ensures (a + b) + c == a + (b + c)
  {
  }

  // An attempt begun on an event that is already applied comes to its handler, whatever others do
  // in between, only if its claim was confirmed by itself, and a SETNX of it got no answer or there
  // is no shard; so never without a dedup adapter.
  lemma ReplayNeedsSilentRedis(c: Config, s: State, w: WorkerId, acts: seq<Action>)
    requires Reachable(c, s) && BusyAt(s, w) && s.workers[w].batch[0] in s.idem
    requires var b := s.workers[w]; (b.pc.AtClaim? || b.pc == AtCheck(PlainCheck)) && b.claim.NoClaim? && !b.nxFailed
    requires CanRun(c, s, acts) && forall a :: a in acts ==> Within(a, w)
    ensures var e, t, lines := s.workers[w].batch[0], RunAll(c, s, acts), Transcript(c, s, acts, w);
            && w in t.workers
            && (t.workers[w].Busy? && t.workers[w].pc.AtHandle? && t.workers[w].batch == s.workers[w].batch ==>
                  Line(e, Claim, Yes) in lines && (|s.redis| == 0 || exists i :: Line(e, Set(i), Error) in lines))
  {
    ReachableInv(c, s);
    RunKeepsInv(c, s, acts);
    RunRemembers(c, s, acts, w, s.workers[w].batch, []);
    RunFollows(c, s, acts, w);
    var t := RunAll(c, s, acts);
    assert [] + Transcript(c, s, acts, w) == Transcript(c, s, acts, w);
    assert WorkerOk(t, t.workers[w]);
  }
}
