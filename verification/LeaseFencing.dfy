/**
 Fencing epochs of a replica set: a counter in memory and an 8-byte big-endian file. Issuing an
 epoch raises the counter, replaces the file by an atomic rename, and only then returns; the
 process may crash, or the write may fail, at any point, and a restart reloads the file.
 */
module LeaseFencing {
  import opened Common

  type Byte = b: nat | b < 256

  const TWO_63: nat := 0x8000_0000_0000_0000
  const TWO_64: nat := 0x1_0000_0000_0000_0000

  // ---------------------------------------------------------------- the file format

  function Pow256(n: nat): nat { if n == 0 then 1 else 256 * Pow256(n - 1) }

  function Encode(x: nat, n: nat): (bytes: seq<Byte>)
    ensures |bytes| == n
  {
    if n == 0 then [] else Encode(x / 256, n - 1) + [x % 256]
  }

  function Decode(bytes: seq<Byte>): nat {
    if bytes == [] then 0 else 256 * Decode(bytes[..|bytes| - 1]) + bytes[|bytes| - 1]
  }

  lemma {:induction false} DecodeEncode(x: nat, n: nat)
    requires x < Pow256(n)
    ensures Decode(Encode(x, n)) == x
  {
    if n > 0 {
      DecodeEncode(x / 256, n - 1);
      assert Encode(x, n)[..n - 1] == Encode(x / 256, n - 1);
    }
  }

  lemma {:induction false} EncodeDecode(bytes: seq<Byte>)
    ensures Decode(bytes) < Pow256(|bytes|) && Encode(Decode(bytes), |bytes|) == bytes
  {
    if bytes != [] {
      EncodeDecode(bytes[..|bytes| - 1]);
    }
  }

  lemma Pow256Of8()
    ensures Pow256(8) == TWO_64
  {
    assert Pow256(4) == 0x1_0000_0000;
  }

  // Every uint64 survives being written and read back, and every 8-byte file is the image of
  // exactly the number it is read as.
  lemma FileRoundTrip(x: nat, bytes: seq<Byte>)
    requires x < TWO_64 && |bytes| == 8
    ensures Decode(Encode(x, 8)) == x
    ensures Decode(bytes) < TWO_64 && Encode(Decode(bytes), 8) == bytes
  {
    Pow256Of8();
    DecodeEncode(x, 8);
    EncodeDecode(bytes);
  }

  // What a new process loads: a missing or short file counts as epoch 0.
  function Load(file: Option<seq<Byte>>): nat {
    if file.None? || |file.value| < 8 then 0 else Decode(file.value[..8])
  }

  lemma LoadStored(x: nat)
    requires x < TWO_64
    ensures Load(Some(Encode(x, 8))) == x
  {
    Pow256Of8();
    DecodeEncode(x, 8);
    assert Encode(x, 8)[..8] == Encode(x, 8);
  }

  // ---------------------------------------------------------------- issuing and validating

  function Wrap(x: nat): nat { x % TWO_64 }
  function ToInt64(x: nat): int { if x < TWO_63 then x else x - TWO_64 }

  // Validate(epoch) against the floor held in memory.
  predicate Accepts(floor: nat, epoch: int) { floor == 0 || (epoch > 0 && epoch >= floor) }

  // A Next call in progress: the value it took, and whether the file already holds it.
  datatype Call = Call(value: nat, stored: bool)

  datatype State = State(memory: Option<nat>, file: Option<seq<Byte>>, calls: seq<Call>, issued: seq<int>)

  datatype Action =
    | Take                    // epoch.Add(1)
    | Store(call: nat)        // write the temporary file and rename it
    | StoreFails(call: nat)   // Next returns an error
    | Return(call: nat)
    | Crash
    | Restart

  predicate Enabled(s: State, a: Action) {
    match a
    case Take => s.memory.Some?
    case Store(i) => s.memory.Some? && i < |s.calls| && !s.calls[i].stored && s.calls[i].value < TWO_64
    case StoreFails(i) => s.memory.Some? && i < |s.calls| && !s.calls[i].stored
    case Return(i) => s.memory.Some? && i < |s.calls| && s.calls[i].stored
    case Crash => true
    case Restart => s.memory.None?
  }

  function Without(calls: seq<Call>, i: nat): seq<Call>
    requires i < |calls|
  {
    calls[..i] + calls[i + 1..]
  }

  function Apply(s: State, a: Action): State
    requires Enabled(s, a)
  {
    match a
    case Take =>
      var next := Wrap(s.memory.value + 1);
      s.(memory := Some(next), calls := s.calls + [Call(next, false)])
    case Store(i) => s.(file := Some(Encode(s.calls[i].value, 8)), calls := s.calls[i := Call(s.calls[i].value, true)])
    case StoreFails(i) => s.(calls := Without(s.calls, i))
    case Return(i) => s.(calls := Without(s.calls, i), issued := s.issued + [ToInt64(s.calls[i].value)])
    case Crash => s.(memory := None, calls := [])
    case Restart => s.(memory := Some(Load(s.file)))
  }

  // Calls do not overlap, and the counter stays within int64.
  predicate Orderly(s: State, a: Action) {
    a.Take? && s.memory.Some? ==> s.calls == [] && s.memory.value + 1 < TWO_63
  }

  ghost predicate CanRun(s: State, acts: seq<Action>)
    decreases |acts|
  {
    acts == [] || (Enabled(s, acts[0]) && CanRun(Apply(s, acts[0]), acts[1..]))
  }

  ghost predicate OrderlyRun(s: State, acts: seq<Action>)
    requires CanRun(s, acts)
    decreases |acts|
  {
    acts == [] || (Orderly(s, acts[0]) && OrderlyRun(Apply(s, acts[0]), acts[1..]))
  }

  ghost function RunAll(s: State, acts: seq<Action>): State
    requires CanRun(s, acts)
    decreases |acts|
  {
    if acts == [] then s else RunAll(Apply(s, acts[0]), acts[1..])
  }

  // A process that has not started yet, over a file an earlier deployment may have left.
  ghost predicate Initial(s: State) {
    s.memory.None? && s.calls == [] && s.issued == [] && Load(s.file) < TWO_63
  }

  ghost predicate Increasing(xs: seq<int>) {
    forall i, j :: 0 <= i < j < |xs| ==> xs[i] < xs[j]
  }

  // Everything issued is covered by the file, and the file by memory.
  ghost predicate Inv(s: State) {
    && Load(s.file) < TWO_63
    && (s.memory.Some? ==> Load(s.file) <= s.memory.value < TWO_63)
    && Increasing(s.issued)
    && (forall i :: 0 <= i < |s.issued| ==> 0 < s.issued[i] <= Load(s.file))
    && |s.calls| <= 1
    && (s.calls != [] ==>
          var call := s.calls[0];
          && s.memory == Some(call.value) && 0 < call.value
          && (forall i :: 0 <= i < |s.issued| ==> s.issued[i] < call.value)
          && (call.stored ==> Load(s.file) == call.value))
  }

  lemma StepKeepsInv(s: State, a: Action)
    requires Inv(s) && Enabled(s, a) && Orderly(s, a)
    ensures Inv(Apply(s, a))
  {
    match a
    case Store(i) => LoadStored(s.calls[i].value);
    case Return(i) => assert Without(s.calls, i) == [];
    case StoreFails(i) => assert Without(s.calls, i) == [];
    case _ =>
  }

  lemma {:induction false} RunKeepsInv(s: State, acts: seq<Action>)
    requires Inv(s) && CanRun(s, acts) && OrderlyRun(s, acts)
    ensures Inv(RunAll(s, acts))
    decreases |acts|
  {
    if acts != [] {
      StepKeepsInv(s, acts[0]);
      RunKeepsInv(Apply(s, acts[0]), acts[1..]);
    }
  }

  // Over every orderly run with crashes and failed writes anywhere, issued epochs strictly
  // increase across restarts, and once an epoch is issued no smaller one validates again.
  lemma EpochsFence(s0: State, acts: seq<Action>)
    requires Initial(s0) && CanRun(s0, acts) && OrderlyRun(s0, acts)
    ensures var s := RunAll(s0, acts);
            && Increasing(s.issued)
            && forall e, stale: int :: e in s.issued && stale < e && s.memory.Some? ==> !Accepts(s.memory.value, stale)
  {
    RunKeepsInv(s0, acts);
  }

  // The newest issued epoch keeps validating exactly while no later call has raised the counter,
  // even if that call failed to store its value and returned an error.
  lemma NewestValidatesIff(s0: State, acts: seq<Action>)
    requires Initial(s0) && CanRun(s0, acts) && OrderlyRun(s0, acts)
    requires RunAll(s0, acts).memory.Some? && RunAll(s0, acts).issued != []
    ensures var s := RunAll(s0, acts);
            Accepts(s.memory.value, s.issued[|s.issued| - 1]) <==> s.memory.value == s.issued[|s.issued| - 1]
  {
    RunKeepsInv(s0, acts);
  }

  lemma {:induction false} RunOneMore(s: State, acts: seq<Action>, a: Action)
    requires CanRun(s, acts) && Enabled(RunAll(s, acts), a)
    ensures CanRun(s, acts + [a]) && RunAll(s, acts + [a]) == Apply(RunAll(s, acts), a)
    decreases |acts|
  {
    if acts == [] {
      assert [a][1..] == [];
    } else {
      RunOneMore(Apply(s, acts[0]), acts[1..], a);
      assert (acts + [a])[1..] == acts[1..] + [a];
    }
  }

  const NOTHING_YET := State(None, None, [], [])

  ghost predicate Gets(acts: seq<Action>, s: State) { CanRun(NOTHING_YET, acts) && RunAll(NOTHING_YET, acts) == s }

  lemma GetsOn(acts: seq<Action>, s: State, a: Action, b: Action)
    requires Gets(acts, s) && Enabled(s, a) && Enabled(Apply(s, a), b)
    ensures Gets(acts + [a] + [b], Apply(Apply(s, a), b))
  {
    RunOneMore(NOTHING_YET, acts, a);
    RunOneMore(NOTHING_YET, acts + [a], b);
  }

  lemma TwoCallsTaken() returns (acts: seq<Action>)
    ensures Gets(acts, State(Some(2), None, [Call(1, false), Call(2, false)], []))
  {
    RunOneMore(NOTHING_YET, [], Restart);
    GetsOn([Restart], State(Some(0), None, [], []), Take, Take);
    acts := [Restart] + [Take] + [Take];
  }

  lemma OlderStoredLast() returns (acts: seq<Action>)
    ensures Gets(acts, State(Some(2), Some(Encode(1, 8)), [], [2, 1]))
  {
    var taken := TwoCallsTaken();
    var s := State(Some(2), None, [Call(1, false), Call(2, false)], []);
    GetsOn(taken, s, Store(1), Return(1));
    var t := State(Some(2), Some(Encode(2, 8)), [Call(1, false)], [2]);
    GetsOn(taken + [Store(1)] + [Return(1)], t, Store(0), Return(0));
    acts := taken + [Store(1)] + [Return(1)] + [Store(0)] + [Return(0)];
  }

  // Why calls must not overlap: two overlapping calls that store in the other order lose an
  // epoch from the file, and after a crash the same epoch is issued a second time.
  lemma OverlappingCallsRepeatAnEpoch() returns (acts: seq<Action>)
    ensures Initial(NOTHING_YET) && CanRun(NOTHING_YET, acts) && RunAll(NOTHING_YET, acts).issued == [2, 1, 2]
  {
    var stored := OlderStoredLast();
    LoadStored(1);
    GetsOn(stored, State(Some(2), Some(Encode(1, 8)), [], [2, 1]), Crash, Restart);
    acts := stored + [Crash] + [Restart];
    RunOneMore(NOTHING_YET, acts, Take);
    acts := acts + [Take];
    var s := State(Some(2), Some(Encode(1, 8)), [Call(2, false)], [2, 1]);
    assert Gets(acts, s);
    GetsOn(acts, s, Store(0), Return(0));
    acts := acts + [Store(0)] + [Return(0)];
  }

  // With overlapping calls: a write never lowers the file, and the counter stays within int64.
  predicate Raising(s: State, a: Action)
    requires Enabled(s, a)
  {
    && (a.Take? ==> s.memory.value + 1 < TWO_63)
    && (a.Store? ==> Load(s.file) <= s.calls[a.call].value)
  }

  ghost predicate RaisingRun(s: State, acts: seq<Action>)
    requires CanRun(s, acts)
    decreases |acts|
  {
    acts == [] || (Raising(s, acts[0]) && RaisingRun(Apply(s, acts[0]), acts[1..]))
  }

  // Every call in progress has a value of its own, above zero and not issued yet.
  ghost predicate CallsOk(s: State) {
    && (s.calls != [] ==> s.memory.Some?)
    && (forall i :: 0 <= i < |s.calls| ==> 0 < s.calls[i].value <= s.memory.value)
    && (forall i :: 0 <= i < |s.calls| && s.calls[i].stored ==> s.calls[i].value <= Load(s.file))
    && (forall i, j :: 0 <= i < j < |s.calls| ==> s.calls[i].value != s.calls[j].value)
    && (forall i, j :: 0 <= i < |s.calls| && 0 <= j < |s.issued| ==> s.calls[i].value != s.issued[j])
  }

  ghost predicate OverlapInv(s: State) {
    && Load(s.file) < TWO_63
    && (s.memory.Some? ==> Load(s.file) <= s.memory.value < TWO_63)
    && (forall j :: 0 <= j < |s.issued| ==> 0 < s.issued[j] <= Load(s.file))
    && Distinct(s.issued) && CallsOk(s)
  }

  // A call that ends, with or without issuing its value, leaves the others as they were.
  lemma EndedCall(s: State, t: State, i: nat)
    requires CallsOk(s) && i < |s.calls| && t.calls == Without(s.calls, i) && t.memory == s.memory && t.file == s.file
    requires t.issued == s.issued || t.issued == s.issued + [s.calls[i].value]
    ensures CallsOk(t)
  {
    assert forall j :: 0 <= j < |t.calls| ==> t.calls[j] == s.calls[if j < i then j else j + 1];
    forall j, k | 0 <= j < |t.calls| && 0 <= k < |t.issued| ensures t.calls[j].value != t.issued[k] {
      var from := if j < i then j else j + 1;
      assert t.calls[j] == s.calls[from] && from != i;
      assert s.calls[from].value != s.calls[i].value;
    }
  }

  lemma StoreKeepsOverlapInv(s: State, i: nat)
    requires OverlapInv(s) && Enabled(s, Store(i)) && Raising(s, Store(i))
    ensures OverlapInv(Apply(s, Store(i)))
  {
    LoadStored(s.calls[i].value);
  }

  lemma TakeKeepsOverlapInv(s: State)
    requires OverlapInv(s) && Enabled(s, Take) && Raising(s, Take)
    ensures OverlapInv(Apply(s, Take))
  {
  }

  lemma ReturnKeepsOverlapInv(s: State, i: nat)
    requires OverlapInv(s) && Enabled(s, Return(i))
    ensures OverlapInv(Apply(s, Return(i)))
  {
    EndedCall(s, Apply(s, Return(i)), i);
  }

  lemma RaisingStepKeepsInv(s: State, a: Action)
    requires OverlapInv(s) && Enabled(s, a) && Raising(s, a)
    ensures OverlapInv(Apply(s, a))
  {
    match a
    case Take => TakeKeepsOverlapInv(s);
    case Store(i) => StoreKeepsOverlapInv(s, i);
    case Return(i) => ReturnKeepsOverlapInv(s, i);
    case StoreFails(i) => EndedCall(s, Apply(s, a), i);
    case Crash =>
    case Restart =>
  }

  lemma {:induction false} RaisingRunKeepsInv(s: State, acts: seq<Action>)
    requires OverlapInv(s) && CanRun(s, acts) && RaisingRun(s, acts)
    ensures OverlapInv(RunAll(s, acts))
    decreases |acts|
  {
    if acts != [] {
      RaisingStepKeepsInv(s, acts[0]);
      RaisingRunKeepsInv(Apply(s, acts[0]), acts[1..]);
    }
  }

  // Overlapping calls are safe as long as no write lowers the file: no epoch is issued twice, also
  // across crashes, and none below an issued one validates again.
  lemma OverlappingCallsFence(s0: State, acts: seq<Action>)
    requires Initial(s0) && CanRun(s0, acts) && RaisingRun(s0, acts)
    ensures var s := RunAll(s0, acts);
            && Distinct(s.issued)
            && forall e, stale: int :: e in s.issued && stale < e && s.memory.Some? ==> !Accepts(s.memory.value, stale)
  {
    RaisingRunKeepsInv(s0, acts);
  }

  // Calls may overlap and store in any order; only the counter stays within int64.
  predicate Bounded(s: State, a: Action) { a.Take? && s.memory.Some? ==> s.memory.value + 1 < TWO_63 }

  ghost predicate BoundedRun(s: State, acts: seq<Action>)
    requires CanRun(s, acts)
    decreases |acts|
  {
    acts == [] || (Bounded(s, acts[0]) && BoundedRun(Apply(s, acts[0]), acts[1..]))
  }

  ghost predicate InInt64(s: State) {
    && Load(s.file) < TWO_63 && (s.memory.Some? ==> s.memory.value < TWO_63)
    && (forall i :: 0 <= i < |s.calls| ==> s.calls[i].value < TWO_63)
    && (forall j :: 0 <= j < |s.issued| ==> 0 <= s.issued[j] < TWO_63)
  }

  lemma BoundedStep(s: State, a: Action)
    requires InInt64(s) && Enabled(s, a) && Bounded(s, a)
    ensures InInt64(Apply(s, a))
  {
    if a.Store? { LoadStored(s.calls[a.call].value); }
  }

  lemma {:induction false} BoundedRunFits(s: State, acts: seq<Action>)
    requires InInt64(s) && CanRun(s, acts) && BoundedRun(s, acts)
    ensures InInt64(RunAll(s, acts))
    decreases |acts|
  {
    if acts != [] {
      BoundedStep(s, acts[0]);
      BoundedRunFits(Apply(s, acts[0]), acts[1..]);
    }
  }

  // The process crashes and starts again over the file it left.
  function Restarted(s: State): State { s.(memory := Some(Load(s.file)), calls := []) }

  // Orderly calls of the new process issue an epoch that was issued before the crash.
  ghost predicate MayRepeat(s: State) {
    exists acts :: CanRun(Restarted(s), acts) && OrderlyRun(Restarted(s), acts) && Repeats(s.issued, RunAll(Restarted(s), acts).issued)
  }

  ghost predicate Repeats(before: seq<int>, after: seq<int>) {
    exists i, j :: 0 <= i < |before| <= j < |after| && after[j] == before[i]
  }

  // Everything since the restart is above the file the process started from.
  ghost predicate Above(s: State, floor: nat, n: nat) {
    && Load(s.file) >= floor && (s.memory.Some? ==> floor <= s.memory.value < TWO_63)
    && (forall i :: 0 <= i < |s.calls| ==> floor < s.calls[i].value < TWO_63)
    && n <= |s.issued| && forall j :: n <= j < |s.issued| ==> s.issued[j] > floor
  }

  lemma AboveStep(s: State, a: Action, floor: nat, n: nat)
    requires Above(s, floor, n) && Load(s.file) < TWO_63 && Enabled(s, a) && Bounded(s, a)
    ensures Above(Apply(s, a), floor, n) && Load(Apply(s, a).file) < TWO_63
    ensures Apply(s, a).issued[..n] == s.issued[..n]
  {
    if a.Store? { LoadStored(s.calls[a.call].value); }
  }

  lemma {:induction false} AboveRun(s: State, acts: seq<Action>, floor: nat, n: nat)
    requires Above(s, floor, n) && Load(s.file) < TWO_63 && CanRun(s, acts) && OrderlyRun(s, acts)
    ensures Above(RunAll(s, acts), floor, n)
    decreases |acts|
  {
    if acts != [] {
      AboveStep(s, acts[0], floor, n);
      AboveRun(Apply(s, acts[0]), acts[1..], floor, n);
    }
  }

  // One orderly call from a counter that the file holds.
  function Issued(s: State, m: nat): State
    requires m < TWO_64
  {
    s.(memory := Some(m), file := Some(Encode(m, 8)), calls := [], issued := s.issued + [ToInt64(m)])
  }

  lemma {:induction false} OrderlyCompose(s: State, a: seq<Action>, b: seq<Action>)
    requires CanRun(s, a) && OrderlyRun(s, a) && CanRun(RunAll(s, a), b) && OrderlyRun(RunAll(s, a), b)
    ensures CanRun(s, a + b) && OrderlyRun(s, a + b) && RunAll(s, a + b) == RunAll(RunAll(s, a), b)
    decreases |a|
  {
    if a == [] {
      assert a + b == b;
    } else {
      OrderlyCompose(Apply(s, a[0]), a[1..], b);
      assert (a + b)[1..] == a[1..] + b;
    }
  }

  lemma OrderlyOne(s: State, a: Action)
    requires Enabled(s, a) && Orderly(s, a)
    ensures CanRun(s, [a]) && OrderlyRun(s, [a]) && RunAll(s, [a]) == Apply(s, a)
  {
    assert [a][1..] == [];
    assert RunAll(Apply(s, a), []) == Apply(s, a);
  }

  lemma {:induction false} CallOnce(s: State) returns (acts: seq<Action>)
    requires s.memory.Some? && s.calls == [] && s.memory.value + 1 < TWO_63
    ensures CanRun(s, acts) && OrderlyRun(s, acts) && RunAll(s, acts) == Issued(s, s.memory.value + 1)
  {
    var m := s.memory.value + 1;
    var taken := s.(memory := Some(m), calls := [Call(m, false)]);
    var stored := taken.(file := Some(Encode(m, 8)), calls := [Call(m, true)]);
    OrderlyOne(s, Take);
    assert Apply(s, Take) == taken;
    OrderlyOne(taken, Store(0));
    OrderlyCompose(s, [Take], [Store(0)]);
    assert Apply(taken, Store(0)) == stored;
    OrderlyOne(stored, Return(0));
    OrderlyCompose(s, [Take] + [Store(0)], [Return(0)]);
    acts := [Take] + [Store(0)] + [Return(0)];
  }

  // Orderly calls count up to any epoch above the counter.
  lemma {:induction false} CountUpTo(s: State, e: nat) returns (acts: seq<Action>)
    requires s.memory.Some? && s.calls == [] && s.memory.value < e < TWO_63
    ensures CanRun(s, acts) && OrderlyRun(s, acts)
    ensures var t := RunAll(s, acts); s.issued < t.issued && t.issued[|t.issued| - 1] == e
    decreases e - s.memory.value
  {
    var m := s.memory.value + 1;
    acts := CallOnce(s);
    if m < e {
      var rest := CountUpTo(Issued(s, m), e);
      OrderlyCompose(s, acts, rest);
      acts := acts + rest;
    }
  }

  // Exactly when the epochs of a process whose calls overlapped can come again after a crash, in
  // orderly calls: some issued epoch is above what the file holds.
  lemma RepeatPossibleIff(s0: State, acts: seq<Action>)
    requires Initial(s0) && CanRun(s0, acts) && BoundedRun(s0, acts)
    ensures var s := RunAll(s0, acts);
            MayRepeat(s) <==> exists i :: 0 <= i < |s.issued| && s.issued[i] > Load(s.file)
  {
    var s := RunAll(s0, acts);
    BoundedRunFits(s0, acts);
    if i :| 0 <= i < |s.issued| && s.issued[i] > Load(s.file) {
      var more := CountUpTo(Restarted(s), s.issued[i]);
      var t := RunAll(Restarted(s), more);
      assert t.issued[|t.issued| - 1] == s.issued[i] && |s.issued| <= |t.issued| - 1;
      assert Repeats(s.issued, t.issued);
    } else {
      forall more | CanRun(Restarted(s), more) && OrderlyRun(Restarted(s), more)
        ensures !Repeats(s.issued, RunAll(Restarted(s), more).issued)
      {
        AboveRun(Restarted(s), more, Load(s.file), |s.issued|);
      }
    }
  }

  // Where the bound on the counter comes from: the epoch a call takes is accepted by its own store
  // if and only if the wrapped counter fits in int64. The first refused is the one after 2^63 - 1.
  lemma OwnEpochAcceptedIff(s: State, m: nat)
    requires s.memory == Some(m)
    ensures var t := Apply(s, Take);
            Accepts(t.memory.value, ToInt64(t.calls[|s.calls|].value)) <==> Wrap(m + 1) < TWO_63
  {
  }

  // ---------------------------------------------------------------- the objects

  class EpochFile {
    var content: Option<seq<Byte>>

    constructor ()
      ensures content == None
    {
      content := None;
    }
  }

  class LeaseFencingStore {
    const file: EpochFile
    var epoch: nat

    constructor (file: EpochFile)
      ensures this.file == file && epoch == Load(file.content)
    {
      this.file := file;
      epoch := Load(file.content);
    }

    // `fault`: writing or renaming the temporary file fails.
    method Persist(value: nat, fault: bool) returns (ok: bool)
      requires value < TWO_64
      modifies file
      ensures ok == !fault && file.content == if ok then Some(Encode(value, 8)) else old(file.content)
    {
      if fault { return false; }
      file.content := Some(Encode(value, 8));
      return true;
    }

    // One call with no other call in between: exactly the steps Take, Store and Return, or Take
    // and StoreFails, of the runs above.
    method Next(fault: bool) returns (r: Option<int>)
      modifies this`epoch, file
      ensures var s := Apply(State(Some(old(epoch)), old(file.content), [], []), Take);
              && State(Some(epoch), file.content, [], if r.Some? then [r.value] else []) ==
                 (if fault then Apply(s, StoreFails(0)) else Apply(Apply(s, Store(0)), Return(0)))
              && r == (if fault then None else Some(ToInt64(epoch))) && epoch == Wrap(old(epoch) + 1)
    {
      epoch := Wrap(epoch + 1);
      var ok := Persist(epoch, fault);
      r := if ok then Some(ToInt64(epoch)) else None;
    }

    method Validate(e: int) returns (ok: bool)
      ensures ok == Accepts(epoch, e)
      ensures ok <==> epoch == 0 || e >= epoch
    {
      if epoch == 0 { return true; }
      if e <= 0 || e < epoch { return false; }
      return true;
    }
  }

  type ReplicaSet = nat // 0 is the nil id

  // One store per replica set, opened on first use over the file of that set.
  class LeaseFencingRegistry {
    var stores: map<ReplicaSet, LeaseFencingStore>
    var files: map<ReplicaSet, EpochFile>

    ghost predicate Valid()
      reads this, stores.Values, files.Values
    {
      && stores.Keys <= files.Keys
      && (forall i :: i in stores ==> stores[i].file == files[i])
      && (forall i, j :: i in files && j in files && i != j ==> files[i] != files[j])
      && (forall i, j :: i in stores && j in stores && i != j ==> stores[i] != stores[j])
    }

    // The floor a set is fenced at: of its open store, else of the file it would be opened over.
    function Floor(i: ReplicaSet): nat
      reads this, stores.Values, files.Values
    {
      if i in stores then stores[i].epoch else if i in files then Load(files[i].content) else 0
    }

    constructor ()
      ensures Valid() && stores == map[] && files == map[] && forall i :: Floor(i) == 0
    {
      stores, files := map[], map[];
    }

    method CreateFile(i: ReplicaSet)
      requires Valid() && i !in stores
      modifies this
      ensures Valid() && stores == old(stores) && i in files && fresh(files.Values - old(files.Values))
      ensures forall j :: Floor(j) == old(Floor(j))
    {
      if i !in files {
        var f := new EpochFile();
        files := files[i := f];
      }
    }

    method StoreFor(i: ReplicaSet) returns (s: Option<LeaseFencingStore>)
      requires Valid()
      modifies this
      ensures Valid() && s.Some? == (i != 0)
      ensures s.Some? ==> i in stores && stores[i] == s.value && fresh(stores.Values - old(stores.Values))
      ensures fresh(files.Values - old(files.Values))
      ensures forall j :: Floor(j) == old(Floor(j))
    {
      if i == 0 { return None; }
      if i in stores { return Some(stores[i]); }
      CreateFile(i);
      OpenStore(i);
      return Some(stores[i]);
    }

    method OpenStore(i: ReplicaSet)
      requires Valid() && i in files && i !in stores
      modifies this
      ensures Valid() && files == old(files) && i in stores && fresh(stores.Values - old(stores.Values))
      ensures forall j :: Floor(j) == old(Floor(j))
    {
      var store := new LeaseFencingStore(files[i]);
      stores := stores[i := store];
    }

    // Issuing for one replica set leaves the floor of every other set where it was.
    method Next(i: ReplicaSet, fault: bool) returns (r: Option<int>)
      requires Valid()
      modifies this, stores.Values, files.Values
      ensures Valid()
      ensures i != 0 ==> Floor(i) == Wrap(old(Floor(i)) + 1)
      ensures r == if i != 0 && !fault then Some(ToInt64(Wrap(old(Floor(i)) + 1))) else None
      ensures forall j :: j != i ==> Floor(j) == old(Floor(j))
    {
      var s := StoreFor(i);
      if s.None? { return None; }
      r := s.value.Next(fault);
    }
  }

  // ---------------------------------------------------------------- dedup scope of an attempt

  datatype Scope = Scope(seqStart: int, seqEnd: int)

  // The scope of a later attempt of an operation; the other scope fields are copied.
  function ScopeWithAttempt(s: Scope, attempt: int): Scope {
    if attempt <= 1 then s else Scope(s.seqStart * 1000 + attempt, s.seqEnd * 1000 + attempt)
  }

  // Exactly which attempts share a dedup scope, for all attempt numbers: the same attempt, a first
  // attempt and a later one of the operation whose sequence numbers it extends, or two later ones
  // whose attempt numbers differ by as many thousands as their sequence numbers by units.
  lemma ScopesCollideIff(a: Scope, m: int, b: Scope, n: int)
    ensures ScopeWithAttempt(a, m) == ScopeWithAttempt(b, n) <==>
              if m <= 1 && n <= 1 then a == b
              else if m <= 1 then a == Scope(b.seqStart * 1000 + n, b.seqEnd * 1000 + n)
              else if n <= 1 then b == Scope(a.seqStart * 1000 + m, a.seqEnd * 1000 + m)
              else (n - m) % 1000 == 0 && a.seqStart - b.seqStart == (n - m) / 1000 == a.seqEnd - b.seqEnd
  {
  }

  // So among later attempts numbered below 1000, only the same attempt of the same operation.
  lemma LaterAttemptsDistinct(a: Scope, m: int, b: Scope, n: int)
    requires 1 < m < 1000 && 1 < n < 1000 && ScopeWithAttempt(a, m) == ScopeWithAttempt(b, n)
    ensures a == b && m == n
  {
    ScopesCollideIff(a, m, b, n);
  }
}
