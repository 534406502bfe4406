/**
 Setting one key on every Redis shard, used as a claim. The method is one caller alone; the state
 machine below it interleaves any number of callers shard by shard.
 */
module ControlFanout {
  import opened Common

  type Shard = Option<map<string, string>> // None is a nil client

  datatype Error = NoClients | NilShard(shard: nat) | Unanswered(shard: nat)
  datatype Result = Claimed(allNew: bool) | Failure(error: Error)

  // SETNX leaves a key that exists as it is.
  function SetNX(s: Shard, key: string, value: string): Shard {
    if s.Some? && key !in s.value then Some(s.value[key := value]) else s
  }

  predicate Has(s: Shard, key: string) { s.Some? && key in s.value }

  // `answers(i)`: the i-th shard answers. A failing call leaves the shards before it set.
  method SetNXOnAllShards(shards: array<Shard>, key: string, value: string, answers: nat -> bool) returns (r: Result)
    modifies shards
    ensures r == Failure(NoClients) <==> shards.Length == 0
    ensures r.Claimed? ==>
              && (forall i :: 0 <= i < shards.Length ==> old(shards[i]).Some? && answers(i))
              && (forall i :: 0 <= i < shards.Length ==> shards[i] == SetNX(old(shards[i]), key, value))
              && (r.allNew <==> forall i :: 0 <= i < shards.Length ==> !Has(old(shards[i]), key))
    ensures r.Failure? && !r.error.NoClients? ==>
              var f := r.error.shard;
              && f < shards.Length
              && (forall i :: 0 <= i < f ==> old(shards[i]).Some? && answers(i) && shards[i] == SetNX(old(shards[i]), key, value))
              && (forall i :: f <= i < shards.Length ==> shards[i] == old(shards[i]))
              && (r.error.NilShard? <==> old(shards[f]).None?)
              && (r.error.Unanswered? <==> old(shards[f]).Some? && !answers(f))
  {
    if shards.Length == 0 { return Failure(NoClients); }
    var allNew := true;
    for n := 0 to shards.Length
      invariant forall i :: 0 <= i < n ==> old(shards[i]).Some? && answers(i)
      invariant forall i :: 0 <= i < n ==> shards[i] == SetNX(old(shards[i]), key, value)
      invariant forall i :: n <= i < shards.Length ==> shards[i] == old(shards[i])
      invariant allNew <==> forall i :: 0 <= i < n ==> !Has(old(shards[i]), key)
    {
      if shards[n].None? { return Failure(NilShard(n)); }
      if !answers(n) { return Failure(Unanswered(n)); }
      if key in shards[n].value {
        allNew := false;
      } else {
        shards[n] := SetNX(shards[n], key, value);
      }
    }
    return Claimed(allNew);
  }

  // ---------------------------------------------------------------- concurrent callers

  // A caller's next shard and its flag so far; an error ends the call.
  datatype Caller = Caller(next: nat, allNew: bool, stopped: bool)
  datatype State = State(present: seq<bool>, callers: seq<Caller>)
  datatype Action = Send(caller: nat) | Fail(caller: nat) | AckLost(caller: nat)

  predicate Enabled(s: State, a: Action) {
    a.caller < |s.callers| && !s.callers[a.caller].stopped && s.callers[a.caller].next < |s.present|
  }

  function Apply(s: State, a: Action): State
    requires Enabled(s, a)
  {
    var c := s.callers[a.caller];
    match a
    case Send(i) =>
      State(s.present[c.next := true], s.callers[i := c.(next := c.next + 1, allNew := c.allNew && !s.present[c.next])])
    case Fail(i) => State(s.present, s.callers[i := c.(stopped := true)])
    case AckLost(i) => State(s.present[c.next := true], s.callers[i := c.(stopped := true)])
  }

  ghost predicate CanRun(s: State, acts: seq<Action>)
    decreases |acts|
  {
    acts == [] || (Enabled(s, acts[0]) && CanRun(Apply(s, acts[0]), acts[1..]))
  }

  ghost function RunAll(s: State, acts: seq<Action>): State
    requires CanRun(s, acts)
    decreases |acts|
  {
    if acts == [] then s else RunAll(Apply(s, acts[0]), acts[1..])
  }

  ghost predicate Initial(s: State) { forall i :: 0 <= i < |s.callers| ==> s.callers[i] == Caller(0, true, false) }

  // A caller that was told the key was new on every shard.
  predicate Won(s: State, i: nat)
    requires i < |s.callers|
  {
    var c := s.callers[i];
    c.next == |s.present| > 0 && c.allNew && !c.stopped
  }

  predicate Leading(c: Caller) { c.next > 0 && c.allNew }

  // Only the caller that set the first shard can still win.
  ghost predicate Inv(s: State) {
    && (forall i :: 0 <= i < |s.callers| ==> s.callers[i].next <= |s.present|)
    && (forall i :: 0 <= i < |s.callers| && Leading(s.callers[i]) ==> s.present[0])
    && (forall i, j :: 0 <= i < j < |s.callers| ==> !(Leading(s.callers[i]) && Leading(s.callers[j])))
  }

  lemma StepKeepsInv(s: State, a: Action)
    requires Inv(s) && Enabled(s, a)
    ensures Inv(Apply(s, a))
  {
  }

  lemma {:induction false} RunKeepsInv(s: State, acts: seq<Action>)
    requires Inv(s) && CanRun(s, acts)
    ensures Inv(RunAll(s, acts)) && |RunAll(s, acts).callers| == |s.callers|
    decreases |acts|
  {
    if acts != [] {
      StepKeepsInv(s, acts[0]);
      RunKeepsInv(Apply(s, acts[0]), acts[1..]);
    }
  }

  // Over every interleaving of any number of callers, at most one is told its claim was new.
  lemma AtMostOneWins(s: State, acts: seq<Action>, i: nat, j: nat)
    requires Initial(s) && CanRun(s, acts) && i < j < |RunAll(s, acts).callers|
    ensures !(Won(RunAll(s, acts), i) && Won(RunAll(s, acts), j))
  {
    RunKeepsInv(s, acts);
  }

  // ---------------------------------------------------------------- when somebody always wins

  function Start(shards: nat, callers: nat): State {
    State(seq(shards, _ => false), seq(callers, _ => Caller(0, true, false)))
  }

  // Every call ran to its end without an error.
  ghost predicate Finished(s: State) {
    forall i :: 0 <= i < |s.callers| ==> s.callers[i].next == |s.present| && !s.callers[i].stopped
  }

  ghost predicate SomebodyWon(s: State) { exists i :: 0 <= i < |s.callers| && Won(s, i) }

  ghost predicate Unstopped(s: State) { forall i :: 0 <= i < |s.callers| ==> !s.callers[i].stopped }

  // With one shard, or one caller, the first to set the first shard is never beaten elsewhere.
  ghost predicate Unbeaten(s: State) {
    && (forall i :: 0 <= i < |s.callers| ==> s.callers[i].next <= |s.present|)
    && (forall i :: 0 <= i < |s.callers| && s.callers[i].next == 0 ==> s.callers[i].allNew)
    && (forall i, j :: 0 <= i < |s.callers| && 0 <= j < s.callers[i].next ==> s.present[j])
    && (|s.present| > 0 && s.present[0] ==> exists i :: 0 <= i < |s.callers| && Leading(s.callers[i]))
    && (|s.callers| == 1 ==> forall j :: s.callers[0].next <= j < |s.present| ==> !s.present[j])
  }

  lemma StepKeepsUnbeaten(s: State, a: Action)
    requires |s.callers| == 1 || |s.present| == 1
    requires Unbeaten(s) && Enabled(s, a) && Unstopped(Apply(s, a))
    ensures Unbeaten(Apply(s, a)) && Unstopped(s)
  {
    var t := Apply(s, a);
    var i := a.caller;
    assert forall j :: 0 <= j < |s.callers| && j != i ==> t.callers[j] == s.callers[j];
    assert !t.callers[i].stopped;
    if s.present[0] {
      var l :| 0 <= l < |s.callers| && Leading(s.callers[l]);
      assert Leading(t.callers[l]);
    } else {
      assert Leading(t.callers[i]);
    }
  }

  lemma StoppedStays(s: State, a: Action)
    requires Enabled(s, a) && !Unstopped(s)
    ensures !Unstopped(Apply(s, a))
  {
    var i :| 0 <= i < |s.callers| && s.callers[i].stopped;
    assert Apply(s, a).callers[i].stopped;
  }

  lemma {:induction false} RunKeepsUnbeaten(s: State, acts: seq<Action>)
    requires |s.callers| == 1 || |s.present| == 1
    requires Unbeaten(s) && CanRun(s, acts) && Unstopped(RunAll(s, acts))
    ensures Unbeaten(RunAll(s, acts)) && Unstopped(s)
    ensures |RunAll(s, acts).callers| == |s.callers| && |RunAll(s, acts).present| == |s.present|
    decreases |acts|
  {
    if acts != [] {
      var t := Apply(s, acts[0]);
      if !Unstopped(t) { RunStaysStopped(t, acts[1..]); }
      StepKeepsUnbeaten(s, acts[0]);
      RunKeepsUnbeaten(t, acts[1..]);
    }
  }

  lemma {:induction false} RunStaysStopped(s: State, acts: seq<Action>)
    requires CanRun(s, acts) && !Unstopped(s)
    ensures !Unstopped(RunAll(s, acts))
    decreases |acts|
  {
    if acts != [] {
      StoppedStays(s, acts[0]);
      RunStaysStopped(Apply(s, acts[0]), acts[1..]);
    }
  }

  lemma FinishedHasWinner(shards: nat, callers: nat, acts: seq<Action>)
    requires callers >= 1 && shards >= 1 && (callers == 1 || shards == 1)
    requires CanRun(Start(shards, callers), acts) && Finished(RunAll(Start(shards, callers), acts))
    ensures SomebodyWon(RunAll(Start(shards, callers), acts))
  {
    var t := RunAll(Start(shards, callers), acts);
    assert Unstopped(t);
    RunKeepsUnbeaten(Start(shards, callers), acts);
    assert t.callers[0].next == |t.present|;
    var i :| 0 <= i < |t.callers| && Leading(t.callers[i]);
    assert Won(t, i);
  }

  // ---------------------------------------------------------------- a run nobody wins

  lemma {:induction false} RunsCompose(s: State, a: seq<Action>, b: seq<Action>)
    requires CanRun(s, a) && CanRun(RunAll(s, a), b)
    ensures CanRun(s, a + b) && RunAll(s, a + b) == RunAll(RunAll(s, a), b)
    decreases |a|
  {
    if a == [] {
      assert a + b == b;
    } else {
      RunsCompose(Apply(s, a[0]), a[1..], b);
      assert (a + b)[1..] == a[1..] + b;
    }
  }

  // One caller runs on to the end: every shard from its position on is set, and it loses if one
  // of those was set already.
  lemma {:induction false} RunOn(s: State, i: nat) returns (acts: seq<Action>)
    requires i < |s.callers| && !s.callers[i].stopped && s.callers[i].next <= |s.present|
    ensures CanRun(s, acts)
    ensures var t, c := RunAll(s, acts), s.callers[i];
            && |t.present| == |s.present| && |t.callers| == |s.callers|
            && (forall j :: 0 <= j < |s.present| ==> t.present[j] == (s.present[j] || j >= c.next))
            && (forall j :: 0 <= j < |s.callers| && j != i ==> t.callers[j] == s.callers[j])
            && t.callers[i].next == |s.present| && !t.callers[i].stopped
            && (t.callers[i].allNew ==> c.allNew && forall j :: c.next <= j < |s.present| ==> !s.present[j])
    decreases |s.present| - s.callers[i].next
  {
    if s.callers[i].next == |s.present| {
      acts := [];
    } else {
      var t := Apply(s, Send(i));
      var rest := RunOn(t, i);
      acts := [Send(i)] + rest;
      assert acts[1..] == rest;
      if RunAll(s, acts).callers[i].allNew {
        forall j | s.callers[i].next <= j < |s.present| ensures !s.present[j] {
          if j > s.callers[i].next { assert t.present[j] == s.present[j]; }
        }
      }
    }
  }

  // Every shard is set and nobody who is done is still all-new: nobody will win.
  ghost predicate Lost(s: State) {
    && (forall j :: 0 <= j < |s.present| ==> s.present[j])
    && (forall i :: 0 <= i < |s.callers| ==>
          !s.callers[i].stopped && s.callers[i].next <= |s.present|
          && (s.callers[i].next == |s.present| ==> !s.callers[i].allNew))
  }

  lemma {:induction false} FinishLost(s: State, done: nat) returns (acts: seq<Action>)
    requires Lost(s) && done <= |s.callers| && forall i :: 0 <= i < done ==> s.callers[i].next == |s.present|
    ensures CanRun(s, acts) && Finished(RunAll(s, acts)) && !SomebodyWon(RunAll(s, acts))
    decreases |s.callers| - done
  {
    if done == |s.callers| {
      acts := [];
    } else {
      var on := RunOn(s, done);
      var t, next := RunAll(s, on), s.callers[done].next;
      assert next < |s.present| ==> s.present[next];
      assert Lost(t);
      var rest := FinishLost(t, done + 1);
      RunsCompose(s, on, rest);
      acts := on + rest;
    }
  }

  // The second caller overtakes the first between its first and its second shard.
  lemma OvertakenRun(shards: nat, callers: nat) returns (acts: seq<Action>)
    requires shards >= 2 && callers >= 2
    ensures var s := Start(shards, callers);
            CanRun(s, acts) && Finished(RunAll(s, acts)) && !SomebodyWon(RunAll(s, acts))
  {
    var s := Start(shards, callers);
    var t := Apply(s, Send(0));
    var overtake := RunOn(t, 1);
    var u := RunAll(t, overtake);
    assert t.present[0] && !u.callers[1].allNew;
    assert Lost(u);
    var rest := FinishLost(u, 0);
    RunsCompose(t, overtake, rest);
    acts := [Send(0)] + (overtake + rest);
    assert acts[1..] == overtake + rest;
  }

  // Exactly when calls that all succeed always have a winner, the key being absent at first: one
  // caller, or one shard. For every other count some run tells every caller the key was not new.
  lemma SomebodyAlwaysWinsIff(shards: nat, callers: nat)
    ensures (forall acts :: CanRun(Start(shards, callers), acts) && Finished(RunAll(Start(shards, callers), acts)) ==>
               SomebodyWon(RunAll(Start(shards, callers), acts)))
            <==> shards >= 1 && callers >= 1 && (shards == 1 || callers == 1)
  {
    var s := Start(shards, callers);
    if shards >= 1 && callers >= 1 && (shards == 1 || callers == 1) {
      forall acts | CanRun(s, acts) && Finished(RunAll(s, acts)) ensures SomebodyWon(RunAll(s, acts)) {
        FinishedHasWinner(shards, callers, acts);
      }
    } else if shards >= 2 && callers >= 2 {
      var acts := OvertakenRun(shards, callers);
      assert CanRun(s, acts) && Finished(RunAll(s, acts)) && !SomebodyWon(RunAll(s, acts));
    } else {
      var none: seq<Action> := [];
      assert CanRun(s, none) && Finished(RunAll(s, none)) && !SomebodyWon(RunAll(s, none));
    }
  }
}
