/**
 The grid search that tunes the fraud policy on labelled samples: it returns the first grid point
 that maximises the objective among those that keep both false-positive rates under their caps.
 Rates are stated over the row-by-row decisions of the tuned policy, although the search computes
 them with the vectorised scorer.
 */
module PolicyCalibration {
  import opened Common
  import opened ScoringPolicy

  datatype Sample = Sample(row: Row, truth: int, archetype: string, prob: real)

  datatype Caps = Caps(maxFpr: real, maxBlockFpr: real)

  datatype Grid = Grid(thresholds: seq<real>, floors: seq<real>, maxMls: seq<real>, fpCaps: seq<real>)

  // The best point so far; the base configuration stands for none.
  datatype Best = Best(point: Option<Tuning>, score: real)

  const NONE_YET := Best(None, -1.0)

  function ConfigOf(t: Tuning): Config { DEFAULT.(tuning := t) }

  // ---------------------------------------------------------------- rates

  function Count(labels: seq<int>, preds: seq<bool>, truth: int, pred: bool): nat
    requires |labels| == |preds|
  {
    if labels == [] then 0
    else
      var n := |labels| - 1;
      Count(labels[..n], preds[..n], truth, pred) + if labels[n] == truth && preds[n] == pred then 1 else 0
  }

  function Rate(hits: nat, misses: nat): real {
    if hits + misses > 0 then hits as real / (hits + misses) as real else 0.0
  }

  lemma RateRange(hits: nat, misses: nat)
    ensures 0.0 <= Rate(hits, misses) <= 1.0
  {
    if hits + misses > 0 {
      var h, n := hits as real, (hits + misses) as real;
      assert h / n * n == h;
    }
  }

  function Recall(labels: seq<int>, preds: seq<bool>): real
    requires |labels| == |preds|
  {
    Rate(Count(labels, preds, 1, true), Count(labels, preds, 1, false))
  }

  function FalsePositiveRate(labels: seq<int>, preds: seq<bool>): real
    requires |labels| == |preds|
  {
    Rate(Count(labels, preds, 0, true), Count(labels, preds, 0, false))
  }

  method Confusion(labels: seq<int>, preds: seq<bool>) returns (tp: nat, tn: nat, fp: nat, fn: nat)
    requires |labels| == |preds|
    ensures tp == Count(labels, preds, 1, true) && fn == Count(labels, preds, 1, false)
    ensures fp == Count(labels, preds, 0, true) && tn == Count(labels, preds, 0, false)
  {
    tp, tn, fp, fn := 0, 0, 0, 0;
    for i := 0 to |labels|
      invariant tp == Count(labels[..i], preds[..i], 1, true) && fn == Count(labels[..i], preds[..i], 1, false)
      invariant fp == Count(labels[..i], preds[..i], 0, true) && tn == Count(labels[..i], preds[..i], 0, false)
    {
      assert labels[..i + 1][..i] == labels[..i] && preds[..i + 1][..i] == preds[..i];
      if labels[i] == 1 {
        if preds[i] { tp := tp + 1; } else { fn := fn + 1; }
      } else if labels[i] == 0 {
        if preds[i] { fp := fp + 1; } else { tn := tn + 1; }
      }
    }
    assert labels[..|labels|] == labels && preds[..|preds|] == preds;
  }

  // ---------------------------------------------------------------- what a tuned policy does on the samples

  function LabelsOf(d: seq<Sample>): seq<int> { seq(|d|, i requires 0 <= i < |d| => d[i].truth) }

  // Which samples the row-by-row policy acts on: any tier but pass, or the block tier only.
  function Positives(d: seq<Sample>, t: Tuning, blockOnly: bool): seq<bool> {
    seq(|d|, i requires 0 <= i < |d| => FraudPositive(Decide(d[i].row, d[i].prob, ConfigOf(t)), blockOnly))
  }

  predicate MeetsCaps(d: seq<Sample>, caps: Caps, t: Tuning) {
    && FalsePositiveRate(LabelsOf(d), Positives(d, t, false)) <= caps.maxFpr
    && FalsePositiveRate(LabelsOf(d), Positives(d, t, true)) <= caps.maxBlockFpr
  }

  // Which samples a tuning acts on and blocks, under the shipped tiers: its adjusted probability,
  // by the signals of the row, scores above 30, or above 80.
  lemma ActedOnIff(d: seq<Sample>, t: Tuning, i: nat)
    requires i < |d|
    ensures var s := d[i];
            var raised := if s.prob >= t.proxyMaxMl || s.prob >= t.proxyFloor then s.prob else t.proxyFloor;
            var adjusted := if ProxySignal(s.row, DEFAULT.proxy) then raised
                            else if StructuralSignal(s.row, DEFAULT.structural) || s.prob < 0.80 then s.prob else t.fpCap;
            && (Positives(d, t, false)[i] <==> ToScore(adjusted) > 30)
            && (Positives(d, t, true)[i] <==> ToScore(adjusted) > 80)
  {
    AdjustedBySignal(d[i].row, d[i].prob, ConfigOf(t));
    FraudPositiveIff(d[i].row, d[i].prob, ConfigOf(t));
  }

  // One cohort is selected by its archetype: label 1 marks its members.
  function Cohort(d: seq<Sample>, archetype: string): seq<int> {
    seq(|d|, i requires 0 <= i < |d| => if d[i].archetype == archetype then 1 else 0)
  }

  // The objective of acting on these samples.
  function ObjectiveOf(d: seq<Sample>, acted: seq<bool>): real
    requires |acted| == |d|
  {
    Recall(LabelsOf(d), acted) * 0.6
    + Recall(Cohort(d, "residential_proxy_bot"), acted) * 0.3
    - Recall(Cohort(d, "grey_noise"), acted) * 0.1
  }

  function Objective(d: seq<Sample>, t: Tuning): real { ObjectiveOf(d, Positives(d, t, false)) }

  lemma ObjectiveRange(d: seq<Sample>, t: Tuning)
    ensures -0.1 <= Objective(d, t) <= 0.9
  {
    var acted := Positives(d, t, false);
    var proxies, greys := Cohort(d, "residential_proxy_bot"), Cohort(d, "grey_noise");
    RateRange(Count(LabelsOf(d), acted, 1, true), Count(LabelsOf(d), acted, 1, false));
    RateRange(Count(proxies, acted, 1, true), Count(proxies, acted, 1, false));
    RateRange(Count(greys, acted, 1, true), Count(greys, acted, 1, false));
  }

  lemma {:induction false} CountFlip(labels: seq<int>, preds: seq<bool>, i: nat, truth: int)
    requires |labels| == |preds| && i < |labels| && !preds[i]
    ensures var one := if labels[i] == truth then 1 else 0;
            && Count(labels, preds[i := true], truth, true) == Count(labels, preds, truth, true) + one
            && Count(labels, preds[i := true], truth, false) == Count(labels, preds, truth, false) - one
  {
    var n := |labels| - 1;
    if i < n {
      CountFlip(labels[..n], preds[..n], i, truth);
      assert preds[i := true][..n] == preds[..n][i := true];
    } else {
      assert preds[i := true][..n] == preds[..n];
    }
  }

  // How many samples have a label, acted on or not.
  function Members(labels: seq<int>, value: int): nat { |MemberSet(labels, value)| }

  function MemberSet(labels: seq<int>, value: int): set<int> { set i | 0 <= i < |labels| && labels[i] == value }

  lemma LastMemberCounts(labels: seq<int>, value: int)
    requires labels != []
    ensures var n := |labels| - 1; Members(labels, value) == Members(labels[..n], value) + (if labels[n] == value then 1 else 0)
  {
    var n := |labels| - 1;
    var before, all := MemberSet(labels[..n], value), MemberSet(labels, value);
    assert n !in before;
    assert all == if labels[n] == value then before + {n} else before;
  }

  lemma {:induction false} CountsAreMembers(labels: seq<int>, preds: seq<bool>, value: int)
    requires |labels| == |preds|
    ensures Count(labels, preds, value, true) + Count(labels, preds, value, false) == Members(labels, value)
  {
    if labels == [] {
      assert MemberSet(labels, value) == {};
    } else {
      CountsAreMembers(labels[..|labels| - 1], preds[..|labels| - 1], value);
      LastMemberCounts(labels, value);
    }
  }

  lemma RateStep(hits: nat, misses: nat)
    requires misses > 0
    ensures Rate(hits + 1, misses - 1) - Rate(hits, misses) == 1.0 / (hits + misses) as real
  {
    var h, n := hits as real, (hits + misses) as real;
    assert h / n * n == h && (h + 1.0) / n * n == h + 1.0 && 1.0 / n * n == 1.0;
    assert ((h + 1.0) / n - h / n - 1.0 / n) * n == 0.0;
  }

  // Acting on one more sample raises the recall by its share of the positives if it is one, the
  // false-positive rate by its share of the negatives if it is one, and neither otherwise.
  lemma RatesStep(labels: seq<int>, preds: seq<bool>, i: nat)
    requires |labels| == |preds| && i < |labels| && !preds[i]
    ensures Members(labels, labels[i]) > 0
    ensures Recall(labels, preds[i := true]) - Recall(labels, preds) ==
            if labels[i] == 1 then 1.0 / Members(labels, 1) as real else 0.0
    ensures FalsePositiveRate(labels, preds[i := true]) - FalsePositiveRate(labels, preds) ==
            if labels[i] == 0 then 1.0 / Members(labels, 0) as real else 0.0
  {
    CountFlip(labels, preds, i, 0);
    CountFlip(labels, preds, i, 1);
    CountFlip(labels, preds, i, labels[i]);
    CountsAreMembers(labels, preds, 0);
    CountsAreMembers(labels, preds, 1);
    CountsAreMembers(labels, preds, labels[i]);
    if labels[i] == 1 { RateStep(Count(labels, preds, 1, true), Count(labels, preds, 1, false)); }
    if labels[i] == 0 { RateStep(Count(labels, preds, 0, true), Count(labels, preds, 0, false)); }
  }

  // Acting on nothing has no recall and no false positives, nor has a list without the label.
  lemma {:induction false} RatesAtZero(labels: seq<int>, preds: seq<bool>)
    requires |labels| == |preds| && forall i :: 0 <= i < |preds| ==> !preds[i]
    ensures Recall(labels, preds) == 0.0 && FalsePositiveRate(labels, preds) == 0.0
  {
    NothingActedOn(labels, preds, 0);
    NothingActedOn(labels, preds, 1);
  }

  lemma {:induction false} NothingActedOn(labels: seq<int>, preds: seq<bool>, value: int)
    requires |labels| == |preds| && forall i :: 0 <= i < |preds| ==> !preds[i]
    ensures Count(labels, preds, value, true) == 0
  {
    if labels != [] { NothingActedOn(labels[..|labels| - 1], preds[..|labels| - 1], value); }
  }

  // One sample's share of the samples of its kind, if it is of that kind.
  function Share(d: seq<Sample>, i: nat, kind: Sample -> bool): real
    requires i < |d|
  {
    var all := set j | 0 <= j < |d| && kind(d[j]);
    if kind(d[i]) && |all| > 0 then 1.0 / |all| as real else 0.0
  }

  lemma RecallGains(d: seq<Sample>, labels: seq<int>, preds: seq<bool>, i: nat, kind: Sample -> bool)
    requires |labels| == |preds| == |d| && i < |d| && !preds[i]
    requires forall j :: 0 <= j < |d| ==> (labels[j] == 1 <==> kind(d[j]))
    ensures Recall(labels, preds[i := true]) == Recall(labels, preds) + Share(d, i, kind)
  {
    RatesStep(labels, preds, i);
    assert MemberSet(labels, 1) == set j | 0 <= j < |d| && kind(d[j]);
  }

  // Acting on one more sample adds 0.6 of its share of the fraud if it is fraud and 0.3 of its share
  // of the proxy bots if it is one, and takes 0.1 of its share of the grey noise if it is that.
  lemma OneMoreActedOn(d: seq<Sample>, acted: seq<bool>, i: nat)
    requires |acted| == |d| && i < |d| && !acted[i]
    ensures ObjectiveOf(d, acted[i := true]) == ObjectiveOf(d, acted)
              + 0.6 * Share(d, i, (s: Sample) => s.truth == 1)
              + 0.3 * Share(d, i, (s: Sample) => s.archetype == "residential_proxy_bot")
              - 0.1 * Share(d, i, (s: Sample) => s.archetype == "grey_noise")
  {
    RecallGains(d, LabelsOf(d), acted, i, (s: Sample) => s.truth == 1);
    RecallGains(d, Cohort(d, "residential_proxy_bot"), acted, i, (s: Sample) => s.archetype == "residential_proxy_bot");
    RecallGains(d, Cohort(d, "grey_noise"), acted, i, (s: Sample) => s.archetype == "grey_noise");
  }

  // The policy never looks at the model threshold, so neither the caps nor the objective do.
  lemma ThresholdIsIrrelevant(d: seq<Sample>, caps: Caps, t: Tuning, threshold: real)
    ensures MeetsCaps(d, caps, t.(mlThreshold := threshold)) == MeetsCaps(d, caps, t)
    ensures Objective(d, t.(mlThreshold := threshold)) == Objective(d, t)
  {
    var u := t.(mlThreshold := threshold);
    assert Positives(d, u, false) == Positives(d, t, false);
    assert Positives(d, u, true) == Positives(d, t, true);
  }

  // ---------------------------------------------------------------- evaluating one grid point

  method Rates(labels: seq<int>, preds: seq<bool>) returns (recall: real, fpr: real)
    requires |labels| == |preds|
    ensures recall == Recall(labels, preds) && fpr == FalsePositiveRate(labels, preds)
  {
    var tp, tn, fp, fn := Confusion(labels, preds);
    recall := if tp + fn > 0 then tp as real / (tp + fn) as real else 0.0;
    fpr := if fp + tn > 0 then fp as real / (fp + tn) as real else 0.0;
  }

  method Above(scores: array<int>, threshold: int) returns (preds: seq<bool>)
    ensures |preds| == scores.Length && forall i :: 0 <= i < scores.Length ==> preds[i] == (scores[i] > threshold)
  {
    preds := [];
    for i := 0 to scores.Length
      invariant |preds| == i && forall j :: 0 <= j < i ==> preds[j] == (scores[j] > threshold)
    {
      preds := preds + [scores[i] > threshold];
    }
  }

  ghost predicate SignalsOf(d: seq<Sample>, probs: array<real>, proxy: array<bool>, structural: array<bool>)
    reads probs, proxy, structural
  {
    && probs.Length == proxy.Length == structural.Length == |d|
    && forall i :: 0 <= i < |d| ==>
      && probs[i] == d[i].prob
      && proxy[i] == ProxySignal(d[i].row, DEFAULT.proxy)
      && structural[i] == StructuralSignal(d[i].row, DEFAULT.structural)
  }

  // The vectorised predictions are the row-by-row ones.
  method Predict(d: seq<Sample>, probs: array<real>, proxy: array<bool>, structural: array<bool>, t: Tuning)
    returns (suspects: seq<bool>, blocks: seq<bool>)
    requires SignalsOf(d, probs, proxy, structural)
    ensures suspects == Positives(d, t, false) && blocks == Positives(d, t, true)
  {
    var scores := PolicyScoresVector(probs, proxy, structural, t, BlockProbability(DEFAULT.tiers));
    suspects := Above(scores, DEFAULT.tiers.pass);
    blocks := Above(scores, DEFAULT.tiers.ivt);
    forall i | 0 <= i < |d|
      ensures scores[i] == Decide(d[i].row, d[i].prob, ConfigOf(t)).score
    {
    }
  }

  method Evaluate(d: seq<Sample>, caps: Caps, probs: array<real>, proxy: array<bool>, structural: array<bool>, t: Tuning)
    returns (feasible: bool, objective: real)
    requires SignalsOf(d, probs, proxy, structural)
    ensures feasible == MeetsCaps(d, caps, t)
    ensures feasible ==> objective == Objective(d, t)
  {
    var suspects, blocks := Predict(d, probs, proxy, structural, t);
    var recall, fpr := Rates(LabelsOf(d), suspects);
    if fpr > caps.maxFpr { return false, 0.0; }
    var _, blockFpr := Rates(LabelsOf(d), blocks);
    if blockFpr > caps.maxBlockFpr { return false, 0.0; }
    var proxyRecall, _ := Rates(Cohort(d, "residential_proxy_bot"), suspects);
    var greyFpr, _ := Rates(Cohort(d, "grey_noise"), suspects);
    return true, recall * 0.6 + proxyRecall * 0.3 - greyFpr * 0.1;
  }

  // ---------------------------------------------------------------- the search

  datatype Verdict = Verdict(feasible: bool, objective: real)

  function Assess(d: seq<Sample>, caps: Caps, t: Tuning): Verdict {
    Verdict(MeetsCaps(d, caps, t), Objective(d, t))
  }

  function Assessor(d: seq<Sample>, caps: Caps): Tuning -> Verdict { t => Assess(d, caps, t) }

  // The search keeps the first feasible point with a higher objective than any before it.
  function Search(f: Tuning -> Verdict, points: seq<Tuning>): Best {
    if points == [] then NONE_YET
    else
      var b, last := Search(f, points[..|points| - 1]), points[|points| - 1];
      if f(last).feasible && f(last).objective > b.score then Best(Some(last), f(last).objective) else b
  }

  ghost predicate Assesses(f: Tuning -> Verdict, d: seq<Sample>, caps: Caps) {
    forall t {:trigger Assess(d, caps, t)} :: f(t) == Assess(d, caps, t)
  }

  // The grid in loop order, up to a position in each of the four loops.
  function Inner(g: Grid, i: nat, j: nat, k: nat, l: nat): seq<Tuning>
    requires i < |g.thresholds| && j < |g.floors| && k < |g.maxMls| && l <= |g.fpCaps|
  {
    seq(l, n requires 0 <= n < l => Tuning(g.thresholds[i], g.floors[j], g.maxMls[k], g.fpCaps[n]))
  }

  function Middle(g: Grid, i: nat, j: nat, k: nat): seq<Tuning>
    requires i < |g.thresholds| && j < |g.floors| && k <= |g.maxMls|
  {
    if k == 0 then [] else Middle(g, i, j, k - 1) + Inner(g, i, j, k - 1, |g.fpCaps|)
  }

  function Outer(g: Grid, i: nat, j: nat): seq<Tuning>
    requires i < |g.thresholds| && j <= |g.floors|
  {
    if j == 0 then [] else Outer(g, i, j - 1) + Middle(g, i, j - 1, |g.maxMls|)
  }

  function Points(g: Grid, i: nat): seq<Tuning>
    requires i <= |g.thresholds|
  {
    if i == 0 then [] else Points(g, i - 1) + Outer(g, i - 1, |g.floors|)
  }

  method Consider(d: seq<Sample>, caps: Caps, probs: array<real>, proxy: array<bool>, structural: array<bool>,
                  best: Best, t: Tuning, ghost f: Tuning -> Verdict, ghost visited: seq<Tuning>)
    returns (next: Best)
    requires SignalsOf(d, probs, proxy, structural) && Assesses(f, d, caps) && best == Search(f, visited)
    ensures next == Search(f, visited + [t])
  {
    var feasible, objective := Evaluate(d, caps, probs, proxy, structural, t);
    assert (visited + [t])[..|visited|] == visited;
    assert f(t) == Assess(d, caps, t);
    next := if feasible && objective > best.score then Best(Some(t), objective) else best;
  }

  lemma AppendAssociates(a: seq<Tuning>, b: seq<Tuning>, c: seq<Tuning>)
    ensures (a + b) + c == a + (b + c)
  {
  }

  // The search is four nested loops, one method for each. This is the innermost.
  method SearchCaps(d: seq<Sample>, caps: Caps, g: Grid, probs: array<real>, proxy: array<bool>, structural: array<bool>,
                    i: nat, j: nat, k: nat, best0: Best, ghost f: Tuning -> Verdict, ghost before: seq<Tuning>)
    returns (best: Best)
    requires SignalsOf(d, probs, proxy, structural) && i < |g.thresholds| && j < |g.floors| && k < |g.maxMls|
    requires Assesses(f, d, caps) && best0 == Search(f, before)
    ensures best == Search(f, before + Inner(g, i, j, k, |g.fpCaps|))
  {
    best := best0;
    ghost var visited := before;
    for l := 0 to |g.fpCaps|
      invariant best == Search(f, visited) && visited == before + Inner(g, i, j, k, l)
    {
      var t := Tuning(g.thresholds[i], g.floors[j], g.maxMls[k], g.fpCaps[l]);
      best := Consider(d, caps, probs, proxy, structural, best, t, f, visited);
      visited := visited + [t];
    }
  }

  method SearchMaxMls(d: seq<Sample>, caps: Caps, g: Grid, probs: array<real>, proxy: array<bool>, structural: array<bool>,
                      i: nat, j: nat, best0: Best, ghost f: Tuning -> Verdict, ghost before: seq<Tuning>)
    returns (best: Best)
    requires SignalsOf(d, probs, proxy, structural) && i < |g.thresholds| && j < |g.floors|
    requires Assesses(f, d, caps) && best0 == Search(f, before)
    ensures best == Search(f, before + Middle(g, i, j, |g.maxMls|))
  {
    best := best0;
    ghost var visited := before;
    for k := 0 to |g.maxMls|
      invariant best == Search(f, visited) && visited == before + Middle(g, i, j, k)
    {
      best := SearchCaps(d, caps, g, probs, proxy, structural, i, j, k, best, f, visited);
      AppendAssociates(before, Middle(g, i, j, k), Inner(g, i, j, k, |g.fpCaps|));
      visited := visited + Inner(g, i, j, k, |g.fpCaps|);
    }
  }

  method SearchFloors(d: seq<Sample>, caps: Caps, g: Grid, probs: array<real>, proxy: array<bool>, structural: array<bool>,
                      i: nat, best0: Best, ghost f: Tuning -> Verdict, ghost before: seq<Tuning>)
    returns (best: Best)
    requires SignalsOf(d, probs, proxy, structural) && i < |g.thresholds|
    requires Assesses(f, d, caps) && best0 == Search(f, before)
    ensures best == Search(f, before + Outer(g, i, |g.floors|))
  {
    best := best0;
    ghost var visited := before;
    for j := 0 to |g.floors|
      invariant best == Search(f, visited) && visited == before + Outer(g, i, j)
    {
      best := SearchMaxMls(d, caps, g, probs, proxy, structural, i, j, best, f, visited);
      AppendAssociates(before, Outer(g, i, j), Middle(g, i, j, |g.maxMls|));
      visited := visited + Middle(g, i, j, |g.maxMls|);
    }
  }

  method SearchGrid(d: seq<Sample>, caps: Caps, g: Grid, probs: array<real>, proxy: array<bool>, structural: array<bool>,
                    ghost f: Tuning -> Verdict)
    returns (best: Best)
    requires SignalsOf(d, probs, proxy, structural) && Assesses(f, d, caps)
    ensures best == Search(f, Points(g, |g.thresholds|))
  {
    best := NONE_YET;
    for i := 0 to |g.thresholds|
      invariant best == Search(f, Points(g, i))
    {
      best := SearchFloors(d, caps, g, probs, proxy, structural, i, best, f, Points(g, i));
    }
  }

  method Calibrate(d: seq<Sample>, caps: Caps, g: Grid) returns (config: Config, score: real)
    ensures var best := Search(Assessor(d, caps), Points(g, |g.thresholds|));
            config == (if best.point.Some? then ConfigOf(best.point.value) else DEFAULT) && score == best.score
  {
    var probs := new real[|d|];
    for i := 0 to |d|
      invariant forall j :: 0 <= j < i ==> probs[j] == d[j].prob
    {
      probs[i] := d[i].prob;
    }
    var rows := seq(|d|, i requires 0 <= i < |d| => d[i].row);
    var proxy, structural := PrecomputeSignals(rows, DEFAULT);
    var best := SearchGrid(d, caps, g, probs, proxy, structural, Assessor(d, caps));
    config := if best.point.Some? then ConfigOf(best.point.value) else DEFAULT;
    score := best.score;
  }

  // ---------------------------------------------------------------- what the search returns

  // p is the first point of the list to reach the highest objective among the feasible ones.
  ghost predicate FirstBest(f: Tuning -> Verdict, points: seq<Tuning>, p: nat)
    requires p < |points|
  {
    && f(points[p]).feasible
    && (forall j :: 0 <= j < |points| && f(points[j]).feasible ==> f(points[j]).objective <= f(points[p]).objective)
    && (forall j :: 0 <= j < p && f(points[j]).feasible ==> f(points[j]).objective < f(points[p]).objective)
  }

  ghost predicate Bounded(f: Tuning -> Verdict) { forall t :: f(t).objective > NONE_YET.score }

  lemma {:induction false} SearchFindsFirstBest(f: Tuning -> Verdict, points: seq<Tuning>)
    requires Bounded(f)
    ensures var b := Search(f, points);
            match b.point
            case Some(t) => b.score == f(t).objective && exists p :: 0 <= p < |points| && points[p] == t && FirstBest(f, points, p)
            case None => b == NONE_YET && forall j :: 0 <= j < |points| ==> !f(points[j]).feasible
  {
    if points != [] {
      var rest, last := points[..|points| - 1], points[|points| - 1];
      SearchFindsFirstBest(f, rest);
      var b := Search(f, rest);
      if f(last).feasible && f(last).objective > b.score {
        assert FirstBest(f, points, |points| - 1);
      } else if b.point.Some? {
        var p :| 0 <= p < |rest| && rest[p] == b.point.value && FirstBest(f, rest, p);
        assert FirstBest(f, points, p);
      }
    }
  }

  // ---------------------------------------------------------------- the grid is covered

  lemma LastMember(s: seq<real>, i: nat, x: real)
    requires 0 < i <= |s|
    ensures x in s[..i] <==> x in s[..i - 1] || x == s[i - 1]
  {
    assert s[..i] == s[..i - 1] + [s[i - 1]];
  }

  lemma WholeSlice(s: seq<real>)
    ensures s[..|s|] == s
  {
  }

  lemma {:induction false} MiddleMembers(g: Grid, i: nat, j: nat, k: nat, t: Tuning)
    requires i < |g.thresholds| && j < |g.floors| && k <= |g.maxMls|
    ensures t in Middle(g, i, j, k) <==>
            t.mlThreshold == g.thresholds[i] && t.proxyFloor == g.floors[j] && t.proxyMaxMl in g.maxMls[..k] && t.fpCap in g.fpCaps
  {
    if k > 0 {
      MiddleMembers(g, i, j, k - 1, t);
      var inner := Inner(g, i, j, k - 1, |g.fpCaps|);
      if t.mlThreshold == g.thresholds[i] && t.proxyFloor == g.floors[j] && t.proxyMaxMl == g.maxMls[k - 1] && t.fpCap in g.fpCaps {
        var l :| 0 <= l < |g.fpCaps| && g.fpCaps[l] == t.fpCap;
        assert inner[l] == t;
      }
      LastMember(g.maxMls, k, t.proxyMaxMl);
    }
  }

  lemma {:induction false} OuterMembers(g: Grid, i: nat, j: nat, t: Tuning)
    requires i < |g.thresholds| && j <= |g.floors|
    ensures t in Outer(g, i, j) <==>
            t.mlThreshold == g.thresholds[i] && t.proxyFloor in g.floors[..j] && t.proxyMaxMl in g.maxMls && t.fpCap in g.fpCaps
  {
    if j > 0 {
      OuterMembers(g, i, j - 1, t);
      MiddleMembers(g, i, j - 1, |g.maxMls|, t);
      WholeSlice(g.maxMls);
      LastMember(g.floors, j, t.proxyFloor);
    }
  }

  predicate OffThreshold(g: Grid, t: Tuning) { t.proxyFloor in g.floors && t.proxyMaxMl in g.maxMls && t.fpCap in g.fpCaps }

  lemma BlockMembers(g: Grid, i: nat, t: Tuning)
    requires i < |g.thresholds|
    ensures t in Outer(g, i, |g.floors|) <==> t.mlThreshold == g.thresholds[i] && OffThreshold(g, t)
  {
    OuterMembers(g, i, |g.floors|, t);
    WholeSlice(g.floors);
  }

  lemma AppendMember(a: seq<Tuning>, b: seq<Tuning>, t: Tuning)
    ensures t in a + b <==> t in a || t in b
  {
  }

  // The points searched are exactly the product of the four lists.
  lemma {:induction false} PointsMembers(g: Grid, i: nat, t: Tuning)
    requires i <= |g.thresholds|
    ensures t in Points(g, i) <==> t.mlThreshold in g.thresholds[..i] && OffThreshold(g, t)
  {
    if i > 0 {
      PointsMembers(g, i - 1, t);
      BlockMembers(g, i - 1, t);
      AppendMember(Points(g, i - 1), Outer(g, i - 1, |g.floors|), t);
      LastMember(g.thresholds, i, t.mlThreshold);
    }
  }

  // ---------------------------------------------------------------- the threshold is the first one

  function WithThreshold(t: Tuning, x: real): Tuning { t.(mlThreshold := x) }

  ghost predicate IgnoresThreshold(f: Tuning -> Verdict) {
    forall t, x :: f(WithThreshold(t, x)) == f(t)
  }

  lemma {:induction false} SearchBounds(f: Tuning -> Verdict, points: seq<Tuning>, t: Tuning)
    requires t in points && f(t).feasible
    ensures f(t).objective <= Search(f, points).score
  {
    var rest := points[..|points| - 1];
    if t in rest { SearchBounds(f, rest, t); }
  }

  lemma {:induction false} NoImprovement(f: Tuning -> Verdict, xs: seq<Tuning>, ys: seq<Tuning>)
    requires forall y :: y in ys && f(y).feasible ==> f(y).objective <= Search(f, xs).score
    ensures Search(f, xs + ys) == Search(f, xs)
  {
    if ys == [] {
      assert xs + ys == xs;
    } else {
      var rest := ys[..|ys| - 1];
      NoImprovement(f, xs, rest);
      assert (xs + ys)[..|xs + ys| - 1] == xs + rest;
    }
  }

  // Later thresholds repeat the verdicts of the first one, so they never improve on it.
  lemma {:induction false} FirstThresholdDecides(f: Tuning -> Verdict, g: Grid, i: nat)
    requires IgnoresThreshold(f) && 1 <= i <= |g.thresholds|
    ensures Search(f, Points(g, i)) == Search(f, Points(g, 1))
  {
    if i > 1 {
      FirstThresholdDecides(f, g, i - 1);
      var ys := Outer(g, i - 1, |g.floors|);
      forall y | y in ys && f(y).feasible ensures f(y).objective <= Search(f, Points(g, i - 1)).score {
        var first := WithThreshold(y, g.thresholds[0]);
        BlockMembers(g, i - 1, y);
        PointsMembers(g, 1, first);
        SearchBounds(f, Points(g, 1), first);
      }
      NoImprovement(f, Points(g, i - 1), ys);
    }
  }

  // The policy that calibration returns: when some grid point keeps both false-positive rates of
  // the row-by-row decisions within their caps, the result does too, no point within the caps has
  // a higher objective, every earlier one has a lower objective, and the model threshold is the
  // first of the grid. Otherwise the result is the shipped configuration.
  lemma CalibrationIsSound(d: seq<Sample>, caps: Caps, g: Grid)
    ensures var points := Points(g, |g.thresholds|);
            var best := Search(Assessor(d, caps), points);
            match best.point
            case Some(t) =>
              && MeetsCaps(d, caps, t) && best.score == Objective(d, t)
              && (exists p :: 0 <= p < |points| && points[p] == t && FirstBest(Assessor(d, caps), points, p))
              && g.thresholds != [] && t.mlThreshold == g.thresholds[0]
            case None => forall j :: 0 <= j < |points| ==> !MeetsCaps(d, caps, points[j])
  {
    var f, points := Assessor(d, caps), Points(g, |g.thresholds|);
    forall t ensures f(t).objective > NONE_YET.score { ObjectiveRange(d, t); }
    SearchFindsFirstBest(f, points);
    var best := Search(f, points);
    if best.point.Some? {
      ThresholdComesFirst(d, caps, g, best.point.value);
    } else {
      forall j | 0 <= j < |points| ensures !MeetsCaps(d, caps, points[j]) { assert !f(points[j]).feasible; }
    }
  }

  // For every point of the grid whose rates are within the caps, the search returns a point of the
  // grid whose rates are too, and whose objective is at least as high.
  lemma NoGridPointBeatsIt(d: seq<Sample>, caps: Caps, g: Grid, u: Tuning)
    requires u.mlThreshold in g.thresholds && u.proxyFloor in g.floors && u.proxyMaxMl in g.maxMls && u.fpCap in g.fpCaps
    requires FalsePositiveRate(LabelsOf(d), Positives(d, u, false)) <= caps.maxFpr
    requires FalsePositiveRate(LabelsOf(d), Positives(d, u, true)) <= caps.maxBlockFpr
    ensures var best := Search(Assessor(d, caps), Points(g, |g.thresholds|)).point;
            && best.Some?
            && (var t := best.value;
                && t.mlThreshold in g.thresholds && t.proxyFloor in g.floors && t.proxyMaxMl in g.maxMls && t.fpCap in g.fpCaps
                && FalsePositiveRate(LabelsOf(d), Positives(d, t, false)) <= caps.maxFpr
                && FalsePositiveRate(LabelsOf(d), Positives(d, t, true)) <= caps.maxBlockFpr
                && ObjectiveOf(d, Positives(d, u, false)) <= ObjectiveOf(d, Positives(d, t, false)))
  {
    var points, f := Points(g, |g.thresholds|), Assessor(d, caps);
    WholeSlice(g.thresholds);
    PointsMembers(g, |g.thresholds|, u);
    CalibrationIsSound(d, caps, g);
    SearchBounds(f, points, u);
    SearchReturnsAPoint(f, points);
    var best := Search(f, points).point;
    if best.Some? { PointsMembers(g, |g.thresholds|, best.value); }
  }

  lemma ThresholdComesFirst(d: seq<Sample>, caps: Caps, g: Grid, t: Tuning)
    requires Search(Assessor(d, caps), Points(g, |g.thresholds|)).point == Some(t)
    ensures g.thresholds != [] && t.mlThreshold == g.thresholds[0]
  {
    var f := Assessor(d, caps);
    forall u, x ensures f(WithThreshold(u, x)) == f(u) { ThresholdIsIrrelevant(d, caps, u, x); }
    FirstThresholdDecides(f, g, |g.thresholds|);
    SearchReturnsAPoint(f, Points(g, 1));
    PointsMembers(g, 1, t);
  }

  lemma {:induction false} SearchReturnsAPoint(f: Tuning -> Verdict, points: seq<Tuning>)
    ensures Search(f, points).point.Some? ==> Search(f, points).point.value in points
  {
    if points != [] { SearchReturnsAPoint(f, points[..|points| - 1]); }
  }
}
