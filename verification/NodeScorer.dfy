/**
 The node scorer: which source a node's metric is taken from, its exponential smoothing, and the
 hysteresis of its traffic weight. float64 is modelled by real numbers; only neighbour values
 may be NaN or infinite, because only those are filtered.
 */
module NodeScorer {
  import opened Common

  datatype Float = Finite(value: real) | NaN | Inf
  datatype MetricKind = Latency | Utilization | Rate | Counter | OtherKind
  datatype Provenance = OwnWindow | NeighborMedian | HistoricalDaily | ConservativeDefault
  datatype Phase = ColdStart | Own | Neighbor | Historical | Conservative

  datatype BucketPoint = BucketPoint(p99: real, mean: real, samples: int, numerator: real, denominator: real)

  datatype Config = Config(
    windowMin: int, minSamples: int, emaAlpha: real, minDrainEpochs: int,
    drainStep: real, boostStep: real, weightMin: real, weightMax: real, weightMaxCold: real,
    drainThreshold: real, boostThreshold: real, conservativeScore: real, nodeWarmupSec: int)

  const DEFAULTS := Config(15, 30, 0.3, 3, 0.10, 0.05, 0.05, 0.95, 0.25, 0.3, 0.8, 0.5, 300)
  const MAX_SCRAPE_MISS := 2
  const MAX_DELTA := 0.10
  const HISTORICAL_STEP := 0.02

  // What is observed of a node in one epoch; uptime is in seconds.
  datatype Observation = Observation(
    uptime: real, buckets: seq<BucketPoint>, kind: MetricKind, scrapeMisses: int,
    neighbors: seq<Float>, historical: Option<real>)

  // What is carried from epoch to epoch.
  datatype NodeState = NodeState(weight: real, ema: real, drain: int)

  datatype Result = Result(raw: real, provenance: Provenance, coldStart: bool, frozen: bool, next: NodeState)

  function Max(a: real, b: real): real { if a < b then b else a }
  function Min(a: real, b: real): real { if b < a then b else a }

  // ---------------------------------------------------------------- aggregation

  function Samples(buckets: seq<BucketPoint>): int {
    if buckets == [] then 0 else Samples(buckets[..|buckets| - 1]) + buckets[|buckets| - 1].samples
  }

  function MaxOf(buckets: seq<BucketPoint>, f: BucketPoint -> real): real
    requires buckets != []
  {
    var last := f(buckets[|buckets| - 1]);
    if |buckets| == 1 then last else Max(MaxOf(buckets[..|buckets| - 1], f), last)
  }

  function SumOf(buckets: seq<BucketPoint>, f: BucketPoint -> real): real {
    if buckets == [] then 0.0 else SumOf(buckets[..|buckets| - 1], f) + f(buckets[|buckets| - 1])
  }

  function P99(b: BucketPoint): real { b.p99 }
  function Mean(b: BucketPoint): real { b.mean }
  function UsedMean(b: BucketPoint): real { if b.samples > 0 then b.mean else 0.0 }
  function Used(b: BucketPoint): real { if b.samples > 0 then 1.0 else 0.0 }
  function RateNumerator(b: BucketPoint): real {
    if b.denominator > 0.0 then b.numerator else if b.samples > 0 then b.mean * b.samples as real else 0.0
  }
  function RateDenominator(b: BucketPoint): real {
    if b.denominator > 0.0 then b.denominator else if b.samples > 0 then b.samples as real else 0.0
  }

  // The value of a window: worst latency or counter, mean utilisation, pooled rate.
  function Aggregate(buckets: seq<BucketPoint>, kind: MetricKind): Option<real> {
    if buckets == [] then None
    else match kind
      case Latency => Some(MaxOf(buckets, P99))
      case Utilization => if SumOf(buckets, Used) == 0.0 then None else Some(SumOf(buckets, UsedMean) / SumOf(buckets, Used))
      case Rate => if SumOf(buckets, RateDenominator) == 0.0 then None else Some(SumOf(buckets, RateNumerator) / SumOf(buckets, RateDenominator))
      case Counter => Some(MaxOf(buckets, Mean))
      case OtherKind => None
  }

  // The loops that compute it.
  method AggregateWindow(buckets: seq<BucketPoint>, kind: MetricKind) returns (r: Option<real>)
    ensures r == Aggregate(buckets, kind)
  {
    if buckets == [] { return None; }
    match kind
    case Latency =>
      var worst := MaxLoop(buckets, P99);
      return Some(worst);
    case Counter =>
      var worst := MaxLoop(buckets, Mean);
      return Some(worst);
    case Utilization =>
      var sum, n := 0.0, 0;
      for i := 0 to |buckets|
        invariant sum == SumOf(buckets[..i], UsedMean) && n >= 0 && n as real == SumOf(buckets[..i], Used)
      {
        assert buckets[..i + 1][..i] == buckets[..i];
        if buckets[i].samples > 0 { sum, n := sum + buckets[i].mean, n + 1; }
      }
      assert buckets[..|buckets|] == buckets;
      if n == 0 { return None; }
      return Some(sum / n as real);
    case Rate =>
      var num, den := 0.0, 0.0;
      for i := 0 to |buckets|
        invariant num == SumOf(buckets[..i], RateNumerator) && den == SumOf(buckets[..i], RateDenominator)
      {
        assert buckets[..i + 1][..i] == buckets[..i];
        var b := buckets[i];
        if b.denominator > 0.0 {
          num, den := num + b.numerator, den + b.denominator;
        } else if b.samples > 0 {
          num, den := num + b.mean * b.samples as real, den + b.samples as real;
        }
      }
      assert buckets[..|buckets|] == buckets;
      if den == 0.0 { return None; }
      return Some(num / den);
    case OtherKind =>
      return None;
  }

  method MaxLoop(buckets: seq<BucketPoint>, f: BucketPoint -> real) returns (worst: real)
    requires buckets != []
    ensures worst == MaxOf(buckets, f)
    ensures (exists b :: b in buckets && f(b) == worst) && forall b :: b in buckets ==> f(b) <= worst
  {
    worst := f(buckets[0]);
    assert MaxOf(buckets[..1], f) == f(buckets[0]);
    assert buckets[0] in buckets;
    for i := 1 to |buckets|
      invariant worst == MaxOf(buckets[..i], f)
      invariant exists b :: b in buckets && f(b) == worst
      invariant forall j :: 0 <= j < i ==> f(buckets[j]) <= worst
    {
      assert buckets[..i + 1][..i] == buckets[..i];
      assert buckets[i] in buckets;
      if f(buckets[i]) > worst { worst := f(buckets[i]); }
    }
    assert buckets[..|buckets|] == buckets;
  }

  // Enough own samples always leave something to aggregate, for each of the four kinds.
  lemma {:induction false} SamplesAreUsed(buckets: seq<BucketPoint>)
    ensures SumOf(buckets, Used) >= 0.0 && SumOf(buckets, RateDenominator) >= 0.0
    ensures Samples(buckets) >= 1 ==> SumOf(buckets, Used) > 0.0 && SumOf(buckets, RateDenominator) > 0.0
  {
    if buckets != [] { SamplesAreUsed(buckets[..|buckets| - 1]); }
  }

  // What one bucket says of the metric lies in [lo, hi].
  predicate BucketWithin(b: BucketPoint, kind: MetricKind, lo: real, hi: real) {
    match kind
    case Latency => lo <= b.p99 <= hi
    case Counter => lo <= b.mean <= hi
    case Utilization => b.samples > 0 ==> lo <= b.mean <= hi
    case Rate => lo * RateDenominator(b) <= RateNumerator(b) <= hi * RateDenominator(b)
    case OtherKind => true
  }

  // The value of a window never leaves the range its buckets span.
  lemma AggregateWithinBuckets(buckets: seq<BucketPoint>, kind: MetricKind, lo: real, hi: real)
    requires Aggregate(buckets, kind).Some? && forall i :: 0 <= i < |buckets| ==> BucketWithin(buckets[i], kind, lo, hi)
    ensures lo <= Aggregate(buckets, kind).value <= hi
  {
    SamplesAreUsed(buckets);
    match kind
    case Latency => MaxWithin(buckets, P99, lo, hi);
    case Counter => MaxWithin(buckets, Mean, lo, hi);
    case Utilization => PooledWithin(buckets, UsedMean, Used, lo, hi);
    case Rate => PooledWithin(buckets, RateNumerator, RateDenominator, lo, hi);
  }

  lemma {:induction false} MaxWithin(buckets: seq<BucketPoint>, f: BucketPoint -> real, lo: real, hi: real)
    requires buckets != [] && forall i :: 0 <= i < |buckets| ==> lo <= f(buckets[i]) <= hi
    ensures lo <= MaxOf(buckets, f) <= hi
  {
    if |buckets| > 1 { MaxWithin(buckets[..|buckets| - 1], f, lo, hi); }
  }

  lemma {:induction false} SumsWithin(buckets: seq<BucketPoint>, f: BucketPoint -> real, g: BucketPoint -> real, lo: real, hi: real)
    requires forall i :: 0 <= i < |buckets| ==> lo * g(buckets[i]) <= f(buckets[i]) <= hi * g(buckets[i])
    ensures lo * SumOf(buckets, g) <= SumOf(buckets, f) <= hi * SumOf(buckets, g)
  {
    if buckets != [] {
      var rest, last := buckets[..|buckets| - 1], buckets[|buckets| - 1];
      SumsWithin(rest, f, g, lo, hi);
      Distributes(lo, SumOf(rest, g), g(last), SumOf(buckets, g));
      Distributes(hi, SumOf(rest, g), g(last), SumOf(buckets, g));
    }
  }

  lemma Distributes(k: real, x: real, y: real, sum: real)
    requires sum == x + y
    ensures k * sum == k * x + k * y
  {
  }

  lemma PooledWithin(buckets: seq<BucketPoint>, f: BucketPoint -> real, g: BucketPoint -> real, lo: real, hi: real)
    requires SumOf(buckets, g) > 0.0
    requires forall i :: 0 <= i < |buckets| ==> lo * g(buckets[i]) <= f(buckets[i]) <= hi * g(buckets[i])
    ensures lo <= SumOf(buckets, f) / SumOf(buckets, g) <= hi
  {
    SumsWithin(buckets, f, g, lo, hi);
    QuotientWithin(SumOf(buckets, f), SumOf(buckets, g), lo, hi);
  }

  lemma QuotientWithin(x: real, y: real, lo: real, hi: real)
    requires y > 0.0 && lo * y <= x <= hi * y
    ensures lo <= x / y <= hi
  {
    var q := x / y;
    assert q * y == x;
    FactorSign(q - lo, y);
    FactorSign(hi - q, y);
  }

  lemma FactorSign(d: real, p: real)
    requires p > 0.0 && d * p >= 0.0
    ensures d >= 0.0
  {
  }

  // ---------------------------------------------------------------- neighbours

  function FiniteValues(values: seq<Float>): seq<real> {
    if values == [] then []
    else (if values[0].Finite? then [values[0].value] else []) + FiniteValues(values[1..])
  }

  function Insert(x: real, sorted: seq<real>): seq<real> {
    if sorted == [] || x <= sorted[0] then [x] + sorted else [sorted[0]] + Insert(x, sorted[1..])
  }

  function Sort(xs: seq<real>): seq<real> {
    if xs == [] then [] else Insert(xs[0], Sort(xs[1..]))
  }

  ghost predicate Sorted(xs: seq<real>) { forall i, j :: 0 <= i < j < |xs| ==> xs[i] <= xs[j] }

  lemma {:induction false} InsertAdds(x: real, s: seq<real>)
    ensures multiset(Insert(x, s)) == multiset{x} + multiset(s)
  {
    if s != [] && x > s[0] {
      InsertAdds(x, s[1..]);
      assert s == [s[0]] + s[1..];
    }
  }

  lemma {:induction false} InsertSorts(x: real, s: seq<real>)
    requires Sorted(s)
    ensures Sorted(Insert(x, s))
  {
    if s != [] && x > s[0] {
      InsertSorts(x, s[1..]);
      InsertAdds(x, s[1..]);
      PrependSorted(s[0], Insert(x, s[1..]), multiset{x} + multiset(s[1..]));
    }
  }

  lemma PrependSorted(x: real, s: seq<real>, elements: multiset<real>)
    requires Sorted(s) && multiset(s) == elements && forall y :: y in elements ==> x <= y
    ensures Sorted([x] + s)
  {
    forall i | 0 <= i < |s| ensures x <= s[i] { assert s[i] in multiset(s); }
  }

  lemma {:induction false} SortSorts(xs: seq<real>)
    ensures Sorted(Sort(xs)) && multiset(Sort(xs)) == multiset(xs) && |Sort(xs)| == |xs|
  {
    if xs != [] {
      SortSorts(xs[1..]);
      InsertSorts(xs[0], Sort(xs[1..]));
      InsertAdds(xs[0], Sort(xs[1..]));
      assert xs == [xs[0]] + xs[1..];
      assert |multiset(Sort(xs))| == |multiset(xs)|;
    }
  }

  // The middle of a sorted sequence.
  function Middle(s: seq<real>): real
    requires s != []
  {
    var mid := |s| / 2;
    if |s| % 2 == 1 then s[mid] else (s[mid - 1] + s[mid]) / 2.0
  }

  function Median(xs: seq<real>): real
    requires xs != []
  {
    SortSorts(xs);
    Middle(Sort(xs))
  }

  function NeighborValue(values: seq<Float>): Option<real> {
    var xs := FiniteValues(values);
    if xs == [] then None else Some(Median(xs))
  }

  // The median splits the sorted finite values in two halves around it.
  lemma MedianSplits(xs: seq<real>)
    requires xs != []
    ensures var s, m := Sort(xs), Median(xs);
            && Sorted(s) && multiset(s) == multiset(xs) && |s| == |xs|
            && (forall i :: 0 <= i < (|xs| + 1) / 2 ==> s[i] <= m)
            && (forall i :: |xs| / 2 <= i < |xs| ==> m <= s[i])
  {
    SortSorts(xs);
    MiddleSplits(Sort(xs));
  }

  lemma MiddleSplits(s: seq<real>)
    requires s != [] && Sorted(s)
    ensures forall i :: 0 <= i < (|s| + 1) / 2 ==> s[i] <= Middle(s)
    ensures forall i :: |s| / 2 <= i < |s| ==> Middle(s) <= s[i]
  {
    var mid := |s| / 2;
    assert |s| % 2 == 0 ==> s[mid - 1] <= Middle(s) <= s[mid];
  }

  // ---------------------------------------------------------------- scoring

  function WithDefaults(c: Config): Config {
    c.(windowMin := if c.windowMin <= 0 then DEFAULTS.windowMin else c.windowMin,
       minSamples := if c.minSamples <= 0 then DEFAULTS.minSamples else c.minSamples,
       emaAlpha := if c.emaAlpha <= 0.0 then DEFAULTS.emaAlpha else c.emaAlpha,
       minDrainEpochs := if c.minDrainEpochs <= 0 then DEFAULTS.minDrainEpochs else c.minDrainEpochs,
       conservativeScore := if c.conservativeScore <= 0.0 then DEFAULTS.conservativeScore else c.conservativeScore)
  }

  predicate IsCold(o: Observation, c: Config) { o.uptime < WithDefaults(c).windowMin as real * 60.0 }
  predicate OwnOk(o: Observation, c: Config) { Samples(o.buckets) >= WithDefaults(c).minSamples && o.scrapeMisses <= MAX_SCRAPE_MISS }
  predicate InGrace(o: Observation, c: Config) {
    o.uptime < (if c.nodeWarmupSec <= 0 then DEFAULTS.nodeWarmupSec else c.nodeWarmupSec) as real
  }

  // The raw value and where it comes from.
  function Source(o: Observation, c: Config): (real, Provenance) {
    var fallback := (WithDefaults(c).conservativeScore, ConservativeDefault);
    if IsCold(o, c) then
      match NeighborValue(o.neighbors) case Some(v) => (v, NeighborMedian) case None => fallback
    else if OwnOk(o, c) then
      match Aggregate(o.buckets, o.kind) case Some(v) => (v, OwnWindow) case None => fallback
    else if |FiniteValues(o.neighbors)| >= 2 then (Median(FiniteValues(o.neighbors)), NeighborMedian)
    else match o.historical case Some(v) => (v, HistoricalDaily) case None => fallback
  }

  function ResolvePhase(o: Observation, c: Config): Phase {
    if IsCold(o, c) then ColdStart
    else if OwnOk(o, c) then Own
    else if |FiniteValues(o.neighbors)| >= 2 then Neighbor
    else if o.historical.Some? then Historical
    else Conservative
  }

  // The phase reported for a node always agrees with the provenance its score is given.
  lemma PhaseAgreesWithProvenance(o: Observation, c: Config)
    ensures Source(o, c).1 ==
            match ResolvePhase(o, c)
              case ColdStart => (if exists i :: 0 <= i < |o.neighbors| && o.neighbors[i].Finite? then NeighborMedian else ConservativeDefault)
              case Own => (if o.kind == OtherKind then ConservativeDefault else OwnWindow)
              case Neighbor => NeighborMedian
              case Historical => HistoricalDaily
              case Conservative => ConservativeDefault
  {
    SamplesAreUsed(o.buckets);
    FiniteIff(o.neighbors);
  }

  lemma {:induction false} FiniteIff(values: seq<Float>)
    ensures FiniteValues(values) != [] <==> exists i :: 0 <= i < |values| && values[i].Finite?
  {
    if values != [] {
      FiniteIff(values[1..]);
      assert forall i :: 0 <= i < |values[1..]| ==> values[1..][i] == values[i + 1];
      if i :| 0 <= i < |values| && values[i].Finite? && i > 0 {
        assert values[1..][i - 1].Finite?;
      }
    }
  }

  function Smooth(prevEma: real, raw: real, alpha: real): real {
    if prevEma <= 0.0 then raw else alpha * raw + (1.0 - alpha) * prevEma
  }

  function ClampDelta(prev: real, next: real, maxDelta: real): real {
    if maxDelta <= 0.0 then next
    else if next - prev > maxDelta then prev + maxDelta
    else if next - prev < -maxDelta then prev - maxDelta
    else next
  }

  datatype Weighed = Weighed(weight: real, drain: int, frozen: bool)

  function Hysteresis(prev: real, score: real, p: Provenance, cold: bool, ownOk: bool, drain: int, grace: bool, c: Config): Weighed {
    var start := if prev <= 0.0 then Min(1.0 / (if c.minSamples < 1 then 1 else c.minSamples) as real, c.weightMax) else prev;
    if p == ConservativeDefault then Weighed(prev, 0, true)
    else if cold && p == NeighborMedian then Weighed(Min(start, c.weightMaxCold), 0, false)
    else if !ownOk && p == NeighborMedian then Weighed(start, 0, false)
    else if grace && p == OwnWindow then Weighed(Min(start, c.weightMaxCold), 0, false)
    else if p == HistoricalDaily then
      Weighed(ClampDelta(prev, Max(c.weightMin, start - HISTORICAL_STEP), HISTORICAL_STEP), 0, false)
    else
      var low := score < c.drainThreshold;
      var count := if low then drain + 1 else 0;
      var drained := if low && count >= c.minDrainEpochs then Max(c.weightMin, start - c.drainStep) else start;
      var boosted := if score > c.boostThreshold && p == OwnWindow then Min(c.weightMax, drained + c.boostStep) else drained;
      Weighed(ClampDelta(prev, boosted, MAX_DELTA), count, false)
  }

  function ScoreNode(s: NodeState, o: Observation, c: Config): Result {
    var (raw, p) := Source(o, c);
    var score := Smooth(s.ema, raw, WithDefaults(c).emaAlpha);
    var w := Hysteresis(s.weight, score, p, IsCold(o, c), OwnOk(o, c), s.drain, InGrace(o, c), WithDefaults(c));
    Result(raw, p, IsCold(o, c), w.frozen, NodeState(w.weight, score, w.drain))
  }

  // ---------------------------------------------------------------- runs of epochs

  // The state a node enters epoch k with, given the results t of the epochs before it.
  function Before(s: NodeState, t: seq<Result>, k: nat): NodeState
    requires k <= |t|
  {
    if k == 0 then s else t[k - 1].next
  }

  predicate EpochOf(c: Config, s: NodeState, obs: seq<Observation>, t: seq<Result>, k: nat)
    requires k < |t| == |obs|
  {
    t[k] == ScoreNode(Before(s, t, k), obs[k], c)
  }

  // t holds the results of scoring obs epoch by epoch, starting in s.
  ghost predicate IsRun(c: Config, s: NodeState, obs: seq<Observation>, t: seq<Result>) {
    |t| == |obs| && forall k :: 0 <= k < |obs| ==> EpochOf(c, s, obs, t, k)
  }

  function Run(c: Config, s: NodeState, obs: seq<Observation>): seq<Result> {
    if obs == [] then []
    else
      var t := Run(c, s, obs[..|obs| - 1]);
      t + [ScoreNode(Before(s, t, |t|), obs[|obs| - 1], c)]
  }

  // Every sequence of observations has a run, so the laws below speak of every history of a node.
  lemma {:induction false} RunExists(c: Config, s: NodeState, obs: seq<Observation>)
    ensures IsRun(c, s, obs, Run(c, s, obs))
  {
    if obs != [] {
      var shorter := obs[..|obs| - 1];
      var t, u := Run(c, s, shorter), Run(c, s, obs);
      RunExists(c, s, shorter);
      forall k | 0 <= k < |obs| ensures EpochOf(c, s, obs, u, k) {
        if k < |t| {
          assert EpochOf(c, s, shorter, t, k);
          assert u[k] == t[k] && Before(s, u, k) == Before(s, t, k);
        }
      }
    }
  }

  predicate ValidConfig(c: Config) {
    && 0.0 < c.weightMin <= c.weightMaxCold <= c.weightMax
    && c.drainStep >= 0.0 && c.boostStep >= 0.0 && c.emaAlpha <= 1.0
  }

  predicate InRange(c: Config, w: real) { c.weightMin <= w <= c.weightMax }

  // An epoch scored from the node's own window after its warm-up.
  predicate Settled(c: Config, o: Observation, r: Result) {
    r.provenance == OwnWindow && !InGrace(o, c)
  }

  // ... with a smoothed score below the drain threshold.
  predicate Low(c: Config, o: Observation, r: Result) {
    Settled(c, o, r) && r.next.ema < c.drainThreshold
  }

  // The weight never leaves its configured range, whatever the epochs bring.
  lemma {:induction false} WeightStaysInRange(c: Config, s: NodeState, obs: seq<Observation>, t: seq<Result>, k: nat)
    requires ValidConfig(c) && InRange(c, s.weight) && IsRun(c, s, obs, t) && k <= |t|
    ensures InRange(c, Before(s, t, k).weight)
  {
    if k > 0 {
      WeightStaysInRange(c, s, obs, t, k - 1);
      assert EpochOf(c, s, obs, t, k - 1);
    }
  }

  // One epoch lengthens the drain streak if it is low and ends it otherwise; it moves the weight
  // by at most 0.10 if settled, and lowers it then only at the end of a long enough streak.
  lemma EpochEffect(c: Config, s: NodeState, o: Observation)
    ensures var r := ScoreNode(s, o, c);
            && r.next.drain == (if Low(c, o, r) then s.drain + 1 else 0)
            && (Settled(c, o, r) ==> -0.10 <= r.next.weight - s.weight <= 0.10)
            && (ValidConfig(c) && InRange(c, s.weight) && Settled(c, o, r) && r.next.weight < s.weight ==>
                  Low(c, o, r) && r.next.drain >= WithDefaults(c).minDrainEpochs)
  {
  }

  // The drain counter is the length of the current streak of low epochs.
  lemma {:induction false} DrainCountsStreak(c: Config, s: NodeState, obs: seq<Observation>, t: seq<Result>, k: nat)
    requires s.drain == 0 && IsRun(c, s, obs, t) && k <= |t|
    ensures 0 <= Before(s, t, k).drain <= k
    ensures forall j :: k - Before(s, t, k).drain <= j < k ==> Low(c, obs[j], t[j])
    ensures var j := k - 1 - Before(s, t, k).drain; j >= 0 ==> !Low(c, obs[j], t[j])
  {
    if k > 0 {
      DrainCountsStreak(c, s, obs, t, k - 1);
      assert EpochOf(c, s, obs, t, k - 1);
      EpochEffect(c, Before(s, t, k - 1), obs[k - 1]);
    }
  }

  // Over every run: a settled epoch moves the weight by at most 0.10, and lowers it only if it
  // and the epochs before it, as many as the configured minimum, were all settled and low.
  lemma SettledEpochMoves(c: Config, s: NodeState, obs: seq<Observation>, t: seq<Result>, k: nat)
    requires ValidConfig(c) && InRange(c, s.weight) && s.drain == 0
    requires IsRun(c, s, obs, t) && k < |t| && Settled(c, obs[k], t[k])
    ensures var change := t[k].next.weight - Before(s, t, k).weight;
            && -0.10 <= change <= 0.10
            && (change < 0.0 ==>
                  && WithDefaults(c).minDrainEpochs <= k + 1
                  && forall j :: k + 1 - WithDefaults(c).minDrainEpochs <= j <= k ==> Low(c, obs[j], t[j]))
  {
    WeightStaysInRange(c, s, obs, t, k);
    DrainCountsStreak(c, s, obs, t, k + 1);
    assert EpochOf(c, s, obs, t, k);
    EpochEffect(c, Before(s, t, k), obs[k]);
  }

  // In every other epoch the weight does not rise; it falls by at most 0.02 on historical data
  // and not at all without data.
  lemma UnsettledEpoch(c: Config, s: NodeState, o: Observation)
    requires ValidConfig(c) && InRange(c, s.weight)
    ensures var r := ScoreNode(s, o, c);
            && (r.next.weight > s.weight ==> Settled(c, o, r) && r.next.ema > c.boostThreshold)
            && (r.provenance == HistoricalDaily ==> s.weight - 0.02 <= r.next.weight)
            && (r.frozen <==> r.provenance == ConservativeDefault)
            && (r.frozen ==> r.next.weight == s.weight)
  {
  }

  // Over every run a weight rises only in a settled epoch with a score above the boost threshold.
  lemma RisesOnlyWhenBoosted(c: Config, s: NodeState, obs: seq<Observation>, t: seq<Result>, k: nat)
    requires ValidConfig(c) && InRange(c, s.weight) && IsRun(c, s, obs, t) && k < |t|
    ensures t[k].next.weight > Before(s, t, k).weight ==> Settled(c, obs[k], t[k]) && t[k].next.ema > c.boostThreshold
    ensures t[k].provenance == HistoricalDaily ==> Before(s, t, k).weight - 0.02 <= t[k].next.weight
    ensures t[k].provenance == ConservativeDefault ==> t[k].next.weight == Before(s, t, k).weight
  {
    WeightStaysInRange(c, s, obs, t, k);
    assert EpochOf(c, s, obs, t, k);
    UnsettledEpoch(c, Before(s, t, k), obs[k]);
  }

  // What a low epoch takes off the weight once the streak is long enough.
  function DrainAmount(c: Config): real { Min(c.drainStep, 0.10) }

  // How many of the first k low epochs take something off.
  function Draining(c: Config, k: nat): nat {
    if k < WithDefaults(c).minDrainEpochs then 0 else k - WithDefaults(c).minDrainEpochs + 1
  }

  lemma LowEpochDrains(c: Config, s: NodeState, o: Observation)
    requires ValidConfig(c) && InRange(c, s.weight) && c.drainThreshold <= c.boostThreshold
    requires Low(c, o, ScoreNode(s, o, c))
    ensures ScoreNode(s, o, c).next.weight ==
            if s.drain + 1 >= WithDefaults(c).minDrainEpochs then Max(c.weightMin, s.weight - DrainAmount(c)) else s.weight
  {
  }

  // A node that stays low loses the same amount every epoch after the grace of the minimum
  // streak, down to the floor: the weight after k low epochs in closed form.
  lemma {:induction false} LowNodeDrainsToFloor(c: Config, s: NodeState, obs: seq<Observation>, t: seq<Result>, k: nat)
    requires ValidConfig(c) && InRange(c, s.weight) && s.drain == 0 && c.drainThreshold <= c.boostThreshold
    requires IsRun(c, s, obs, t) && k <= |t| && forall j :: 0 <= j < k ==> Low(c, obs[j], t[j])
    ensures Before(s, t, k).drain == k
    ensures Before(s, t, k).weight == Max(c.weightMin, s.weight - Draining(c, k) as real * DrainAmount(c))
  {
    if k > 0 {
      LowNodeDrainsToFloor(c, s, obs, t, k - 1);
      WeightStaysInRange(c, s, obs, t, k - 1);
      assert EpochOf(c, s, obs, t, k - 1);
      EpochEffect(c, Before(s, t, k - 1), obs[k - 1]);
      LowEpochDrains(c, Before(s, t, k - 1), obs[k - 1]);
      if k >= WithDefaults(c).minDrainEpochs {
        assert Draining(c, k) == Draining(c, k - 1) + 1;
        OneMore(Draining(c, k - 1), DrainAmount(c));
      }
    }
  }

  lemma OneMore(n: nat, x: real)
    ensures (n + 1) as real * x == n as real * x + x
  {
  }

  function Power(x: real, k: nat): real { if k == 0 then 1.0 else x * Power(x, k - 1) }

  // A new raw value moves a positive score by alpha of the distance to it; the first is taken as it is.
  lemma SmoothMoves(prev: real, raw: real, alpha: real)
    ensures prev > 0.0 ==> Smooth(prev, raw, alpha) - prev == alpha * (raw - prev)
    ensures prev <= 0.0 ==> Smooth(prev, raw, alpha) == raw
  {
  }

  // While the raw value stays the same, the distance of a positive score to it shrinks by the
  // factor 1 - alpha in every epoch.
  lemma {:induction false} ScoreConverges(c: Config, s: NodeState, obs: seq<Observation>, t: seq<Result>, k: nat, raw: real)
    requires ValidConfig(c) && s.ema > 0.0 && raw > 0.0 && IsRun(c, s, obs, t) && k <= |t|
    requires forall j :: 0 <= j < k ==> t[j].raw == raw
    ensures Before(s, t, k).ema - raw == Power(1.0 - WithDefaults(c).emaAlpha, k) * (s.ema - raw)
    ensures Before(s, t, k).ema > 0.0
  {
    if k > 0 {
      ScoreConverges(c, s, obs, t, k - 1, raw);
      assert EpochOf(c, s, obs, t, k - 1);
      var alpha := WithDefaults(c).emaAlpha;
      SmoothShrinks(Before(s, t, k - 1).ema, raw, alpha, Power(1.0 - alpha, k - 1), s.ema - raw);
    }
  }

  lemma SmoothShrinks(prev: real, raw: real, alpha: real, power: real, gap: real)
    requires prev > 0.0 && raw > 0.0 && 0.0 <= alpha <= 1.0 && prev - raw == power * gap
    ensures Smooth(prev, raw, alpha) - raw == (1.0 - alpha) * power * gap && Smooth(prev, raw, alpha) > 0.0
  {
    SmoothMoves(prev, raw, alpha);
    assert prev + alpha * (raw - prev) - raw == (1.0 - alpha) * (prev - raw);
    if prev < raw { Convex(alpha, raw, prev, prev, raw); } else { Convex(alpha, raw, prev, raw, prev); }
  }

  // The smoothed score never leaves the range of the raw values seen so far.
  lemma {:induction false} ScoreWithinInputs(c: Config, s: NodeState, obs: seq<Observation>, t: seq<Result>, k: nat, lo: real, hi: real)
    requires ValidConfig(c) && (s.ema <= 0.0 || lo <= s.ema <= hi) && IsRun(c, s, obs, t) && k < |t|
    requires forall j :: 0 <= j <= k ==> lo <= t[j].raw <= hi
    ensures lo <= t[k].next.ema <= hi
  {
    var alpha := WithDefaults(c).emaAlpha;
    assert EpochOf(c, s, obs, t, k);
    assert t[k].next.ema == Smooth(Before(s, t, k).ema, t[k].raw, alpha);
    if k > 0 { ScoreWithinInputs(c, s, obs, t, k - 1, lo, hi); }
    if Before(s, t, k).ema > 0.0 { Convex(alpha, t[k].raw, Before(s, t, k).ema, lo, hi); }
  }

  lemma Convex(alpha: real, x: real, y: real, lo: real, hi: real)
    requires 0.0 <= alpha <= 1.0 && lo <= x <= hi && lo <= y <= hi
    ensures lo <= alpha * x + (1.0 - alpha) * y <= hi
  {
    var beta := 1.0 - alpha;
    ProductSign(alpha, x - lo);
    ProductSign(beta, y - lo);
    ProductSign(alpha, hi - x);
    ProductSign(beta, hi - y);
    assert alpha * (x - lo) + beta * (y - lo) == alpha * x + beta * y - lo;
    assert alpha * (hi - x) + beta * (hi - y) == hi - (alpha * x + beta * y);
  }

  lemma ProductSign(x: real, y: real)
    requires x >= 0.0 && y >= 0.0
    ensures x * y >= 0.0
  {
  }
}
