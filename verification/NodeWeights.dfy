/**
 The node scorer in plain terms: when a node is in which phase, what a window comes to, and what each
 epoch makes of a weight, without the defaults, clamps and intermediate values of the code.
 */
module NodeWeights {
  import opened Common
  import opened NodeScorer

  // ---------------------------------------------------------------- phases

  function Positive(x: int, otherwise: int): int { if x > 0 then x else otherwise }

  // The phase of a node from what is observed, with 15 minutes, 30 samples and two missed scrapes
  // where the configuration does not say.
  lemma PhaseIff(o: Observation, c: Config)
    ensures var cold := o.uptime < 60.0 * Positive(c.windowMin, 15) as real;
            var own := Samples(o.buckets) >= Positive(c.minSamples, 30) && o.scrapeMisses < 3;
            && (ResolvePhase(o, c) == ColdStart <==> cold)
            && (ResolvePhase(o, c) == Own <==> !cold && own)
            && (ResolvePhase(o, c) == Neighbor <==> !cold && !own && |FiniteValues(o.neighbors)| > 1)
            && (ResolvePhase(o, c) == Historical <==> !cold && !own && |FiniteValues(o.neighbors)| <= 1 && o.historical.Some?)
  {
  }

  // What a node is scored by in each phase: the median of its finite neighbours, its own window,
  // its history, or a fixed score where there is nothing.
  lemma RawValueByPhase(o: Observation, c: Config)
    ensures var fixed := if c.conservativeScore > 0.0 then c.conservativeScore else 0.5;
            var neighbours := FiniteValues(o.neighbors);
            Source(o, c).0 ==
              match ResolvePhase(o, c)
                case ColdStart => (if neighbours == [] then fixed else Median(neighbours))
                case Own => (if Aggregate(o.buckets, o.kind).None? then fixed else Aggregate(o.buckets, o.kind).value)
                case Neighbor => (if neighbours == [] then fixed else Median(neighbours))
                case Historical => (if o.historical.None? then fixed else o.historical.value)
                case Conservative => fixed
  {
  }

  lemma {:induction false} FiniteOnes(values: seq<Float>)
    ensures forall x :: x in FiniteValues(values) <==> Finite(x) in values
    ensures |FiniteValues(values)| <= |values|
  {
    if values != [] {
      FiniteOnes(values[1..]);
      assert forall v :: v in values <==> v == values[0] || v in values[1..];
    }
  }

  // ---------------------------------------------------------------- windows

  // The worst latency and the worst counter of a window are those of one of its buckets.
  lemma WorstIsOfABucket(buckets: seq<BucketPoint>)
    requires buckets != []
    ensures var worst, count := Aggregate(buckets, Latency), Aggregate(buckets, Counter);
            && worst.Some? && (exists b :: b in buckets && b.p99 == worst.value) && (forall b :: b in buckets ==> b.p99 <= worst.value)
            && count.Some? && (exists b :: b in buckets && b.mean == count.value) && (forall b :: b in buckets ==> b.mean <= count.value)
  {
    MaxIsOfABucket(buckets, P99);
    MaxIsOfABucket(buckets, Mean);
    var b :| b in buckets && P99(b) == MaxOf(buckets, P99);
    var d :| d in buckets && Mean(d) == MaxOf(buckets, Mean);
    forall e | e in buckets ensures e.p99 <= MaxOf(buckets, P99) && e.mean <= MaxOf(buckets, Mean) {
      assert P99(e) <= MaxOf(buckets, P99) && Mean(e) <= MaxOf(buckets, Mean);
    }
  }

  lemma {:induction false} MaxIsOfABucket(buckets: seq<BucketPoint>, f: BucketPoint -> real)
    requires buckets != []
    ensures exists b :: b in buckets && f(b) == MaxOf(buckets, f)
    ensures forall b :: b in buckets ==> f(b) <= MaxOf(buckets, f)
  {
    var n := |buckets| - 1;
    assert buckets[n] in buckets;
    if n > 0 {
      MaxIsOfABucket(buckets[..n], f);
      assert forall b :: b in buckets <==> b in buckets[..n] || b == buckets[n];
    }
  }

  function Times(x: real, y: real): real { x * y }

  // One more bucket moves the mean of a window by its distance over the number of used buckets, and
  // a bucket without samples not at all.
  lemma OneMoreBucket(buckets: seq<BucketPoint>, b: BucketPoint)
    requires SumOf(buckets, Used) > 0.0
    ensures var before, after, n := Aggregate(buckets, Utilization), Aggregate(buckets + [b], Utilization), SumOf(buckets, Used);
            && before.Some? && after.Some?
            && (b.samples > 0 ==> Times(after.value - before.value, n + 1.0) == b.mean - before.value)
            && (b.samples <= 0 ==> after == before)
  {
    SumAppend(buckets, b, Used);
    SumAppend(buckets, b, UsedMean);
    MeanMoves(SumOf(buckets, UsedMean), SumOf(buckets, Used), b.mean);
  }

  lemma MeanMoves(s: real, n: real, x: real)
    requires n > 0.0
    ensures Times((s + x) / (n + 1.0) - s / n, n + 1.0) == x - s / n
  {
    var q, p := s / n, (s + x) / (n + 1.0);
    assert q * n == s && p * (n + 1.0) == s + x;
    assert (p - q) * (n + 1.0) == p * (n + 1.0) - q * (n + 1.0) == s + x - q * n - q;
  }

  lemma SumAppend(buckets: seq<BucketPoint>, b: BucketPoint, f: BucketPoint -> real)
    ensures SumOf(buckets + [b], f) == SumOf(buckets, f) + f(b)
  {
    assert (buckets + [b])[..|buckets|] == buckets;
  }

  // What a bucket counts for in a rate: its denominator where it has one, else its samples.
  function RateWeight(b: BucketPoint): real { if b.denominator > 0.0 then b.denominator else if b.samples <= 0 then 0.0 else b.samples as real }

  // What it adds to the total: its numerator, or its mean for each of its samples.
  function RateTotal(b: BucketPoint): real { if b.denominator > 0.0 then b.numerator else RateWeight(b) * b.mean }

  // One more bucket in a rate: rate times weight of the window grows by what the bucket adds.
  lemma OneMoreRate(buckets: seq<BucketPoint>, b: BucketPoint)
    requires SumOf(buckets, RateDenominator) > 0.0
    ensures var before, after, n := Aggregate(buckets, Rate), Aggregate(buckets + [b], Rate), SumOf(buckets, RateDenominator);
            && before.Some? && after.Some?
            && Times(after.value, n + RateWeight(b)) == Times(before.value, n) + RateTotal(b)
  {
    SumAppend(buckets, b, RateDenominator);
    SumAppend(buckets, b, RateNumerator);
    RateParts(b);
    RateAdds(SumOf(buckets, RateNumerator), SumOf(buckets, RateDenominator), RateTotal(b), RateWeight(b));
  }

  lemma RateParts(b: BucketPoint)
    ensures RateDenominator(b) == RateWeight(b) >= 0.0 && RateNumerator(b) == RateTotal(b)
  {
    if b.denominator <= 0.0 && b.samples <= 0 { assert 0.0 * b.mean == 0.0; }
  }

  lemma RateAdds(s: real, n: real, x: real, w: real)
    requires n > 0.0 && w >= 0.0
    ensures Times((s + x) / (n + w), n + w) == Times(s / n, n) + x
  {
  }

  // ---------------------------------------------------------------- weights

  // What a settled epoch takes or gives: the configured step, at most a tenth.
  function Step(configured: real): real { if configured < 0.10 then configured else 0.10 }

  // The new weight of a node whose weight is in range, phase by phase: kept without data and on
  // neighbours, capped while it is cold or in its grace, lowered by 0.02 on history; on its own
  // window lowered after enough low epochs and raised on a high score, within its bounds.
  lemma EpochWeight(c: Config, s: NodeState, o: Observation)
    requires ValidConfig(c) && InRange(c, s.weight) && c.drainThreshold <= c.boostThreshold
    ensures var r := ScoreNode(s, o, c);
            var w, score := s.weight, r.next.ema;
            var grace := o.uptime < Positive(c.nodeWarmupSec, 300) as real;
            r.next.weight ==
              match r.provenance
                case ConservativeDefault => w
                case NeighborMedian => (if r.coldStart && w > c.weightMaxCold then c.weightMaxCold else w)
                case HistoricalDaily => Max(c.weightMin, w - 0.02)
                case OwnWindow =>
                  if grace then Min(w, c.weightMaxCold)
                  else if score < c.drainThreshold && s.drain + 1 >= Positive(c.minDrainEpochs, 3) then Max(c.weightMin, w - Step(c.drainStep))
                  else if score > c.boostThreshold then Min(c.weightMax, w + Step(c.boostStep))
                  else w
  {
  }

  // A node without a weight starts at one over the samples it needs, under the caps, and comes up
  // to that by at most 0.02 on history and 0.10 on its own window.
  lemma FirstWeight(c: Config, s: NodeState, o: Observation)
    requires ValidConfig(c) && s.weight <= 0.0 && c.drainThreshold <= c.boostThreshold
    ensures var r, start := ScoreNode(s, o, c), Min(1.0 / Positive(c.minSamples, 30) as real, c.weightMax);
            var score := r.next.ema;
            r.next.weight ==
              match r.provenance
                case ConservativeDefault => s.weight
                case NeighborMedian => (if r.coldStart then Min(start, c.weightMaxCold) else start)
                case HistoricalDaily => Min(Max(c.weightMin, start - 0.02), s.weight + 0.02)
                case OwnWindow =>
                  if o.uptime < Positive(c.nodeWarmupSec, 300) as real then Min(start, c.weightMaxCold)
                  else if score < c.drainThreshold && s.drain + 1 >= Positive(c.minDrainEpochs, 3)
                  then Min(Max(c.weightMin, start - c.drainStep), s.weight + 0.10)
                  else if score > c.boostThreshold then Min(Min(c.weightMax, start + c.boostStep), s.weight + 0.10)
                  else Min(start, s.weight + 0.10)
  {
    var n := Positive(c.minSamples, 30) as real;
    assert 1.0 / n * n == 1.0;
    assert 1.0 / n > 0.0;
  }

  // The score is smoothed by the configured alpha, or 0.3, and the first raw value is taken as it is.
  lemma EpochScore(c: Config, s: NodeState, o: Observation)
    ensures var r := ScoreNode(s, o, c);
            var alpha := if c.emaAlpha > 0.0 then c.emaAlpha else 0.3;
            && (s.ema > 0.0 ==> r.next.ema - s.ema == alpha * (r.raw - s.ema))
            && (s.ema <= 0.0 ==> r.next.ema == r.raw)
            && r.raw == Source(o, c).0 && r.provenance == Source(o, c).1 && (r.coldStart <==> ResolvePhase(o, c) == ColdStart)
  {
    SmoothMoves(s.ema, Source(o, c).0, WithDefaults(c).emaAlpha);
  }
}
