/**
 The region dial in plain terms: whose provenance a region gets, what one more node does to its score,
 in what proportion shares stand, and what a dial run makes of a region's weight.
 */
module RegionRows {
  import opened Common
  import Scorer = NodeScorer
  import opened NodeWeights
  import opened RegionDial

  // ---------------------------------------------------------------- provenance and score

  predicate Has(ls: seq<Label>, p: Scorer.Provenance) { Known(p) in ls }

  // The provenance of a region is the worst its nodes have, in this order; text that is none of the
  // four is only ever taken from the first node, and only while nothing else is as bad.
  lemma DominantIs(ls: seq<Label>)
    requires ls != [] && ls[0].Known?
    ensures Dominant(ls) ==
            if Has(ls, Scorer.ConservativeDefault) then Known(Scorer.ConservativeDefault)
            else if Has(ls, Scorer.HistoricalDaily) then Known(Scorer.HistoricalDaily)
            else if Has(ls, Scorer.NeighborMedian) then Known(Scorer.NeighborMedian)
            else Known(Scorer.OwnWindow)
  {
    DominantIsWorst(ls);
    var d := Dominant(ls);
    forall p | Has(ls, p) ensures Rank(d) <= Rank(Known(p)) {
      var i :| 0 <= i < |ls| && ls[i] == Known(p);
    }
    assert d.Known? && Has(ls, d.p);
  }

  // A first label of unknown text counts as the worst, and stays.
  lemma {:induction false} UnknownFirstStays(ls: seq<Label>)
    requires ls != [] && ls[0].Unknown?
    ensures Dominant(ls) == ls[0]
  {
    if |ls| > 1 { UnknownFirstStays(ls[..|ls| - 1]); }
  }

  // A node counts by its weight, and as one where it has none.
  function Counts(n: NodeRow): real { if n.weight > 0.0 then n.weight else 1.0 }

  // One more node: score times weight of the region grows by what the node adds; alone, it is the score.
  lemma OneMoreNode(nodes: seq<NodeRow>, n: NodeRow)
    ensures nodes == [] ==> RegionScore(nodes + [n]) == n.score
    ensures WeightSum(nodes + [n]) == WeightSum(nodes) + Counts(n)
    ensures nodes != [] ==>
              Times(RegionScore(nodes + [n]), WeightSum(nodes) + Counts(n)) == Times(RegionScore(nodes), WeightSum(nodes)) + Times(n.score, Counts(n))
  {
    assert (nodes + [n])[..|nodes|] == nodes;
    WeightSumPositive(nodes);
    WeightSumPositive(nodes + [n]);
    if nodes == [] {
      assert ScoreSum(nodes + [n]) == n.score * Counts(n);
      WholeQuotient(n.score, Counts(n));
    } else {
      RateAdds(ScoreSum(nodes), WeightSum(nodes), Times(n.score, Counts(n)), Counts(n));
    }
  }

  lemma WholeQuotient(x: real, w: real)
    requires w > 0.0
    ensures x * w / w == x
  {
  }

  // ---------------------------------------------------------------- proportions

  // Where nothing is below zero and something is not zero, shares stand in the proportion of the
  // weights brought within the bounds; a zero weight stays out.
  lemma SharesProportional(ws: seq<real>, lo: real, hi: real, i: nat, j: nat)
    requires i < |ws| && j < |ws| && 0.0 < lo <= hi && !AllZero(ws)
    ensures var r := Normalized(ws, lo, hi);
            && |r| == |ws|
            && Times(r[i], Bounded(ws[j], lo, hi)) == Times(r[j], Bounded(ws[i], lo, hi))
  {
    var c := Clamped(ws, lo, hi);
    var k :| 0 <= k < |ws| && ws[k] != 0.0;
    Parts(c);
    assert c[k] > 0.0 && Active(c) != 0;
    assert Sum(c) > 0.0;
    CrossDivide(c[i], c[j], Sum(c));
    ZeroDivided(Sum(c));
  }

  function Bounded(w: real, lo: real, hi: real): real {
    if w == 0.0 then 0.0 else if w <= lo then lo else if w >= hi then hi else w
  }

  lemma CrossDivide(x: real, y: real, total: real)
    requires total > 0.0
    ensures Times(x / total, y) == Times(y / total, x)
  {
    var p, q := x / total, y / total;
    assert p * total == x && q * total == y;
    assert p * y == p * (q * total) && q * x == q * (p * total);
  }

  // ---------------------------------------------------------------- one region in a dial run

  // The weight a region comes with, or an equal part of the regions.
  function Previous(r: DialInput, n: nat): real
    requires n > 0
  {
    if r.prevWeight > 0.0 then r.prevWeight else 1.0 / n as real
  }

  // A region is scored like a node from a window of its own, but only under a configuration that
  // names its window and its samples; otherwise its weight is frozen where it was.
  lemma RegionIsScoredIff(r: DialInput, n: nat, c: Scorer.Config)
    requires n > 0
    ensures var own := Scorer.ScoreNode(Scorer.NodeState(Previous(r, n), r.ema, r.drain), DialObservation(RegionScore(r.nodes), c), c);
            && (own.provenance == Scorer.OwnWindow <==> c.windowMin > 0 && c.minSamples > 0)
            && (own.provenance == Scorer.OwnWindow ==> own.raw == RegionScore(r.nodes))
            && (own.provenance != Scorer.OwnWindow ==> own.frozen && Scored(r, n, c).weight == Previous(r, n) && Scored(r, n, c).drain == 0)
  {
    var o := DialObservation(RegionScore(r.nodes), c);
    OneBucket(o.buckets[0]);
    assert o.buckets == [o.buckets[0]];
  }

  lemma OneBucket(b: Scorer.BucketPoint)
    ensures Scorer.Samples([b]) == b.samples
    ensures b.samples > 0 ==> Scorer.Aggregate([b], Scorer.Utilization) == Some(b.mean)
  {
    assert [b][..0] == [];
    assert Scorer.SumOf([b], Scorer.Used) == 0.0 + Scorer.Used(b) && Scorer.SumOf([b], Scorer.UsedMean) == 0.0 + Scorer.UsedMean(b);
  }

  // What a dial run makes of a region's weight before shares are taken, and of the rest of its row.
  lemma RegionRow(r: DialInput, n: nat, c: Scorer.Config)
    requires n > 0 && Scorer.ValidConfig(c) && c.drainThreshold <= c.boostThreshold && c.windowMin > 0 && c.minSamples > 0
    requires Scorer.InRange(c, Previous(r, n))
    ensures var row, w := Scored(r, n, c), Previous(r, n);
            && row.region == r.region && row.score == RegionScore(r.nodes) && row.provenance == Dominant(Labels(r.nodes))
            && (r.ema > 0.0 ==> row.ema - r.ema == (if c.emaAlpha > 0.0 then c.emaAlpha else 0.3) * (row.score - r.ema))
            && (r.ema <= 0.0 ==> row.ema == row.score)
            && row.weight ==
               if 60 * (c.windowMin + 1) < Positive(c.nodeWarmupSec, 300) then Scorer.Min(w, c.weightMaxCold)
               else if row.ema < c.drainThreshold && r.drain + 1 >= Positive(c.minDrainEpochs, 3) then Scorer.Max(c.weightMin, w - Step(c.drainStep))
               else if row.ema > c.boostThreshold then Scorer.Min(c.weightMax, w + Step(c.boostStep))
               else w
  {
    var s, o := Scorer.NodeState(Previous(r, n), r.ema, r.drain), DialObservation(RegionScore(r.nodes), c);
    RegionIsScoredIff(r, n, c);
    EpochWeight(c, s, o);
    EpochScore(c, s, o);
  }
}
