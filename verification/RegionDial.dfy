/**
 The region dial: regions are sorted, each is scored from its nodes and run through the node
 scorer's hysteresis, and the resulting weights are normalised to shares of the traffic.
 */
module RegionDial {
  import opened Common
  import Scorer = NodeScorer

  // The provenance column holds text; anything but the four known values is Unknown.
  datatype Label = Known(p: Scorer.Provenance) | Unknown(text: string)
  datatype NodeRow = NodeRow(score: real, weight: real, provenance: Label)
  datatype DialInput = DialInput(region: int, nodes: seq<NodeRow>, prevWeight: real, ema: real, drain: int)
  datatype DialResult = DialResult(region: int, score: real, weight: real, provenance: Label, ema: real, drain: int)

  // ---------------------------------------------------------------- sums

  function Sum(xs: seq<real>): real {
    if xs == [] then 0.0 else Sum(xs[..|xs| - 1]) + xs[|xs| - 1]
  }

  lemma SumAppend(xs: seq<real>, x: real)
    ensures Sum(xs + [x]) == Sum(xs) + x
  {
    assert (xs + [x])[..|xs|] == xs;
  }

  // ---------------------------------------------------------------- normalising peer weights

  function Clamp(v: real, lo: real, hi: real): real {
    if v < lo then lo else if v > hi then hi else v
  }

  function ClampWeight(w: real, lo: real, hi: real): real {
    if w == 0.0 then 0.0 else Clamp(w, lo, hi)
  }

  function Clamped(ws: seq<real>, lo: real, hi: real): seq<real> {
    seq(|ws|, i requires 0 <= i < |ws| => ClampWeight(ws[i], lo, hi))
  }

  function Active(c: seq<real>): nat {
    if c == [] then 0 else Active(c[..|c| - 1]) + if c[|c| - 1] > 0.0 then 1 else 0
  }

  // Positive entries are divided by the total, or all set to one value; the others stay.
  function Divided(c: seq<real>, total: real): seq<real>
    requires total > 0.0
  {
    seq(|c|, i requires 0 <= i < |c| => if c[i] > 0.0 then c[i] / total else c[i])
  }

  function Levelled(c: seq<real>, share: real): seq<real> {
    seq(|c|, i requires 0 <= i < |c| => if c[i] > 0.0 then share else c[i])
  }

  function Equal(n: nat): seq<real> {
    seq(n, i requires 0 <= i < n => 1.0 / n as real)
  }

  function Normalized(ws: seq<real>, lo: real, hi: real): seq<real> {
    var c := Clamped(ws, lo, hi);
    if Sum(c) > 0.0 then Divided(c, Sum(c))
    else if Active(c) == 0 then Equal(|c|)
    else Levelled(c, 1.0 / Active(c) as real)
  }

  // The loops over one output buffer that compute it.
  method NormalizePeerWeights(ws: seq<real>, lo: real, hi: real) returns (out: array<real>)
    ensures out[..] == Normalized(ws, lo, hi)
  {
    out := new real[|ws|];
    ghost var c := Clamped(ws, lo, hi);
    var sum := 0.0;
    for i := 0 to |ws|
      invariant out[..i] == c[..i] && sum == Sum(c[..i])
    {
      assert c[..i + 1] == c[..i] + [c[i]];
      SumAppend(c[..i], c[i]);
      if ws[i] == 0.0 {
        out[i] := 0.0;
      } else {
        out[i] := Clamp(ws[i], lo, hi);
        sum := sum + out[i];
      }
    }
    assert c[..|ws|] == c && out[..] == c;
    if sum > 0.0 {
      Divide(out, sum);
    } else {
      var active := 0;
      for i := 0 to out.Length
        invariant active == Active(out[..i])
      {
        assert out[..i + 1][..i] == out[..i];
        if out[i] > 0.0 { active := active + 1; }
      }
      assert out[..out.Length] == c;
      if active == 0 {
        Fill(out);
      } else {
        Level(out, 1.0 / active as real);
      }
    }
  }

  method Divide(out: array<real>, sum: real)
    requires sum > 0.0
    modifies out
    ensures out[..] == Divided(old(out[..]), sum)
  {
    for i := 0 to out.Length
      invariant forall j :: 0 <= j < out.Length ==>
        out[j] == if j < i && old(out[j]) > 0.0 then old(out[j]) / sum else old(out[j])
    {
      if out[i] > 0.0 { out[i] := out[i] / sum; }
    }
  }

  method Level(out: array<real>, share: real)
    modifies out
    ensures out[..] == Levelled(old(out[..]), share)
  {
    for i := 0 to out.Length
      invariant forall j :: 0 <= j < out.Length ==>
        out[j] == if j < i && old(out[j]) > 0.0 then share else old(out[j])
    {
      if out[i] > 0.0 { out[i] := share; }
    }
  }

  method Fill(out: array<real>)
    modifies out
    ensures out[..] == Equal(out.Length)
  {
    for i := 0 to out.Length
      invariant forall j :: 0 <= j < i ==> out[j] == Equal(out.Length)[j]
    {
      out[i] := 1.0 / out.Length as real;
    }
  }

  // ---------------------------------------------------------------- what the shares are

  function Negatives(c: seq<real>): real {
    if c == [] then 0.0 else Negatives(c[..|c| - 1]) + Scorer.Min(0.0, c[|c| - 1])
  }

  function Positives(c: seq<real>): real {
    if c == [] then 0.0 else Positives(c[..|c| - 1]) + Scorer.Max(0.0, c[|c| - 1])
  }

  lemma {:induction false} Parts(c: seq<real>)
    ensures Sum(c) == Positives(c) + Negatives(c) && Positives(c) >= 0.0 && Negatives(c) <= 0.0
    ensures Negatives(c) == 0.0 <==> forall i :: 0 <= i < |c| ==> c[i] >= 0.0
    ensures Active(c) == 0 <==> forall i :: 0 <= i < |c| ==> c[i] <= 0.0
    ensures Positives(c) == 0.0 <==> Active(c) == 0
  {
    if c != [] {
      var d := c[..|c| - 1];
      Parts(d);
      assert c == d + [c[|c| - 1]];
    }
  }

  lemma {:induction false} SumDivided(c: seq<real>, total: real)
    requires total > 0.0
    ensures Sum(Divided(c, total)) == Positives(c) / total + Negatives(c)
  {
    if c != [] {
      var d := c[..|c| - 1];
      SumDivided(d, total);
      assert Divided(c, total)[..|d|] == Divided(d, total);
      QuotientAdds(Positives(d), Scorer.Max(0.0, c[|d|]), total);
      ZeroDivided(total);
    }
  }

  lemma QuotientAdds(x: real, y: real, total: real)
    requires total > 0.0
    ensures (x + y) / total == x / total + y / total
  {
  }

  lemma ZeroDivided(total: real)
    requires total > 0.0
    ensures 0.0 / total == 0.0
  {
  }

  lemma {:induction false} SumLevelled(c: seq<real>, share: real)
    ensures Sum(Levelled(c, share)) == Active(c) as real * share + Negatives(c)
  {
    if c != [] {
      var d := c[..|c| - 1];
      SumLevelled(d, share);
      assert Levelled(c, share)[..|d|] == Levelled(d, share);
      Scorer.OneMore(Active(d), share);
    }
  }

  lemma {:induction false} SumConstant(n: nat, x: real)
    ensures Sum(seq(n, i => x)) == n as real * x
  {
    if n > 0 {
      SumConstant(n - 1, x);
      assert seq(n, i => x)[..n - 1] == seq(n - 1, i => x);
      Scorer.OneMore(n - 1, x);
    }
  }

  // Exactly when the shares sum to one, for every input and every pair of bounds: unless some
  // clamped weight is positive, some is negative, and they do not happen to sum to one already.
  lemma {:induction false} SharesSumToOneIff(ws: seq<real>, lo: real, hi: real)
    requires ws != []
    ensures var c := Clamped(ws, lo, hi);
            Sum(Normalized(ws, lo, hi)) == 1.0 <==>
              || (forall i :: 0 <= i < |c| ==> c[i] >= 0.0)
              || (forall i :: 0 <= i < |c| ==> c[i] <= 0.0)
              || Sum(c) == 1.0
  {
    var c := Clamped(ws, lo, hi);
    Parts(c);
    if Sum(c) > 0.0 {
      SumDivided(c, Sum(c));
      DividedIsOneIff(Positives(c), Negatives(c));
    } else if Active(c) == 0 {
      EqualSum(|c|);
    } else {
      LevelledSum(c);
    }
  }

  lemma EqualSum(n: nat)
    requires n > 0
    ensures Sum(Equal(n)) == 1.0
  {
    assert Equal(n) == seq(n, i => 1.0 / n as real);
    SumConstant(n, 1.0 / n as real);
  }

  lemma LevelledSum(c: seq<real>)
    requires Active(c) > 0
    ensures Sum(Levelled(c, 1.0 / Active(c) as real)) == 1.0 + Negatives(c)
  {
    SumLevelled(c, 1.0 / Active(c) as real);
  }

  lemma DividedIsOneIff(p: real, n: real)
    requires p + n > 0.0 && n <= 0.0
    ensures p / (p + n) + n == 1.0 <==> n == 0.0 || p + n == 1.0
  {
    var t, q := p + n, p / (p + n);
    assert q * t == p;
    assert (q + n - 1.0) * t == n * (t - 1.0);
  }

  ghost predicate AllZero(ws: seq<real>) { forall i :: 0 <= i < |ws| ==> ws[i] == 0.0 }

  lemma ClampedSigns(ws: seq<real>, lo: real, hi: real)
    requires 0.0 < lo <= hi
    ensures var c := Clamped(ws, lo, hi); forall i :: 0 <= i < |ws| ==>
      c[i] >= 0.0 && c[i] <= hi && (ws[i] == 0.0 <==> c[i] == 0.0) && (ws[i] != 0.0 ==> c[i] >= lo)
    ensures Sum(Clamped(ws, lo, hi)) > 0.0 <==> !AllZero(ws)
  {
    var c := Clamped(ws, lo, hi);
    Parts(c);
    if i :| 0 <= i < |ws| && ws[i] != 0.0 { assert c[i] >= lo; }
    if AllZero(ws) { assert forall i :: 0 <= i < |c| ==> c[i] == 0.0; }
  }

  // With positive bounds the shares always sum to one; they are equal when every weight is zero,
  // and otherwise a share is zero exactly when its weight is.
  lemma {:induction false} ShareLaws(ws: seq<real>, lo: real, hi: real)
    requires ws != [] && 0.0 < lo <= hi
    ensures var r := Normalized(ws, lo, hi);
            && |r| == |ws| && Sum(r) == 1.0
            && (AllZero(ws) ==> r == Equal(|ws|))
            && (!AllZero(ws) ==> forall i :: 0 <= i < |ws| ==> r[i] >= 0.0 && (r[i] == 0.0 <==> ws[i] == 0.0))
  {
    var c := Clamped(ws, lo, hi);
    ClampedSigns(ws, lo, hi);
    SharesSumToOneIff(ws, lo, hi);
    Parts(c);
    if !AllZero(ws) {
      forall i | 0 <= i < |ws| ensures Divided(c, Sum(c))[i] >= 0.0 && (Divided(c, Sum(c))[i] == 0.0 <==> c[i] == 0.0) {
        DivideSign(c[i], Sum(c));
      }
    }
  }

  lemma DivideSign(x: real, y: real)
    requires x >= 0.0 && y > 0.0
    ensures x / y >= 0.0 && (x / y == 0.0 <==> x == 0.0)
  {
    assert x / y * y == x;
  }

  // A heavier peer never gets a smaller share.
  lemma ShareOrder(ws: seq<real>, lo: real, hi: real, i: nat, j: nat)
    requires 0.0 < lo <= hi && i < |ws| && j < |ws| && 0.0 <= ws[i] <= ws[j]
    ensures Normalized(ws, lo, hi)[i] <= Normalized(ws, lo, hi)[j]
  {
    var c := Clamped(ws, lo, hi);
    ClampedSigns(ws, lo, hi);
    Parts(c);
    if !AllZero(ws) {
      assert c[i] <= c[j];
      DivideOrder(c[i], c[j], Sum(c));
    }
  }

  lemma DivideOrder(x: real, y: real, t: real)
    requires x <= y && t > 0.0
    ensures x / t <= y / t
  {
    DivideSign(y - x, t);
    assert (y - x) / t == y / t - x / t;
  }

  // The least share a peer with a non-zero weight can end up with among n peers.
  function Floor(n: nat, lo: real, hi: real): real
    requires n > 0 && 0.0 < lo <= hi
  {
    Scorer.ProductSign((n - 1) as real, hi);
    lo / (lo + (n - 1) as real * hi)
  }

  lemma {:induction false} SumAtMost(c: seq<real>, hi: real)
    requires forall i :: 0 <= i < |c| ==> c[i] <= hi
    ensures Sum(c) <= |c| as real * hi
  {
    if c != [] {
      SumAtMost(c[..|c| - 1], hi);
      Scorer.OneMore(|c| - 1, hi);
    }
  }

  lemma {:induction false} SumAllBut(c: seq<real>, hi: real, i: nat)
    requires i < |c| && forall j :: 0 <= j < |c| ==> c[j] <= hi
    ensures Sum(c) <= c[i] + (|c| - 1) as real * hi
  {
    var d := c[..|c| - 1];
    if i == |c| - 1 {
      SumAtMost(d, hi);
    } else {
      SumAllBut(d, hi, i);
      Scorer.OneMore(|d| - 1, hi);
    }
  }

  lemma FloorBelow(x: real, sum: real, rest: real, lo: real)
    requires 0.0 < lo <= x && rest >= 0.0 && 0.0 < sum <= x + rest
    ensures lo / (lo + rest) <= x / sum
  {
    var f, q := lo / (lo + rest), x / sum;
    assert f * (lo + rest) == lo && q * sum == x;
    Scorer.ProductSign(x - lo, rest);
    Scorer.ProductSign(x + rest - sum, lo);
    assert x * (lo + rest) - lo * sum >= 0.0;
    assert (q - f) * (sum * (lo + rest)) == x * (lo + rest) - lo * sum;
    FactorSign(q - f, sum, lo + rest);
  }

  lemma FactorSign(d: real, x: real, y: real)
    requires x > 0.0 && y > 0.0 && d * (x * y) >= 0.0
    ensures d >= 0.0
  {
    Scorer.FactorSign(d, x * y);
  }

  lemma DividedFloor(c: seq<real>, lo: real, hi: real, i: nat)
    requires 0.0 < lo <= hi && i < |c| && Sum(c) > 0.0 && c[i] >= lo && forall j :: 0 <= j < |c| ==> c[j] <= hi
    ensures c[i] / Sum(c) >= Floor(|c|, lo, hi)
  {
    SumAllBut(c, hi, i);
    Scorer.ProductSign((|c| - 1) as real, hi);
    FloorBelow(c[i], Sum(c), (|c| - 1) as real * hi, lo);
  }

  lemma {:induction false} ShareFloor(ws: seq<real>, lo: real, hi: real, i: nat)
    requires 0.0 < lo <= hi && i < |ws| && ws[i] != 0.0
    ensures Normalized(ws, lo, hi)[i] >= Floor(|ws|, lo, hi)
  {
    ClampedSigns(ws, lo, hi);
    DividedFloor(Clamped(ws, lo, hi), lo, hi, i);
  }

  // The floor is attained: one peer at the lower bound among peers at the upper bound. In
  // particular a share may fall below lo, which clamping before dividing does not prevent.
  lemma FloorAttained(n: nat, lo: real, hi: real)
    requires n > 0 && 0.0 < lo <= hi
    ensures var ws := seq(n, i => if i == n - 1 then lo else hi); Normalized(ws, lo, hi)[n - 1] == Floor(n, lo, hi)
  {
    var ws := seq(n, i => if i == n - 1 then lo else hi);
    assert Clamped(ws, lo, hi) == ws;
    assert ws[..n - 1] == seq(n - 1, i => hi);
    SumConstant(n - 1, hi);
    Scorer.ProductSign((n - 1) as real, hi);
  }

  lemma FloorReachesMinimumIff(n: nat, lo: real, hi: real)
    requires n > 0 && 0.0 < lo <= hi
    ensures Floor(n, lo, hi) >= lo <==> lo + (n - 1) as real * hi <= 1.0
  {
    Scorer.ProductSign((n - 1) as real, hi);
    QuotientReachesIff(lo, lo + (n - 1) as real * hi);
  }

  lemma QuotientReachesIff(lo: real, sum: real)
    requires 0.0 < lo <= sum
    ensures lo / sum >= lo <==> sum <= 1.0
  {
    var f := lo / sum;
    assert f * sum == lo;
    assert (f - lo) * sum == lo * (1.0 - sum);
    if sum <= 1.0 {
      Scorer.ProductSign(lo, 1.0 - sum);
      Scorer.FactorSign(f - lo, sum);
    } else if f >= lo {
      Scorer.ProductSign(f - lo, sum);
      Scorer.FactorSign(1.0 - sum, lo);
    }
  }

  ghost predicate KeepsMinimum(ws: seq<real>, lo: real, hi: real) {
    forall i :: 0 <= i < |ws| && ws[i] != 0.0 ==> Normalized(ws, lo, hi)[i] >= lo
  }

  // Exactly when every peer with a weight keeps a share of at least the configured minimum,
  // whatever the weights of the n peers.
  lemma SharesReachMinimumIff(n: nat, lo: real, hi: real)
    requires n > 0 && 0.0 < lo <= hi
    ensures (forall ws: seq<real> :: |ws| == n ==> KeepsMinimum(ws, lo, hi)) <==> lo + (n - 1) as real * hi <= 1.0
  {
    FloorReachesMinimumIff(n, lo, hi);
    if lo + (n - 1) as real * hi <= 1.0 {
      forall ws: seq<real> | |ws| == n ensures KeepsMinimum(ws, lo, hi) {
        forall i | 0 <= i < n && ws[i] != 0.0 ensures Normalized(ws, lo, hi)[i] >= lo { ShareFloor(ws, lo, hi, i); }
      }
    } else {
      FloorAttained(n, lo, hi);
      var ws := seq(n, i => if i == n - 1 then lo else hi);
      assert ws[n - 1] != 0.0 && !KeepsMinimum(ws, lo, hi);
    }
  }

  // ---------------------------------------------------------------- hard signals

  function Zeroed(ws: seq<real>, failed: seq<bool>): seq<real>
    requires |ws| == |failed|
  {
    seq(|ws|, i requires 0 <= i < |ws| => if failed[i] then 0.0 else ws[i])
  }

  // A scoring round zeroes the nodes with a hard signal before and after it normalises, and
  // normalises once more.
  function RoundShares(ws: seq<real>, failed: seq<bool>, lo: real, hi: real): seq<real>
    requires |ws| == |failed|
  {
    var first := Normalized(Zeroed(ws, failed), lo, hi);
    Normalized(Zeroed(first, failed), lo, hi)
  }

  // A node with a hard signal is drained to zero if and only if some node has none; when every
  // node has one, all of them keep an equal share.
  lemma HardSignalDrainsIff(ws: seq<real>, failed: seq<bool>, lo: real, hi: real, i: nat)
    requires |ws| == |failed| && i < |ws| && failed[i] && 0.0 < lo <= hi
    requires forall j :: 0 <= j < |ws| ==> ws[j] > 0.0
    ensures var r := RoundShares(ws, failed, lo, hi);
            && Sum(r) == 1.0
            && (r[i] == 0.0 <==> exists j :: 0 <= j < |ws| && !failed[j])
            && (r[i] != 0.0 ==> r == Equal(|ws|))
            && (forall j :: 0 <= j < |ws| && !failed[j] ==> r[j] > 0.0)
  {
    var zeroed := Zeroed(ws, failed);
    ShareLaws(zeroed, lo, hi);
    var again := Zeroed(Normalized(zeroed, lo, hi), failed);
    ShareLaws(again, lo, hi);
    if j :| 0 <= j < |ws| && !failed[j] {
      assert zeroed[j] > 0.0 && again[j] > 0.0;
      assert again[i] == 0.0;
    } else {
      assert AllZero(again);
    }
  }

  // ---------------------------------------------------------------- one region's score

  function EffectiveWeight(n: NodeRow): real { if n.weight <= 0.0 then 1.0 else n.weight }

  function WeightSum(nodes: seq<NodeRow>): real {
    if nodes == [] then 0.0 else WeightSum(nodes[..|nodes| - 1]) + EffectiveWeight(nodes[|nodes| - 1])
  }

  function ScoreSum(nodes: seq<NodeRow>): real {
    if nodes == [] then 0.0
    else ScoreSum(nodes[..|nodes| - 1]) + nodes[|nodes| - 1].score * EffectiveWeight(nodes[|nodes| - 1])
  }

  function Rank(l: Label): nat {
    match l
    case Known(OwnWindow) => 3
    case Known(NeighborMedian) => 2
    case Known(HistoricalDaily) => 1
    case _ => 0
  }

  function Dominant(ls: seq<Label>): Label {
    if ls == [] then Known(Scorer.ConservativeDefault)
    else if |ls| == 1 then ls[0]
    else
      var worst, last := Dominant(ls[..|ls| - 1]), ls[|ls| - 1];
      if last.Known? && Rank(last) < Rank(worst) then last else worst
  }

  function Labels(nodes: seq<NodeRow>): seq<Label> {
    seq(|nodes|, i requires 0 <= i < |nodes| => nodes[i].provenance)
  }

  // The dominant label is one of the labels, and none of the known ones is worse. Only a first
  // label of unknown text can be returned without being one of the four.
  lemma {:induction false} DominantIsWorst(ls: seq<Label>)
    requires ls != []
    ensures Dominant(ls) in ls
    ensures forall i :: 0 <= i < |ls| && ls[i].Known? ==> Rank(Dominant(ls)) <= Rank(ls[i])
    ensures Dominant(ls).Unknown? ==> Dominant(ls) == ls[0]
  {
    if |ls| > 1 { DominantIsWorst(ls[..|ls| - 1]); }
  }

  method DominantProvenance(ls: seq<Label>) returns (worst: Label)
    ensures worst == Dominant(ls)
  {
    if ls == [] { return Known(Scorer.ConservativeDefault); }
    worst := ls[0];
    for i := 1 to |ls|
      invariant worst == Dominant(ls[..i])
    {
      assert ls[..i + 1][..i] == ls[..i];
      if ls[i].Known? && Rank(ls[i]) < Rank(worst) { worst := ls[i]; }
    }
    assert ls[..|ls|] == ls;
  }

  lemma {:induction false} WeightSumPositive(nodes: seq<NodeRow>)
    ensures WeightSum(nodes) >= 0.0 && (nodes != [] ==> WeightSum(nodes) > 0.0)
  {
    if nodes != [] { WeightSumPositive(nodes[..|nodes| - 1]); }
  }

  function RegionScore(nodes: seq<NodeRow>): real {
    if nodes == [] then Scorer.DEFAULTS.conservativeScore
    else WeightSumPositive(nodes); ScoreSum(nodes) / WeightSum(nodes)
  }

  // The replaced weights make the divisor positive, so the fallback for a zero divisor is dead.
  method AggregateRegionDialScore(nodes: seq<NodeRow>) returns (score: real, provenance: Label, ok: bool)
    ensures score == RegionScore(nodes) && provenance == Dominant(Labels(nodes)) && ok == (nodes != [])
  {
    if nodes == [] { return Scorer.DEFAULTS.conservativeScore, Known(Scorer.ConservativeDefault), false; }
    var scoreSum, weightSum, labels := 0.0, 0.0, [];
    for i := 0 to |nodes|
      invariant scoreSum == ScoreSum(nodes[..i]) && weightSum == WeightSum(nodes[..i]) && labels == Labels(nodes[..i])
    {
      assert nodes[..i + 1][..i] == nodes[..i];
      var w := nodes[i].weight;
      if w <= 0.0 { w := 1.0; }
      scoreSum, weightSum := scoreSum + nodes[i].score * w, weightSum + w;
      labels := labels + [nodes[i].provenance];
    }
    assert nodes[..|nodes|] == nodes;
    WeightSumPositive(nodes);
    provenance := DominantProvenance(labels);
    return scoreSum / weightSum, provenance, true;
  }

  lemma {:induction false} ScoreSumAtLeast(nodes: seq<NodeRow>, lo: real)
    requires forall i :: 0 <= i < |nodes| ==> lo <= nodes[i].score
    ensures ScoreSum(nodes) >= lo * WeightSum(nodes)
  {
    if nodes != [] {
      var rest, n := nodes[..|nodes| - 1], nodes[|nodes| - 1];
      ScoreSumAtLeast(rest, lo);
      BoundStep(WeightSum(rest), EffectiveWeight(n), lo, n.score, WeightSum(nodes));
    }
  }

  lemma {:induction false} ScoreSumAtMost(nodes: seq<NodeRow>, hi: real)
    requires forall i :: 0 <= i < |nodes| ==> nodes[i].score <= hi
    ensures ScoreSum(nodes) <= hi * WeightSum(nodes)
  {
    if nodes != [] {
      var rest, n := nodes[..|nodes| - 1], nodes[|nodes| - 1];
      ScoreSumAtMost(rest, hi);
      BoundStep(WeightSum(rest), EffectiveWeight(n), n.score, hi, WeightSum(nodes));
    }
  }

  lemma BoundStep(v: real, w: real, x: real, y: real, sum: real)
    requires x <= y && w > 0.0 && sum == v + w
    ensures x * w <= y * w && x * sum == x * v + x * w && y * sum == y * v + y * w
  {
    Scorer.ProductSign(y - x, w);
  }

  // A region's score lies between the lowest and the highest score of its nodes.
  lemma ScoreWithinNodes(nodes: seq<NodeRow>, lo: real, hi: real)
    requires nodes != [] && forall i :: 0 <= i < |nodes| ==> lo <= nodes[i].score <= hi
    ensures lo <= RegionScore(nodes) <= hi
  {
    ScoreSumAtLeast(nodes, lo);
    ScoreSumAtMost(nodes, hi);
    WeightSumPositive(nodes);
    Scorer.QuotientWithin(ScoreSum(nodes), WeightSum(nodes), lo, hi);
  }

  // ---------------------------------------------------------------- the dial

  ghost predicate SortedByRegion(s: seq<DialInput>) {
    forall i, j :: 0 <= i < j < |s| ==> s[i].region <= s[j].region
  }

  // Sorting in place, by insertion.
  method SortByRegion(a: array<DialInput>)
    modifies a
    ensures SortedByRegion(a[..]) && multiset(a[..]) == multiset(old(a[..]))
  {
    for i := 0 to a.Length
      invariant SortedByRegion(a[..i]) && multiset(a[..]) == multiset(old(a[..]))
    {
      Sink(a, i);
    }
    assert a[..a.Length] == a[..];
  }

  method Sink(a: array<DialInput>, i: nat)
    requires i < a.Length && SortedByRegion(a[..i])
    modifies a
    ensures SortedByRegion(a[..i + 1]) && multiset(a[..]) == multiset(old(a[..]))
  {
    var j := i;
    while j > 0 && a[j].region < a[j - 1].region
      invariant 0 <= j <= i
      invariant forall p, q :: 0 <= p < q <= i && q != j ==> a[p].region <= a[q].region
      invariant multiset(a[..]) == multiset(old(a[..]))
    {
      SwapDown(a, j);
      j := j - 1;
    }
  }

  method SwapDown(a: array<DialInput>, j: nat)
    requires 0 < j < a.Length
    modifies a
    ensures a[j - 1] == old(a[j]) && a[j] == old(a[j - 1])
    ensures forall k :: 0 <= k < a.Length && k != j && k != j - 1 ==> a[k] == old(a[k])
    ensures multiset(a[..]) == multiset(old(a[..]))
  {
    a[j - 1], a[j] := a[j], a[j - 1];
  }

  function DialObservation(score: real, c: Scorer.Config): Scorer.Observation {
    Scorer.Observation((c.windowMin + 1) as real * 60.0, [Scorer.BucketPoint(0.0, score, c.minSamples, 0.0, 0.0)],
                       Scorer.Utilization, 0, [], None)
  }

  // A region's row before the shares are known: its weight is the one the hysteresis gives it.
  function Scored(r: DialInput, n: nat, c: Scorer.Config): DialResult
    requires n > 0
  {
    var prev := if r.prevWeight <= 0.0 then 1.0 / n as real else r.prevWeight;
    var score := RegionScore(r.nodes);
    var w := Scorer.ScoreNode(Scorer.NodeState(prev, r.ema, r.drain), DialObservation(score, c), c).next;
    DialResult(r.region, score, w.weight, Dominant(Labels(r.nodes)), w.ema, w.drain)
  }

  function ScoredAll(s: seq<DialInput>, c: Scorer.Config): seq<DialResult> {
    seq(|s|, i requires 0 <= i < |s| => Scored(s[i], |s|, c))
  }

  function Shares(rows: seq<DialResult>): seq<real> {
    seq(|rows|, i requires 0 <= i < |rows| => rows[i].weight)
  }

  function WithShares(rows: seq<DialResult>, shares: seq<real>): seq<DialResult>
    requires |rows| == |shares|
  {
    seq(|rows|, i requires 0 <= i < |rows| => rows[i].(weight := shares[i]))
  }

  // The result for regions already in order.
  function DialResults(s: seq<DialInput>, c: Scorer.Config): seq<DialResult> {
    var rows := ScoredAll(s, c);
    WithShares(rows, Normalized(Shares(rows), c.weightMin, c.weightMax))
  }

  method ScoreRegion(r: DialInput, n: nat, c: Scorer.Config) returns (row: DialResult)
    requires n > 0
    ensures row == Scored(r, n, c)
  {
    var score, provenance, _ := AggregateRegionDialScore(r.nodes);
    var prev := if r.prevWeight <= 0.0 then 1.0 / n as real else r.prevWeight;
    var w := Scorer.ScoreNode(Scorer.NodeState(prev, r.ema, r.drain), DialObservation(score, c), c).next;
    row := DialResult(r.region, score, w.weight, provenance, w.ema, w.drain);
  }

  method ScoreRegions(inputs: array<DialInput>, c: Scorer.Config) returns (rows: seq<DialResult>, raw: seq<real>)
    ensures rows == ScoredAll(inputs[..], c) && raw == Shares(rows)
  {
    rows, raw := [], [];
    for i := 0 to inputs.Length
      invariant |rows| == i && raw == Shares(rows)
      invariant forall j :: 0 <= j < i ==> rows[j] == Scored(inputs[j], inputs.Length, c)
    {
      var row := ScoreRegion(inputs[i], inputs.Length, c);
      rows, raw := rows + [row], raw + [row.weight];
    }
  }

  method ComputeRegionDialResults(inputs: array<DialInput>, c: Scorer.Config) returns (out: seq<DialResult>)
    modifies inputs
    ensures SortedByRegion(inputs[..]) && multiset(inputs[..]) == multiset(old(inputs[..]))
    ensures out == DialResults(inputs[..], c)
  {
    SortByRegion(inputs);
    var rows, raw := ScoreRegions(inputs, c);
    var shares := NormalizePeerWeights(raw, c.weightMin, c.weightMax);
    out := [];
    for i := 0 to inputs.Length
      invariant |out| == i && forall j :: 0 <= j < i ==> out[j] == rows[j].(weight := shares[j])
    {
      out := out + [rows[i].(weight := shares[i])];
    }
    assert out == WithShares(rows, shares[..]);
  }

  lemma ScoredPositive(r: DialInput, n: nat, c: Scorer.Config)
    requires n > 0 && Scorer.ValidConfig(c)
    ensures Scored(r, n, c).weight > 0.0
  {
  }

  // The dial of any non-empty set of regions: the shares sum to one, every region keeps a share
  // no smaller than the floor, a region the hysteresis weighs more never gets less, and there is
  // one result per region, in region order.
  lemma DialLaws(s: seq<DialInput>, c: Scorer.Config)
    requires s != [] && SortedByRegion(s) && Scorer.ValidConfig(c)
    ensures var out := DialResults(s, c);
            && Sum(Shares(out)) == 1.0
            && (forall i :: 0 <= i < |out| ==> out[i].weight >= Floor(|s|, c.weightMin, c.weightMax) && out[i].weight > 0.0)
            && |out| == |s| && (forall i :: 0 <= i < |s| ==> out[i].region == s[i].region)
            && (forall i, j :: 0 <= i < j < |out| ==> out[i].region <= out[j].region)
            && (forall i, j :: 0 <= i < |s| && 0 <= j < |s| && Scored(s[i], |s|, c).weight <= Scored(s[j], |s|, c).weight ==>
                  out[i].weight <= out[j].weight)
  {
    var raw := Shares(ScoredAll(s, c));
    forall i | 0 <= i < |s| ensures raw[i] > 0.0 { ScoredPositive(s[i], |s|, c); }
    SharesOfPositive(raw, c.weightMin, c.weightMax);
    var shares := Normalized(raw, c.weightMin, c.weightMax);
    assert Shares(DialResults(s, c)) == shares;
    forall i, j | 0 <= i < |s| && 0 <= j < |s| && raw[i] <= raw[j] ensures shares[i] <= shares[j] {
      ShareOrder(raw, c.weightMin, c.weightMax, i, j);
    }
  }

  lemma SharesOfPositive(raw: seq<real>, lo: real, hi: real)
    requires raw != [] && 0.0 < lo <= hi && forall i :: 0 <= i < |raw| ==> raw[i] > 0.0
    ensures var r := Normalized(raw, lo, hi);
            && |r| == |raw| && Sum(r) == 1.0 && forall i :: 0 <= i < |r| ==> r[i] >= Floor(|raw|, lo, hi) && r[i] > 0.0
  {
    assert !AllZero(raw) by { assert raw[0] > 0.0; }
    ShareLaws(raw, lo, hi);
    forall i | 0 <= i < |raw| ensures Normalized(raw, lo, hi)[i] >= Floor(|raw|, lo, hi) { ShareFloor(raw, lo, hi, i); }
  }

  ghost predicate DistinctRegions(s: seq<DialInput>) {
    forall i, j :: 0 <= i < j < |s| ==> s[i].region != s[j].region
  }

  lemma FirstAgrees(a: seq<DialInput>, b: seq<DialInput>)
    requires SortedByRegion(a) && SortedByRegion(b) && DistinctRegions(a) && multiset(a) == multiset(b) && a != []
    ensures b != [] && a[0] == b[0]
  {
    assert a[0] in multiset(b);
    assert a[0] in b;
    assert b[0] in multiset(a);
    var j :| 0 <= j < |a| && a[j] == b[0];
    var i :| 0 <= i < |b| && b[i] == a[0];
  }

  lemma TailMultiset(a: seq<DialInput>)
    requires a != []
    ensures multiset(a[1..]) == multiset(a) - multiset{a[0]}
  {
    assert a == [a[0]] + a[1..];
  }

  // Distinct regions have one sorted order only, so the dial does not depend on the order in
  // which they were listed.
  lemma {:induction false} SortedOrderIsUnique(a: seq<DialInput>, b: seq<DialInput>)
    requires SortedByRegion(a) && SortedByRegion(b) && DistinctRegions(a) && multiset(a) == multiset(b)
    ensures a == b
  {
    if a == [] {
      assert |multiset(b)| == |b|;
    } else {
      FirstAgrees(a, b);
      TailMultiset(a);
      TailMultiset(b);
      SortedOrderIsUnique(a[1..], b[1..]);
      assert a == [a[0]] + a[1..] && b == [b[0]] + b[1..];
    }
  }
}
