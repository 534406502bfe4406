/**
 The fraud policy applied on top of the model's probability: row signals, probability adjustment,
 tiers, and the vectorised scorer used by calibration. float64 is modelled by real numbers.
 */
module ScoringPolicy {
  datatype Row = Row(events: nat, clicks: nat, users: nat, uas: nat, spend: int, budget: int)

  datatype Tiers = Tiers(pass: int, suspect: int, ivt: int, block: int)

  // The four values calibration searches over.
  datatype Tuning = Tuning(mlThreshold: real, proxyFloor: real, proxyMaxMl: real, fpCap: real)

  datatype ProxyLimits = ProxyLimits(
    minEvents: real, maxCtr: real, minUsers: real, minUserClickGap: real, minEventsPerUser: real,
    minImpressionPressure: real, minUsersPerUa: real, minClicks: real)

  datatype StructuralLimits = StructuralLimits(
    highCtr: real, maxUsers: real, minEvents: real, minEventsPerUa: real, minClicksPerUser: real,
    spendRatio: real, spendMinCtr: real)

  datatype Config = Config(tiers: Tiers, tuning: Tuning, proxy: ProxyLimits, structural: StructuralLimits)

  const DEFAULT := Config(
    Tiers(30, 60, 80, 100),
    Tuning(0.50, 0.62, 0.45, 0.79),
    ProxyLimits(80.0, 0.05, 20.0, 5.0, 5.0, 12.0, 2.5, 2.0),
    StructuralLimits(0.45, 5.0, 50.0, 80.0, 15.0, 0.9, 0.4))

  datatype Tier = Pass | Suspect | Ivt | Block

  datatype Decision = Decision(tier: Tier, score: int, adjusted: real, proxyHit: bool, structuralHit: bool, guarded: bool)

  // ---------------------------------------------------------------- row signals

  function Ratio(x: int, y: int): real { if y > 0 then x as real / y as real else 0.0 }

  predicate ProxySignal(r: Row, l: ProxyLimits) {
    && r.events as real >= l.minEvents
    && Ratio(r.clicks, r.events) <= l.maxCtr
    && r.users as real >= l.minUsers
    && Ratio(r.users, r.clicks + 1) >= l.minUserClickGap
    && Ratio(r.events, r.users) >= l.minEventsPerUser
    && Ratio(r.events, r.clicks + 1) >= l.minImpressionPressure
    && Ratio(r.users, r.uas) >= l.minUsersPerUa
    && r.clicks as real >= l.minClicks
  }

  predicate StructuralSignal(r: Row, l: StructuralLimits) {
    || (Ratio(r.clicks, r.events) > l.highCtr && r.users as real <= l.maxUsers)
    || (r.uas <= 1 && r.events as real >= l.minEvents)
    || Ratio(r.events, r.uas) >= l.minEventsPerUa
    || Ratio(r.clicks, r.users) >= l.minClicksPerUser
    || (Ratio(r.spend, r.budget) > l.spendRatio && Ratio(r.clicks, r.events) > l.spendMinCtr)
  }

  // ---------------------------------------------------------------- the decision for one row

  function ToScore(p: real): int {
    var bounded := if p < 0.0 then 0.0 else if p > 1.0 then 1.0 else p;
    (bounded * 100.0 + 0.5).Floor
  }

  function ToTier(score: int, t: Tiers): Tier {
    if score <= t.pass then Pass
    else if score <= t.suspect then Suspect
    else if score <= t.ivt then Ivt
    else Block
  }

  function BlockProbability(t: Tiers): real {
    if 0 < t.block < 100 then t.block as real / 100.0
    else if t.ivt > 0 then t.ivt as real / 100.0
    else 0.80
  }

  function Boosted(p: real, proxyHit: bool, t: Tuning): real {
    if proxyHit && p < t.proxyMaxMl && p < t.proxyFloor then t.proxyFloor else p
  }

  predicate Guarded(p: real, proxyHit: bool, structuralHit: bool, blockProb: real) {
    p >= blockProb && !structuralHit && !proxyHit
  }

  function Adjusted(p: real, proxyHit: bool, structuralHit: bool, t: Tuning, blockProb: real): real {
    var b := Boosted(p, proxyHit, t);
    if Guarded(b, proxyHit, structuralHit, blockProb) then t.fpCap else b
  }

  function Decide(r: Row, p: real, c: Config): Decision {
    var proxyHit, structuralHit := ProxySignal(r, c.proxy), StructuralSignal(r, c.structural);
    var blockProb := BlockProbability(c.tiers);
    var adjusted := Adjusted(p, proxyHit, structuralHit, c.tuning, blockProb);
    Decision(ToTier(ToScore(adjusted), c.tiers), ToScore(adjusted), adjusted, proxyHit, structuralHit,
             Guarded(Boosted(p, proxyHit, c.tuning), proxyHit, structuralHit, blockProb))
  }

  predicate FraudPositive(d: Decision, blockOnly: bool) {
    d.tier == Block || (!blockOnly && d.tier != Pass)
  }

  // ---------------------------------------------------------------- the signals without division

  // x / y >= k and x / y <= k, where a ratio over nothing counts as zero.
  predicate AtLeast(x: int, y: int, k: real) { if y <= 0 then k <= 0.0 else k * y as real <= x as real }
  predicate AtMost(x: int, y: int, k: real) { if y <= 0 then 0.0 <= k else x as real <= k * y as real }

  lemma RatioBounds(x: int, y: int, k: real)
    ensures Ratio(x, y) >= k <==> AtLeast(x, y, k)
    ensures Ratio(x, y) <= k <==> AtMost(x, y, k)
  {
    if y > 0 {
      var q, n := x as real / y as real, y as real;
      assert q * n == x as real;
      if q >= k { ProductGrows(q, k, n); } else { ProductGrows(k, q, n); }
      if q > k { assert (q - k) * n > 0.0; } else if q < k { assert (k - q) * n > 0.0; }
    }
  }

  lemma ProductGrows(x: real, y: real, n: real)
    requires x >= y && n > 0.0
    ensures x * n >= y * n
  {
    assert (x - y) * n >= 0.0;
  }

  // The signals for any limits, as inequalities between products.
  lemma ProxySignalIff(r: Row, l: ProxyLimits)
    ensures ProxySignal(r, l) <==>
              && l.minEvents <= r.events as real && l.minUsers <= r.users as real && l.minClicks <= r.clicks as real
              && AtMost(r.clicks, r.events, l.maxCtr) && AtLeast(r.events, r.users, l.minEventsPerUser)
              && l.minUserClickGap * (r.clicks + 1) as real <= r.users as real
              && l.minImpressionPressure * (r.clicks + 1) as real <= r.events as real
              && AtLeast(r.users, r.uas, l.minUsersPerUa)
  {
    RatioBounds(r.clicks, r.events, l.maxCtr);
    RatioBounds(r.users, r.clicks + 1, l.minUserClickGap);
    RatioBounds(r.events, r.users, l.minEventsPerUser);
    RatioBounds(r.events, r.clicks + 1, l.minImpressionPressure);
    RatioBounds(r.users, r.uas, l.minUsersPerUa);
  }

  lemma StructuralSignalIff(r: Row, l: StructuralLimits)
    ensures StructuralSignal(r, l) <==>
              || (!AtMost(r.clicks, r.events, l.highCtr) && r.users as real <= l.maxUsers)
              || (r.uas < 2 && l.minEvents <= r.events as real)
              || AtLeast(r.events, r.uas, l.minEventsPerUa) || AtLeast(r.clicks, r.users, l.minClicksPerUser)
              || (!AtMost(r.spend, r.budget, l.spendRatio) && !AtMost(r.clicks, r.events, l.spendMinCtr))
  {
    RatioBounds(r.clicks, r.events, l.highCtr);
    RatioBounds(r.events, r.uas, l.minEventsPerUa);
    RatioBounds(r.clicks, r.users, l.minClicksPerUser);
    RatioBounds(r.spend, r.budget, l.spendRatio);
    RatioBounds(r.clicks, r.events, l.spendMinCtr);
  }

  // The shipped limits, in whole numbers.
  lemma ShippedProxySignalIff(r: Row)
    ensures ProxySignal(r, DEFAULT.proxy) <==>
              && r.events >= 80 && r.users >= 20 && r.clicks >= 2
              && 20 * r.clicks <= r.events && r.events >= 5 * r.users
              && r.users >= 5 * (r.clicks + 1) && r.events >= 12 * (r.clicks + 1)
              && r.uas > 0 && 2 * r.users >= 5 * r.uas
  {
    ProxySignalIff(r, DEFAULT.proxy);
  }

  lemma ShippedStructuralSignalIff(r: Row)
    ensures StructuralSignal(r, DEFAULT.structural) <==>
              || (20 * r.clicks > 9 * r.events && r.events > 0 && r.users <= 5)
              || (r.uas <= 1 && r.events >= 50)
              || (r.uas > 0 && r.events >= 80 * r.uas)
              || (r.users > 0 && r.clicks >= 15 * r.users)
              || (r.budget > 0 && 10 * r.spend > 9 * r.budget && r.events > 0 && 5 * r.clicks > 2 * r.events)
  {
    StructuralSignalIff(r, DEFAULT.structural);
  }

  // Under the shipped limits a proxy row has a structural signal too if and only if it has a single
  // user agent or at least 80 events for each; no click rate and no spend can give it one.
  lemma ShippedSignalsOverlapIff(r: Row)
    requires ProxySignal(r, DEFAULT.proxy)
    ensures StructuralSignal(r, DEFAULT.structural) <==> r.uas == 1 || r.events >= 80 * r.uas
  {
    ProxySignalIff(r, DEFAULT.proxy);
    StructuralSignalIff(r, DEFAULT.structural);
  }

  // ---------------------------------------------------------------- scores and adjustment

  lemma ScoreRange(p: real)
    ensures 0 <= ToScore(p) <= 100
  {
  }

  // The score is the nearest whole percent, a half rounds up, and probabilities are clipped.
  lemma ScoreIsNearestPercent(p: real)
    ensures 0.0 <= p <= 1.0 ==> -0.5 < ToScore(p) as real - 100.0 * p <= 0.5
    ensures p <= 0.0 ==> ToScore(p) == 0
    ensures p >= 1.0 ==> ToScore(p) == 100
  {
  }

  // Every score is reached.
  lemma ScoreReached(s: int)
    requires 0 <= s <= 100
    ensures ToScore(s as real / 100.0) == s
  {
    assert s as real / 100.0 * 100.0 == s as real;
  }

  // What becomes of a probability, by the signals of its row: a proxy row is raised to the floor
  // unless the model is already sure, a structural one is left alone, and a row without a signal
  // is capped from the block probability on.
  lemma AdjustedBySignal(r: Row, p: real, c: Config)
    ensures var d := Decide(r, p, c);
            && d.adjusted == (if ProxySignal(r, c.proxy) then (if p >= c.tuning.proxyMaxMl || p >= c.tuning.proxyFloor then p else c.tuning.proxyFloor)
                              else if StructuralSignal(r, c.structural) || p < BlockProbability(c.tiers) then p else c.tuning.fpCap)
            && d.score == ToScore(d.adjusted) && d.tier == ToTier(d.score, c.tiers)
            && d.proxyHit == ProxySignal(r, c.proxy) && d.structuralHit == StructuralSignal(r, c.structural)
            && (d.guarded <==> Plain(r, c) && p >= BlockProbability(c.tiers))
  {
  }

  // ---------------------------------------------------------------- exact conditions

  // The thresholds calibration compares scores with mean the tiers: above the pass threshold is
  // any tier but pass, always. Above the ivt threshold is the block tier for every probability if
  // and only if no score lies above the ivt threshold without also passing the two below it.
  lemma SuspectMeansNotPass(score: int, t: Tiers)
    ensures score > t.pass <==> ToTier(score, t) != Pass
  {
  }

  predicate TiersMisordered(t: Tiers) {
    var highest := if t.pass > t.suspect then t.pass else t.suspect;
    t.ivt < 100 && t.ivt < highest && 0 <= highest
  }

  lemma BlockThresholdMeansBlockIff(t: Tiers)
    ensures (forall p :: ToScore(p) > t.ivt <==> ToTier(ToScore(p), t) == Block) <==> !TiersMisordered(t)
  {
    if TiersMisordered(t) {
      var highest := if t.pass > t.suspect then t.pass else t.suspect;
      var s := if highest < 100 then highest else 100;
      ScoreReached(s);
      var p := s as real / 100.0;
      assert ToScore(p) > t.ivt && ToTier(ToScore(p), t) != Block;
    } else {
      forall p ensures ToScore(p) > t.ivt <==> ToTier(ToScore(p), t) == Block { ScoreRange(p); }
    }
  }

  // What calibration counts as acted on, in scores: any row above the pass threshold, and for
  // blocks any row above all three.
  lemma FraudPositiveIff(r: Row, p: real, c: Config)
    ensures var d := Decide(r, p, c);
            && (FraudPositive(d, false) <==> d.score > c.tiers.pass)
            && (FraudPositive(d, true) <==> d.score > c.tiers.pass && d.score > c.tiers.suspect && d.score > c.tiers.ivt)
  {
  }

  predicate Plain(r: Row, c: Config) {
    !ProxySignal(r, c.proxy) && !StructuralSignal(r, c.structural)
  }

  // The block threshold of the tiers, when it is one, else the ivt threshold.
  predicate BlocksAt(t: Tiers, percent: int) {
    if 0 < t.block < 100 then percent == t.block else if t.ivt > 0 then percent == t.ivt else percent == 80
  }

  lemma JustBelow(percent: int) returns (p: real)
    requires 0 < percent <= 100
    ensures p < percent as real / 100.0 && ToScore(p) == percent
  {
    p := (percent as real - 0.25) / 100.0;
    assert p * 100.0 == percent as real - 0.25;
    assert percent as real / 100.0 * 100.0 == percent as real;
  }

  lemma BelowStaysBelow(p: real, percent: int)
    requires 0 < percent <= 100 && p < percent as real / 100.0
    ensures ToScore(p) <= percent
  {
    assert percent as real / 100.0 * 100.0 == percent as real;
  }

  // The false-positive guard keeps every row without a signal out of the block tier, whatever its
  // probability, if and only if nothing is blocked at all, or its cap rounds to no more than the
  // ivt threshold and the guard begins at or below that threshold.
  lemma GuardKeepsPlainRowsUnblockedIff(c: Config, r: Row, begins: int)
    requires c.tiers.pass <= c.tiers.suspect <= c.tiers.ivt && BlocksAt(c.tiers, begins) && Plain(r, c)
    ensures (forall p :: Decide(r, p, c).tier != Block) <==>
              c.tiers.ivt >= 100 || (begins <= c.tiers.ivt && c.tuning.fpCap < (c.tiers.ivt as real + 0.5) / 100.0)
  {
    var ivt, cap := c.tiers.ivt, c.tuning.fpCap;
    BlockProbabilityIs(c.tiers, begins);
    if ivt >= 100 {
      forall p ensures Decide(r, p, c).tier != Block { ScoreRange(Decide(r, p, c).adjusted); }
    } else if begins > ivt {
      if begins <= 100 {
        var p := JustBelow(begins);
        assert Decide(r, p, c).tier == Block;
      }
    } else {
      CapScore(cap, ivt);
      if ToScore(cap) > ivt {
        assert Decide(r, begins as real / 100.0, c).tier == Block;
      } else {
        forall p ensures Decide(r, p, c).tier != Block {
          if p < begins as real / 100.0 { BelowStaysBelow(p, begins); }
        }
      }
    }
  }

  lemma BlockProbabilityIs(t: Tiers, begins: int)
    requires BlocksAt(t, begins)
    ensures BlockProbability(t) == begins as real / 100.0
  {
  }

  lemma CapScore(cap: real, ivt: int)
    requires 0 < ivt < 100
    ensures ToScore(cap) <= ivt <==> cap < (ivt as real + 0.5) / 100.0
  {
    var bound := (ivt as real + 0.5) / 100.0;
    assert bound * 100.0 == ivt as real + 0.5;
  }

  // With the shipped tiers that is a cap below 0.805. The calibration grid offers 0.81.
  lemma ShippedGuardIff(c: Config, r: Row)
    requires c.tiers == DEFAULT.tiers && Plain(r, c)
    ensures (forall p :: Decide(r, p, c).tier != Block) <==> c.tuning.fpCap < 0.805
  {
    GuardKeepsPlainRowsUnblockedIff(c, r, 80);
  }

  // ---------------------------------------------------------------- the vectorised scorer

  method PrecomputeSignals(rows: seq<Row>, c: Config) returns (proxy: array<bool>, structural: array<bool>)
    ensures proxy.Length == |rows| && structural.Length == |rows|
    ensures forall i :: 0 <= i < |rows| ==> proxy[i] == ProxySignal(rows[i], c.proxy)
    ensures forall i :: 0 <= i < |rows| ==> structural[i] == StructuralSignal(rows[i], c.structural)
  {
    proxy, structural := new bool[|rows|], new bool[|rows|];
    for i := 0 to |rows|
      invariant forall j :: 0 <= j < i ==> proxy[j] == ProxySignal(rows[j], c.proxy)
      invariant forall j :: 0 <= j < i ==> structural[j] == StructuralSignal(rows[j], c.structural)
    {
      proxy[i] := ProxySignal(rows[i], c.proxy);
      structural[i] := StructuralSignal(rows[i], c.structural);
    }
  }

  // Works on a copy of the probabilities with whole-array masks: the boost mask is taken before
  // any update, the cap mask after the boost.
  method PolicyScoresVector(probs: array<real>, proxy: array<bool>, structural: array<bool>, t: Tuning, blockProb: real)
    returns (scores: array<int>)
    requires proxy.Length == structural.Length == probs.Length
    ensures scores.Length == probs.Length
    ensures forall i :: 0 <= i < probs.Length ==>
      scores[i] == ToScore(Adjusted(probs[i], proxy[i], structural[i], t, blockProb))
  {
    var adj := new real[probs.Length];
    for i := 0 to probs.Length
      invariant forall j :: 0 <= j < i ==> adj[j] == probs[j]
    {
      adj[i] := probs[i];
    }
    Boost(adj, proxy, t);
    Cap(adj, proxy, structural, t, blockProb);
    scores := Scores(adj);
  }

  method Boost(adj: array<real>, proxy: array<bool>, t: Tuning)
    requires adj.Length == proxy.Length
    modifies adj
    ensures forall i :: 0 <= i < adj.Length ==> adj[i] == Boosted(old(adj[i]), proxy[i], t)
  {
    var mask := new bool[adj.Length];
    for i := 0 to adj.Length
      invariant forall j :: 0 <= j < adj.Length ==> adj[j] == old(adj[j])
      invariant forall j :: 0 <= j < i ==> mask[j] == (proxy[j] && adj[j] < t.proxyMaxMl)
    {
      mask[i] := proxy[i] && adj[i] < t.proxyMaxMl;
    }
    for i := 0 to adj.Length
      invariant forall j :: 0 <= j < adj.Length ==>
        adj[j] == if j < i then Boosted(old(adj[j]), proxy[j], t) else old(adj[j])
      modifies adj
    {
      if mask[i] && adj[i] < t.proxyFloor { adj[i] := t.proxyFloor; }
    }
  }

  method Cap(adj: array<real>, proxy: array<bool>, structural: array<bool>, t: Tuning, blockProb: real)
    requires adj.Length == proxy.Length == structural.Length
    modifies adj
    ensures forall i :: 0 <= i < adj.Length ==>
      adj[i] == if Guarded(old(adj[i]), proxy[i], structural[i], blockProb) then t.fpCap else old(adj[i])
  {
    var mask := new bool[adj.Length];
    for i := 0 to adj.Length
      invariant forall j :: 0 <= j < adj.Length ==> adj[j] == old(adj[j])
      invariant forall j :: 0 <= j < i ==> mask[j] == Guarded(adj[j], proxy[j], structural[j], blockProb)
    {
      mask[i] := adj[i] >= blockProb && !structural[i] && !proxy[i];
    }
    for i := 0 to adj.Length
      invariant forall j :: 0 <= j < adj.Length ==> adj[j] == if j < i && mask[j] then t.fpCap else old(adj[j])
      modifies adj
    {
      if mask[i] { adj[i] := t.fpCap; }
    }
  }

  method Scores(adj: array<real>) returns (scores: array<int>)
    ensures scores.Length == adj.Length && forall i :: 0 <= i < adj.Length ==> scores[i] == ToScore(adj[i])
  {
    scores := new int[adj.Length];
    for i := 0 to adj.Length
      invariant forall j :: 0 <= j < i ==> scores[j] == ToScore(adj[j])
    {
      scores[i] := ToScore(adj[i]);
    }
  }
}
