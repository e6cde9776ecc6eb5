/** The height-to-texture classification of `RecolorMap`: a fixed ladder of
    four threshold rules, each overwriting some of the texture weights of one
    splatmap cell, followed by a division of every weight by their sum.
    Layer 0 is grass, layer 1 mountain, layer 2 water; a splatmap with more
    layers keeps weight 0 on the extra ones. */
module SplatWeights {

  /** Number of texture layers the rule ladder writes to. */
  const RequiredLayers: nat := 3

  /** `Enumerable.Sum`: the weights added from first to last. */
  function Sum(s: seq<real>): (total: real)
  {
    if s == [] then 0.0 else Sum(s[..|s| - 1]) + s[|s| - 1]
  }

  /** Every weight divided by `z`. */
  function Divided(s: seq<real>, z: real): (r: seq<real>)
    requires z != 0.0
    ensures |r| == |s|
  {
    seq(|s|, i requires 0 <= i < |s| => s[i] / z)
  }

  /** Dividing every weight by `z` divides their sum by `z`. */
  lemma {:induction false} SumDivided(s: seq<real>, z: real)
    requires z != 0.0
    ensures Sum(Divided(s, z)) == Sum(s) / z
  {
    if s != [] {
      var n := |s| - 1;
      assert Divided(s, z)[..n] == Divided(s[..n], z);
      SumDivided(s[..n], z);
      assert Sum(s[..n]) / z + s[n] / z == (Sum(s[..n]) + s[n]) / z;
    }
  }

  /** Normalisation of a weight vector with a nonzero sum: each weight
      divided by the sum of all of them. */
  function Normalize(w: seq<real>): (r: seq<real>)
    requires Sum(w) != 0.0
    ensures |r| == |w|
  {
    Divided(w, Sum(w))
  }

  /** Normalised weights add up to 1. */
  lemma NormalizeSumsToOne(w: seq<real>)
    requires Sum(w) != 0.0
    ensures Sum(Normalize(w)) == 1.0
  {
    SumDivided(w, Sum(w));
    DivideBySelf(Sum(w));
  }

  /** A nonzero number divided by itself is 1. */
  lemma DivideBySelf(z: real)
    requires z != 0.0
    ensures z / z == 1.0
  {
  }

  /** A weight vector that is zero beyond its first three layers sums to its
      first three weights. */
  lemma {:induction false} SumOfLeadingLayers(w: seq<real>)
    requires |w| >= RequiredLayers
    requires forall i :: RequiredLayers <= i < |w| ==> w[i] == 0.0
    ensures Sum(w) == w[0] + w[1] + w[2]
  {
    var n := |w| - 1;
    if |w| == RequiredLayers {
      assert w[..2][..1] == w[..1] && w[..1][..0] == [];
      assert Sum(w[..1]) == w[0];
      assert Sum(w[..2]) == w[0] + w[1];
    } else {
      SumOfLeadingLayers(w[..n]);
    }
  }

  /** The breakpoint of rule `rule` (1 to 4) of the ladder: a fraction of the
      terrain depth. */
  function Threshold(rule: nat, depth: real): (t: real)
    requires 1 <= rule <= 4
    ensures depth > 0.0 && rule > 1 ==> t > Threshold(rule - 1, depth)
  {
    match rule
    case 1 => depth * 0.15
    case 2 => depth * 0.25
    case 3 => depth * 0.6
    case _ => depth * 0.7
  }

  /** The weights of a fresh cell before any rule fires: a zeroed array of
      `layers` weights with grass and mountain set to 0 and water to 0.5. */
  function InitialWeights(layers: nat): (w: seq<real>)
    requires layers >= RequiredLayers
    ensures |w| == layers
    ensures w[..RequiredLayers] == RuleVector(0)
    ensures forall i :: RequiredLayers <= i < layers ==> w[i] == 0.0
  {
    seq(layers, _ => 0.0)[0 := 0.0][1 := 0.0][2 := 0.5]
  }

  /** The weights rule `rule` (1 to 4) writes, over the ones before it. */
  function Overwrite(rule: nat, w: seq<real>): (r: seq<real>)
    requires 1 <= rule <= 4 && |w| >= RequiredLayers
    ensures |r| == |w|
    ensures forall i :: RequiredLayers <= i < |w| ==> r[i] == w[i]
  {
    match rule
    // shoreline: grass and water share the cell
    case 1 => w[2 := 0.25][0 := 0.25]
    // lowland: grass only
    case 2 => w[2 := 0.0][0 := 0.5]
    // foothills: mountain with some grass
    case 3 => w[2 := 0.0][0 := 0.25][1 := 0.5]
    // peaks: mountain only
    case _ => w[2 := 0.0][0 := 0.0][1 := 0.5]
  }

  /** One rung of the ladder: rule `rule` overwrites the weights when the
      scaled height strictly exceeds its breakpoint, and leaves them alone
      otherwise. */
  function Step(rule: nat, w: seq<real>, h: real, depth: real): (r: seq<real>)
    requires 1 <= rule <= 4 && |w| >= RequiredLayers
    ensures |r| == |w|
    ensures forall i :: RequiredLayers <= i < |w| ==> r[i] == w[i]
  {
    if h > Threshold(rule, depth) then Overwrite(rule, w) else w
  }

  /** The weights left by the rule ladder for the scaled height `h`: the four
      rules, in order, starting from the initial weights. */
  function RawWeights(h: real, depth: real, layers: nat): (w: seq<real>)
    requires layers >= RequiredLayers
    ensures |w| == layers
    ensures forall i :: RequiredLayers <= i < layers ==> w[i] == 0.0
  {
    var w1 := Step(1, InitialWeights(layers), h, depth);
    var w2 := Step(2, w1, h, depth);
    var w3 := Step(3, w2, h, depth);
    Step(4, w3, h, depth)
  }

  /** The (grass, mountain, water) weights written by rule `rule`, with rule 0
      standing for the initial weights. */
  function RuleVector(rule: nat): (v: seq<real>)
    requires rule <= 4
    ensures |v| == RequiredLayers
  {
    match rule
    case 0 => [0.0, 0.0, 0.5]
    case 1 => [0.25, 0.0, 0.25]
    case 2 => [0.5, 0.0, 0.0]
    case 3 => [0.25, 0.5, 0.0]
    case _ => [0.0, 0.5, 0.0]
  }

  /** The last rule of the ladder whose condition holds for `h`, or 0 when
      none does. */
  function LastFiringRule(h: real, depth: real): (k: nat)
    ensures k <= 4
    ensures 1 <= k ==> h > Threshold(k, depth)
    ensures forall j :: k < j <= 4 ==> h <= Threshold(j, depth)
  {
    if h > Threshold(4, depth) then 4
    else if h > Threshold(3, depth) then 3
    else if h > Threshold(2, depth) then 2
    else if h > Threshold(1, depth) then 1
    else 0
  }

  /** Overwriting, not adding: whatever the depth, the first three weights are
      exactly those written by the last rule whose condition holds. */
  lemma LastRuleWins(h: real, depth: real, layers: nat)
    requires layers >= RequiredLayers
    ensures RawWeights(h, depth, layers)[..RequiredLayers] == RuleVector(LastFiringRule(h, depth))
  {
  }

  /** For a positive depth the ladder partitions the scaled heights into five
      bands, each with its own unnormalised weights. */
  lemma RawBands(h: real, depth: real, layers: nat)
    requires layers >= RequiredLayers
    requires depth > 0.0
    ensures var w := RawWeights(h, depth, layers)[..RequiredLayers];
      && (h <= depth * 0.15 ==> w == [0.0, 0.0, 0.5])
      && (depth * 0.15 < h <= depth * 0.25 ==> w == [0.25, 0.0, 0.25])
      && (depth * 0.25 < h <= depth * 0.6 ==> w == [0.5, 0.0, 0.0])
      && (depth * 0.6 < h <= depth * 0.7 ==> w == [0.25, 0.5, 0.0])
      && (depth * 0.7 < h ==> w == [0.0, 0.5, 0.0])
  {
  }

  /** The ladder always leaves weights in {0, 0.25, 0.5} whose sum is 0.5 or
      0.75, so the sum used for normalisation is never zero. */
  lemma RawSum(h: real, depth: real, layers: nat)
    requires layers >= RequiredLayers
    ensures forall i :: 0 <= i < layers ==> 0.0 <= RawWeights(h, depth, layers)[i] <= 0.5
    ensures Sum(RawWeights(h, depth, layers)) == 0.5 || Sum(RawWeights(h, depth, layers)) == 0.75
  {
    var w := RawWeights(h, depth, layers);
    LastRuleWins(h, depth, layers);
    assert w[..RequiredLayers][0] == w[0] && w[..RequiredLayers][1] == w[1] && w[..RequiredLayers][2] == w[2];
    SumOfLeadingLayers(w);
  }

  /** The texture weights of one splatmap cell whose scaled height is `h`:
      the ladder's weights divided by their sum. They form a distribution:
      each weight is in [0, 1], they add up to 1, and layers beyond the third
      get 0. */
  function CellWeights(h: real, depth: real, layers: nat): (w: seq<real>)
    requires layers >= RequiredLayers
    ensures |w| == layers
    ensures Sum(w) == 1.0
    ensures forall i :: 0 <= i < layers ==> 0.0 <= w[i] <= 1.0
    ensures forall i :: RequiredLayers <= i < layers ==> w[i] == 0.0
  {
    var raw := RawWeights(h, depth, layers);
    RawSum(h, depth, layers);
    NormalizeSumsToOne(raw);
    var z := Sum(raw);
    assert forall i :: 0 <= i < layers ==> 0.0 <= Normalize(raw)[i] <= 1.0 by {
      forall i | 0 <= i < layers
        ensures 0.0 <= Normalize(raw)[i] <= 1.0
      {
        assert Normalize(raw)[i] == raw[i] / z;
        assert raw[i] <= 0.5 <= z;
      }
    }
    Normalize(raw)
  }

  /** A cell's weights are the ladder's weights divided by their sum, which
      is nonzero. */
  lemma CellWeightsDivideRaw(h: real, depth: real, layers: nat)
    requires layers >= RequiredLayers
    ensures Sum(RawWeights(h, depth, layers)) != 0.0
    ensures CellWeights(h, depth, layers)
         == Divided(RawWeights(h, depth, layers), Sum(RawWeights(h, depth, layers)))
  {
    RawSum(h, depth, layers);
  }

  /** For a positive depth the normalised weights of the five bands. */
  lemma NormalizedBands(h: real, depth: real, layers: nat)
    requires layers >= RequiredLayers
    requires depth > 0.0
    ensures var w := CellWeights(h, depth, layers)[..RequiredLayers];
      && (h <= depth * 0.15 ==> w == [0.0, 0.0, 1.0])
      && (depth * 0.15 < h <= depth * 0.25 ==> w == [0.5, 0.0, 0.5])
      && (depth * 0.25 < h <= depth * 0.6 ==> w == [1.0, 0.0, 0.0])
      && (depth * 0.6 < h <= depth * 0.7 ==> w == [1.0 / 3.0, 2.0 / 3.0, 0.0])
      && (depth * 0.7 < h ==> w == [0.0, 1.0, 0.0])
  {
    var raw := RawWeights(h, depth, layers);
    RawBands(h, depth, layers);
    RawSum(h, depth, layers);
    SumOfLeadingLayers(raw);
    var c := CellWeights(h, depth, layers);
    var z := Sum(raw);
    assert c[0] == raw[0] / z && c[1] == raw[1] / z && c[2] == raw[2] / z;
    assert raw[..RequiredLayers][0] == raw[0] && raw[..RequiredLayers][1] == raw[1]
        && raw[..RequiredLayers][2] == raw[2];
    assert c[..RequiredLayers] == [c[0], c[1], c[2]];
  }
}
