/** The depth and magnitude classifier behind every earthquake marker's style.
    Depths (km) and magnitudes are modelled as mathematical reals. */
module Classifier {

  /** The six marker colours, declared in ascending depth order. */
  datatype Color = Green | YellowGreen | PaleGreen | Yellow | Orange | Red

  /** The CSS colour string that the style object carries for each colour.
      Each string belongs to exactly one colour, so the string in a style
      object identifies its band. */
  function Css(c: Color): (s: string)
    ensures s == "green" <==> c == Green
    ensures s == "rgb(223, 255, 0)" <==> c == YellowGreen
    ensures s == "rgb(236, 255, 220)" <==> c == PaleGreen
    ensures s == "yellow" <==> c == Yellow
    ensures s == "orange" <==> c == Orange
    ensures s == "red" <==> c == Red
  {
    match c
    case Green => "green"
    case YellowGreen => "rgb(223, 255, 0)"
    case PaleGreen => "rgb(236, 255, 220)"
    case Yellow => "yellow"
    case Orange => "orange"
    case Red => "red"
  }

  /** Position of a colour in the ascending depth order, green = 0 ... red = 5. */
  function Rank(c: Color): (k: nat)
    ensures k < |Boundaries| + 1
  {
    match c
    case Green => 0
    case YellowGreen => 1
    case PaleGreen => 2
    case Yellow => 3
    case Orange => 4
    case Red => 5
  }

  /** The colour at a given position of the depth order. */
  function ColorAt(k: nat): (c: Color)
    requires k < |Boundaries| + 1
    ensures Rank(c) == k
  {
    [Green, YellowGreen, PaleGreen, Yellow, Orange, Red][k]
  }

  /** The band boundaries in km, ascending. */
  const Boundaries: seq<real> := [10.0, 25.0, 40.0, 55.0, 70.0]

  /** Strictly ascending sequence of boundaries. */
  predicate Ascending(bs: seq<real>) {
    forall i, j :: 0 <= i < j < |bs| ==> bs[i] < bs[j]
  }

  /** Band k of the boundaries bs is the half-open interval (bs[k-1], bs[k]];
      the first band has no lower end and the last band no upper end. */
  predicate InBand(bs: seq<real>, k: nat, depth: real)
    requires k <= |bs|
  {
    (k == 0 || bs[k - 1] < depth) && (k == |bs| || depth <= bs[k])
  }

  /** How many boundaries lie strictly below the depth: a reference
      definition of the band index, independent of the branch chain. */
  function CountBelow(bs: seq<real>, depth: real): (n: nat)
    ensures n <= |bs|
  {
    if bs == [] then 0
    else (if bs[0] < depth then 1 else 0) + CountBelow(bs[1..], depth)
  }

  /** For ascending boundaries, the depth lies in band k exactly when k
      boundaries lie below it; so every depth lies in exactly one band. */
  lemma {:induction false} InBandIffCount(bs: seq<real>, k: nat, depth: real)
    requires Ascending(bs) && k <= |bs|
    ensures InBand(bs, k, depth) <==> k == CountBelow(bs, depth)
  {
    if bs != [] {
      var tail := bs[1..];
      assert Ascending(tail);
      if bs[0] < depth {
        if k > 0 {
          InBandIffCount(tail, k - 1, depth);
          assert InBand(bs, k, depth) <==> InBand(tail, k - 1, depth);
        }
      } else {
        InBandIffCount(tail, 0, depth);
        assert CountBelow(tail, depth) == 0;
        if k > 0 {
          assert bs[0] <= bs[k - 1];
        }
      }
    }
  }

  /** More depth never means fewer boundaries exceeded. */
  lemma {:induction false} CountBelowMonotone(bs: seq<real>, d1: real, d2: real)
    requires d1 <= d2
    ensures CountBelow(bs, d1) <= CountBelow(bs, d2)
  {
    if bs != [] {
      CountBelowMonotone(bs[1..], d1, d2);
    }
  }

  /** The depth colour of a marker: the first branch whose test holds.
      The band tests are conjunctions of two comparisons. */
  function ChooseColor(depth: real): (c: Color)
    ensures InBand(Boundaries, Rank(c), depth)
  {
    if depth <= 10.0 then Green
    else if depth > 10.0 && depth <= 25.0 then YellowGreen
    else if depth > 25.0 && depth <= 40.0 then PaleGreen
    else if depth > 40.0 && depth <= 55.0 then Yellow
    else if depth > 55.0 && depth <= 70.0 then Orange
    else Red
  }

  /** The chosen colour is the one whose band contains the depth, and no other
      band contains it: the six bands are exhaustive and pairwise disjoint. */
  lemma BandsExhaustiveAndDisjoint(depth: real, k: nat)
    requires k <= |Boundaries|
    ensures InBand(Boundaries, k, depth) <==> k == Rank(ChooseColor(depth))
  {
  }

  /** The branch chain agrees with the reference definition: the colour's
      rank is the number of boundaries strictly below the depth. */
  lemma ChooseColorIsCountBelow(depth: real)
    ensures Rank(ChooseColor(depth)) == CountBelow(Boundaries, depth)
    ensures ChooseColor(depth) == ColorAt(CountBelow(Boundaries, depth))
  {
    assert Ascending(Boundaries);
    InBandIffCount(Boundaries, Rank(ChooseColor(depth)), depth);
  }

  /** The CSS string returned for each band, as the branch chain states it. */
  lemma ChooseColorCss(depth: real)
    ensures Css(ChooseColor(depth)) == "green" <==> depth <= 10.0
    ensures Css(ChooseColor(depth)) == "rgb(223, 255, 0)" <==> 10.0 < depth <= 25.0
    ensures Css(ChooseColor(depth)) == "rgb(236, 255, 220)" <==> 25.0 < depth <= 40.0
    ensures Css(ChooseColor(depth)) == "yellow" <==> 40.0 < depth <= 55.0
    ensures Css(ChooseColor(depth)) == "orange" <==> 55.0 < depth <= 70.0
    ensures Css(ChooseColor(depth)) == "red" <==> depth > 70.0
  {
  }

  /** A deeper earthquake never gets a colour earlier in the band order. */
  lemma ChooseColorMonotone(d1: real, d2: real)
    requires d1 <= d2
    ensures Rank(ChooseColor(d1)) <= Rank(ChooseColor(d2))
  {
  }

  /** The marker radius: a linear scale of the magnitude by five, unclamped. */
  function ChooseRadius(magnitude: real): (r: real)
    ensures r == 5.0 * magnitude
    ensures r >= 0.0 <==> magnitude >= 0.0
    ensures r == 0.0 <==> magnitude == 0.0
  {
    magnitude * 5.0
  }

  /** A larger magnitude always gives a strictly larger radius. */
  lemma ChooseRadiusStrictlyIncreasing(m1: real, m2: real)
    requires m1 < m2
    ensures ChooseRadius(m1) < ChooseRadius(m2)
  {
  }
}
