/** The per-feature style descriptor that every earthquake marker is drawn with. */
module Styler {
  import opened Classifier

  /** An earthquake feature as far as styling reads it: its geometry
      coordinates (longitude, latitude, depth in km) and its magnitude. The
      identifier is read only by the marker popup, which is not modelled; it
      is kept so that the record is complete. */
  datatype Feature = Feature(id: string, coordinates: seq<real>, mag: real)

  /** The style object: stroke colour, circle radius and fill colour. */
  datatype Style = Style(color: string, radius: real, fillColor: string)

  /** The depth colour of a feature. A coordinate list without a third entry
      reads as undefined, which fails every comparison of the branch chain and
      so lands in its final branch, red. */
  function DepthColor(f: Feature): (c: Color)
    ensures |f.coordinates| >= 3 ==> InBand(Boundaries, Rank(c), f.coordinates[2])
    ensures |f.coordinates| < 3 ==> c == Red
  {
    if |f.coordinates| >= 3 then ChooseColor(f.coordinates[2]) else Red
  }

  /** The style of a feature: both colours come from its depth, the radius
      from its magnitude. */
  function StyleInfo(f: Feature): (s: Style)
    ensures s.color == s.fillColor
    ensures s.radius == 5.0 * f.mag
    ensures |f.coordinates| >= 3 ==>
              s.color == Css(ColorAt(CountBelow(Boundaries, f.coordinates[2])))
    ensures |f.coordinates| < 3 ==> s.color == "red"
  {
    var c := DepthColor(f);
    assert |f.coordinates| >= 3 ==> c == ColorAt(CountBelow(Boundaries, f.coordinates[2])) by {
      if |f.coordinates| >= 3 {
        ChooseColorIsCountBelow(f.coordinates[2]);
      }
    }
    Style(Css(c), ChooseRadius(f.mag), Css(c))
  }

  /** StyleInfo is exactly the composition of the two classifier functions. */
  lemma StyleInfoComposesClassifier(f: Feature)
    requires |f.coordinates| >= 3
    ensures StyleInfo(f).color == Css(ChooseColor(f.coordinates[2]))
    ensures StyleInfo(f).fillColor == Css(ChooseColor(f.coordinates[2]))
    ensures StyleInfo(f).radius == ChooseRadius(f.mag)
  {
  }

  /** Three worked examples: (depth 5, magnitude 2) is green with radius 10,
      (60, 4) is orange with radius 20, (100, 1) is red with radius 5. */
  lemma StyleInfoScenarios(id: string, lon: real, lat: real)
    ensures StyleInfo(Feature(id, [lon, lat, 5.0], 2.0)) == Style("green", 10.0, "green")
    ensures StyleInfo(Feature(id, [lon, lat, 60.0], 4.0)) == Style("orange", 20.0, "orange")
    ensures StyleInfo(Feature(id, [lon, lat, 100.0], 1.0)) == Style("red", 5.0, "red")
  {
  }
}
