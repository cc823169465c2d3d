# Earthquake marker styling, modelled in Dafny

The web map draws each earthquake of a weekly feed as a circle marker. The
marker's style comes from three small pure functions in `static/js/logic.js`:

- `chooseColor(depth)` puts a depth in km into one of six bands. The band
  boundaries are 10, 25, 40, 55 and 70 km. It returns a CSS colour per band:
  green, `rgb(223, 255, 0)`, `rgb(236, 255, 220)`, yellow, orange and red.
- `chooseRadius(magnitude)` scales the magnitude by five.
- `styleInfo(feature)` builds the style object. Stroke and fill both get the
  colour of the depth (the third geometry coordinate). The radius comes from
  the magnitude.

A static legend lists the six colours with their depth ranges.

The model has three modules:

- `Classifier` (`classifier.dfy`): the six colours as a datatype, their CSS
  strings, and the branch chain `ChooseColor`. It is checked against an
  independent reference definition: a depth's band index is the number of
  boundaries strictly below it (`CountBelow`). The module also holds
  `ChooseRadius`.
- `Styler` (`styler.dfy`): the feature record as styling reads it, and
  `StyleInfo`.
- `DepthLegend` (`legend.dfy`): the legend as a table of (colour, lower end,
  upper end) entries, and `Lookup`, which finds the colour a reader of the
  legend would see for a depth. Both the table as written and a corrected
  table are checked against `ChooseColor`.

Depths and magnitudes are Dafny `real`s. The band tests in the source join
two comparisons with the bitwise `&`. For the boolean operands used there,
that is the same as `&&`, so the model uses `&&`.

A feature whose coordinate list has no third entry reads its depth as
`undefined`. Every comparison in the branch chain is then false, so the
source falls through to its last branch, red; it does not throw.
`Styler.DepthColor` models this case.

The radius is not clamped, so a negative magnitude gives a negative radius:
`ChooseRadius` is non-negative exactly when the magnitude is.

## Model

| member | source | states |
|---|---|---|
| `Classifier.ChooseColor` | static/js/logic.js:47-54 | the colour chosen for a depth is the one whose band (lower boundary exclusive, upper inclusive) contains the depth |
| `Classifier.ChooseColorCss` | static/js/logic.js:48-53 | the CSS string is "green" exactly when depth <= 10, "red" exactly when depth > 70, and each interior band's string exactly on its half-open interval |
| `Classifier.Css` | static/js/logic.js:48-53 | each of the six returned strings ("green", "rgb(223, 255, 0)", "rgb(236, 255, 220)", "yellow", "orange", "red") belongs to exactly one colour, so a style's colour string determines its band |
| `Classifier.InBandIffCount` | static/js/logic.js:48-53 | for any ascending boundary list, a depth is in band k exactly when k boundaries lie strictly below it |
| `Classifier.BandsExhaustiveAndDisjoint` | static/js/logic.js:48-53 | every depth lies in exactly one of the six bands, the band of the chosen colour |
| `Classifier.ChooseColorIsCountBelow` | static/js/logic.js:48-53 | the branch chain agrees with the reference definition: the chosen colour's rank is the number of boundaries below the depth |
| `Classifier.CountBelowMonotone` | static/js/logic.js:48-53 | a greater depth never has fewer boundaries below it |
| `Classifier.ChooseColorMonotone` | static/js/logic.js:48-53 | the band order is monotone: d1 <= d2 implies the colour of d1 comes no later than that of d2 in green < rgb(223,255,0) < rgb(236,255,220) < yellow < orange < red |
| `Classifier.ChooseRadius` | static/js/logic.js:57-59 | the radius is exactly five times the magnitude, unclamped; it is non-negative exactly when the magnitude is, and zero exactly when the magnitude is |
| `Classifier.ChooseRadiusStrictlyIncreasing` | static/js/logic.js:57-59 | a larger magnitude gives a strictly larger radius |
| `Styler.DepthColor` | static/js/logic.js:40-42 | with a third coordinate the colour's band contains that depth; without one the colour is red |
| `Styler.StyleInfo` | static/js/logic.js:38-44 | stroke and fill colour are equal; the radius is five times the magnitude; the colour is the CSS string of the band given by the number of boundaries below the depth, or red when there is no depth coordinate |
| `Styler.StyleInfoComposesClassifier` | static/js/logic.js:38-44 | with at least three coordinates, color and fillColor are chooseColor of the third coordinate and radius is chooseRadius of the magnitude |
| `Styler.StyleInfoScenarios` | static/js/logic.js:38-59 | depth 5, magnitude 2 gives green with radius 10; depth 60, magnitude 4 gives orange with radius 20; depth 100, magnitude 1 gives red with radius 5 |
| `DepthLegend.Entries` | static/js/logic.js:94-99 | the legend as labelled: six lines in ascending band order (green first, red last); line i > 0 starts above boundary i-1, interior lines end at their boundary inclusive, the last line is unbounded above, and the first line ends strictly below 10 |
| `DepthLegend.CorrectedEntries` | static/js/logic.js:94-99 | the legend with line 94 read as "Depth <= 10": same colours in the same order, and every line states exactly its band, lower boundary exclusive and upper boundary inclusive |
| `DepthLegend.Lookup` | static/js/logic.js:94-99 | reading a legend gives no colour exactly when no line's range covers the depth, and otherwise the colour of a line that covers it |
| `DepthLegend.EntriesInBandOrder` | static/js/logic.js:94-99 | the legend has six lines, line i has the colour of rank i, and away from depth 10 line i's range is exactly band i |
| `DepthLegend.EntriesAgreeWithChooseColor` | static/js/logic.js:94-99 | each legend line's colour equals chooseColor at every depth inside that line's stated range |
| `DepthLegend.EntriesMissTen` | static/js/logic.js:94 | no legend line covers depth 10, although chooseColor colours it green |
| `DepthLegend.LookupEntriesMatches` | static/js/logic.js:94-99 | reading the legend as written gives chooseColor's colour at every depth except 10, where it gives none |
| `DepthLegend.CorrectedEntriesAgreeWithChooseColor` | static/js/logic.js:94-99 | with the first label read as "Depth <= 10", each line's colour equals chooseColor at every depth inside its range, 10 included |
| `DepthLegend.LookupCorrectedMatches` | static/js/logic.js:94-99 | with the first label read as "Depth <= 10", reading the legend gives chooseColor's colour at every depth |

## Findings

| source | as written | input that shows it | evidently intended | confidence | as-written member | corrected member |
|---|---|---|---|---|---|---|
| static/js/logic.js:94 | the first legend label reads "(Depth < 10)" | depth 10 km: chooseColor returns green (line 48), but no legend label covers 10 | "(Depth <= 10)", matching the `depth <= 10` test | high for the mismatch, medium for which side is meant; not executed | `DepthLegend.EntriesMissTen` | `DepthLegend.LookupCorrectedMatches` |

## Left out

- Map, tile layer, base maps, overlay groups and the layer control (lines 5-33): configuration of the mapping library, whose code is not part of this model.
- The two d3 fetches and their nested promise chain (lines 66-88): network I/O and asynchronous sequencing.
- Marker and popup construction for each feature, and the tectonic line style with its fixed orange colour and weight 1 (lines 67-72, 80-83): both are done inside the mapping library.
- The legend's DOM element and its HTML strings (lines 90-104): only the table of colours and ranges is modelled, not the `innerHTML` appends.
- IEEE-754 behaviour: depths and magnitudes are exact reals. NaN, rounding of `magnitude*5`, and a `null` depth (which compares as 0) are not modelled.
- A missing or `null` magnitude (`undefined*5` is NaN, `null*5` is 0): `Feature.mag` is always a real.
- A feature with no `geometry` or no `properties` object raises a type error in the source; the `Feature` record always has both.
