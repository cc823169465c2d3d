/** The static depth legend: one (colour, depth range) entry per band, in the
    order the legend lists them, checked against the classifier. */
module DepthLegend {
  import opened Classifier

  datatype Option<T> = None | Some(value: T)

  /** The lower end of a legend range: none, or "Depth > v". */
  datatype LowerBound = NoLower | Above(v: real)

  /** The upper end of a legend range: none, "Depth < v" or "Depth <= v". */
  datatype UpperBound = NoUpper | Below(v: real) | AtMost(v: real)

  /** One legend line: a colour swatch and the depth range its label states. */
  datatype Entry = Entry(color: Color, lower: LowerBound, upper: UpperBound)

  /** Whether the range a legend line states contains the depth. */
  predicate Covers(e: Entry, depth: real) {
    && (match e.lower
        case NoLower => true
        case Above(v) => depth > v)
    && (match e.upper
        case NoUpper => true
        case Below(v) => depth < v
        case AtMost(v) => depth <= v)
  }

  /** The legend as its labels are written: one line per band in ascending
      order, each bounded by the classifier's own boundaries, except that the
      first line reads "Depth < 10" where the classifier tests depth <= 10. */
  function Entries(): (t: seq<Entry>)
    ensures |t| == |Boundaries| + 1
    ensures forall i :: 0 <= i < |t| ==> Rank(t[i].color) == i
    ensures t[0].lower == NoLower && t[0].upper == Below(Boundaries[0])
    ensures forall i :: 0 < i < |t| ==> t[i].lower == Above(Boundaries[i - 1])
    ensures forall i :: 0 < i < |t| - 1 ==> t[i].upper == AtMost(Boundaries[i])
    ensures t[|t| - 1].upper == NoUpper
  {
    [
    Entry(Green, NoLower, Below(10.0)),
    Entry(YellowGreen, Above(10.0), AtMost(25.0)),
    Entry(PaleGreen, Above(25.0), AtMost(40.0)),
    Entry(Yellow, Above(40.0), AtMost(55.0)),
    Entry(Orange, Above(55.0), AtMost(70.0)),
    Entry(Red, Above(70.0), NoUpper)
    ]
  }

  /** The legend with its first label corrected to "Depth <= 10": every line
      now states exactly the band (Boundaries[i-1], Boundaries[i]]. */
  function CorrectedEntries(): (t: seq<Entry>)
    ensures |t| == |Boundaries| + 1
    ensures forall i :: 0 <= i < |t| ==> t[i].color == Entries()[i].color
    ensures forall i :: 0 < i < |t| ==> t[i].lower == Above(Boundaries[i - 1])
    ensures forall i :: 0 <= i < |t| - 1 ==> t[i].upper == AtMost(Boundaries[i])
    ensures t[0].lower == NoLower && t[|t| - 1].upper == NoUpper
  {
    Entries()[0 := Entry(Green, NoLower, AtMost(10.0))]
  }

  /** The colour a reader of the legend finds for a depth: that of the first
      line whose range contains it, or none when no line does. */
  function Lookup(legend: seq<Entry>, depth: real): (r: Option<Color>)
    ensures r.None? <==> forall i :: 0 <= i < |legend| ==> !Covers(legend[i], depth)
    ensures r.Some? ==> exists i :: 0 <= i < |legend| && Covers(legend[i], depth) && legend[i].color == r.value
  {
    if legend == [] then None
    else if Covers(legend[0], depth) then Some(legend[0].color)
    else
      var r := Lookup(legend[1..], depth);
      assert forall i :: 1 <= i < |legend| ==> legend[i] == legend[1..][i - 1];
      r
  }

  /** The legend lists the bands in ascending depth order, exactly as the
      branch chain tests them, and each line's range is the matching band. */
  lemma EntriesInBandOrder()
    ensures |Entries()| == |Boundaries| + 1
    ensures forall i :: 0 <= i < |Entries()| ==> Rank(Entries()[i].color) == i
    ensures forall i, d :: 0 <= i < |Entries()| && d != 10.0 ==>
              (Covers(Entries()[i], d) <==> InBand(Boundaries, i, d))
  {
  }

  /** Every legend line's colour is the one the classifier chooses at every
      depth inside that line's stated range. */
  lemma EntriesAgreeWithChooseColor(i: nat, depth: real)
    requires i < |Entries()| && Covers(Entries()[i], depth)
    ensures Entries()[i].color == ChooseColor(depth)
  {
  }

  /** The one exception: no legend line covers a depth of exactly 10 km,
      which the classifier colours green. */
  lemma EntriesMissTen()
    ensures forall i :: 0 <= i < |Entries()| ==> !Covers(Entries()[i], 10.0)
    ensures ChooseColor(10.0) == Green
    ensures Lookup(Entries(), 10.0) == None
  {
  }

  /** Reading the legend as written gives the classifier's colour at every
      depth except 10 km, where it gives nothing. */
  lemma LookupEntriesMatches(depth: real)
    ensures Lookup(Entries(), depth) == if depth == 10.0 then None else Some(ChooseColor(depth))
  {
  }

  /** With the corrected first label, every line's colour is the one the
      classifier chooses over that line's whole range. */
  lemma CorrectedEntriesAgreeWithChooseColor(i: nat, depth: real)
    requires i < |CorrectedEntries()| && Covers(CorrectedEntries()[i], depth)
    ensures CorrectedEntries()[i].color == ChooseColor(depth)
  {
  }

  /** With the corrected first label, reading the legend gives the
      classifier's colour at every depth. */
  lemma LookupCorrectedMatches(depth: real)
    ensures Lookup(CorrectedEntries(), depth) == Some(ChooseColor(depth))
  {
  }
}
