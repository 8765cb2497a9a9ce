/**
 * The donut chart drawn on the home page: weighted categories become annular
 * sectors swept clockwise from the top of the ring. Angles and sweeps are in
 * degrees; the trigonometric corner points and the SVG path text are not
 * part of this model.
 */
module DonutChart {

  datatype Category = Category(name: string, value: real, color: string)

  /** One annular wedge: where it starts, how far it sweeps, and the arc flag of its path. */
  datatype Segment = Segment(
    color: string, name: string, value: real,
    startDeg: real, sweepDeg: real, endDeg: real,
    largeArc: int, outerRadius: real, innerRadius: real)

  /** Either the single full ring drawn when there is nothing to divide, or one sector per category. */
  datatype Chart =
    | FullRing(color: string, outerRadius: real, innerRadius: real)
    | Sectors(segments: seq<Segment>)

  const FallbackRingColor := "#e0e0e0"
  const FallbackSegmentColor := "#ccc"

  /** `Math.max(0, v)`. */
  function Clamped(v: real): (c: real)
    ensures c >= 0.0 && c >= v
    ensures v >= 0.0 ==> c == v
    ensures v < 0.0 ==> c == 0.0
  {
    if v > 0.0 then v else 0.0
  }

  /** The chart total: the sum of the clamped category values. */
  function Total(data: seq<Category>): (t: real)
    ensures t >= 0.0
  {
    if data == [] then 0.0 else Total(data[..|data| - 1]) + Clamped(data[|data| - 1].value)
  }

  /** The sum of the sweeps of a list of sectors. */
  function SweepSum(segs: seq<Segment>): real {
    if segs == [] then 0.0 else SweepSum(segs[..|segs| - 1]) + segs[|segs| - 1].sweepDeg
  }

  /** `d.color || '#ccc'`. */
  function SegmentColor(c: string): string {
    if c == "" then FallbackSegmentColor else c
  }

  /** Where sector `k` starts: -90 degrees plus the share of the ring taken by the categories before it. */
  function StartDeg(data: seq<Category>, k: nat, total: real): real
    requires k <= |data| && total > 0.0
  {
    -90.0 + Total(data[..k]) / total * 360.0
  }

  /** Splitting a sum of shares of the same whole. */
  lemma ShareAdd(a: real, b: real, t: real)
    requires t > 0.0
    ensures (a + b) / t * 360.0 == a / t * 360.0 + b / t * 360.0
  {
  }

  /** The share of the first `k + 1` categories is that of the first `k` plus category `k`'s. */
  lemma PrefixShareStep(data: seq<Category>, k: nat, total: real)
    requires k < |data| && total > 0.0
    ensures Total(data[..k + 1]) / total * 360.0
         == Total(data[..k]) / total * 360.0 + Clamped(data[k].value) / total * 360.0
  {
    assert data[..k + 1][..k] == data[..k];
    ShareAdd(Total(data[..k]), Clamped(data[k].value), total);
  }

  /** Each sector ends where the next one starts. */
  lemma StartDegStep(data: seq<Category>, k: nat, total: real)
    requires k < |data| && total > 0.0
    ensures StartDeg(data, k + 1, total) == StartDeg(data, k, total) + Clamped(data[k].value) / total * 360.0
  {
    PrefixShareStep(data, k, total);
  }

  /** All the categories together take the whole ring, so the last sector ends at 270 degrees. */
  lemma WholeRing(data: seq<Category>)
    requires Total(data) > 0.0
    ensures Total(data[..|data|]) / Total(data) * 360.0 == 360.0
    ensures StartDeg(data, |data|, Total(data)) == 270.0
  {
    assert data[..|data|] == data;
    var t := Total(data);
    assert t / t == 1.0;
  }

  /** Appending a sector adds its sweep to the sum. */
  lemma SweepSumSnoc(segs: seq<Segment>, seg: Segment)
    ensures SweepSum(segs + [seg]) == SweepSum(segs) + seg.sweepDeg
  {
    assert (segs + [seg])[..|segs|] == segs;
  }

  /**
   * The sector drawn for category `d` starting at `start`: it sweeps the
   * category's share of 360 degrees, and its arcs take the long way round
   * exactly when that sweep exceeds 180 degrees.
   */
  function MakeSegment(d: Category, start: real, total: real, size: real): (s: Segment)
    requires total > 0.0
    ensures s.sweepDeg == Clamped(d.value) / total * 360.0 && s.sweepDeg >= 0.0
    ensures s.startDeg == start && s.endDeg == start + s.sweepDeg
    ensures s.largeArc == (if s.sweepDeg > 180.0 then 1 else 0)
    ensures s.color == SegmentColor(d.color) && s.name == d.name && s.value == d.value
    ensures d.color == "" ==> s.color == FallbackSegmentColor
    ensures d.color != "" ==> s.color == d.color
    ensures d.value <= 0.0 ==> s.sweepDeg == 0.0 && s.endDeg == start
    ensures s.outerRadius == size / 2.0 && s.innerRadius == size / 2.0 * 0.6
  {
    var sweep := Clamped(d.value) / total * 360.0;
    var r := size / 2.0;
    Segment(SegmentColor(d.color), d.name, d.value, start, sweep, start + sweep,
            if sweep > 180.0 then 1 else 0, r, r * 0.6)
  }

  /** The first `|segs|` sectors are the ones drawn for the first `|segs|` categories, each from its start angle. */
  predicate Placed(data: seq<Category>, total: real, size: real, segs: seq<Segment>)
    requires total > 0.0
  {
    |segs| <= |data| &&
    forall k :: 0 <= k < |segs| ==> segs[k] == MakeSegment(data[k], StartDeg(data, k, total), total, size)
  }

  /** Sectors meet end to end from -90 degrees up to `cumulative`, and their sweeps add up to that span. */
  predicate Joined(segs: seq<Segment>, cumulative: real) {
    && SweepSum(segs) == cumulative + 90.0
    && (|segs| > 0 ==> segs[0].startDeg == -90.0 && segs[|segs| - 1].endDeg == cumulative)
    && (forall k :: 0 < k < |segs| ==> segs[k].startDeg == segs[k - 1].endDeg)
  }

  lemma PlacedStep(data: seq<Category>, total: real, size: real, segs: seq<Segment>)
    requires total > 0.0
    requires Placed(data, total, size, segs) && |segs| < |data|
    ensures Placed(data, total, size, segs + [MakeSegment(data[|segs|], StartDeg(data, |segs|, total), total, size)])
  {
  }

  lemma JoinedStep(segs: seq<Segment>, cumulative: real, seg: Segment)
    requires Joined(segs, cumulative)
    requires seg.startDeg == cumulative && seg.endDeg == seg.startDeg + seg.sweepDeg
    ensures Joined(segs + [seg], seg.endDeg)
  {
    SweepSumSnoc(segs, seg);
  }

  /**
   * The chart for `data` in a `size`-wide square: outer radius `size / 2`,
   * inner radius 0.6 of that.
   */
  method Render(data: seq<Category>, size: real) returns (chart: Chart)
    ensures chart.FullRing? <==> Total(data) == 0.0
    ensures chart.FullRing? ==>
      && chart.color == (if |data| > 0 then data[0].color else FallbackRingColor)
      && chart.outerRadius == size / 2.0
      && chart.innerRadius == size / 2.0 * 0.6
    ensures chart.Sectors? ==> |chart.segments| == |data| > 0
    ensures chart.Sectors? ==> forall i :: 0 <= i < |data| ==>
      chart.segments[i] == MakeSegment(data[i], StartDeg(data, i, Total(data)), Total(data), size)
    ensures chart.Sectors? ==> chart.segments[0].startDeg == -90.0
    ensures chart.Sectors? ==>
      forall i :: 0 < i < |data| ==> chart.segments[i].startDeg == chart.segments[i - 1].endDeg
    ensures chart.Sectors? ==> chart.segments[|data| - 1].endDeg == 270.0
    ensures chart.Sectors? ==> SweepSum(chart.segments) == 360.0
  {
    var total := Total(data);
    var r := size / 2.0;
    if total == 0.0 {
      var fill := if |data| > 0 then data[0].color else FallbackRingColor;
      return FullRing(fill, r, r * 0.6);
    }
    var cumulative := -90.0;
    var segs: seq<Segment> := [];
    assert data[..0] == [];
    while |segs| < |data|
      invariant Placed(data, total, size, segs) && Joined(segs, cumulative)
      invariant cumulative == StartDeg(data, |segs|, total)
      decreases |data| - |segs|
    {
      var seg := MakeSegment(data[|segs|], cumulative, total, size);
      PlacedStep(data, total, size, segs);
      JoinedStep(segs, cumulative, seg);
      StartDegStep(data, |segs|, total);
      segs := segs + [seg];
      cumulative := seg.endDeg;
    }
    WholeRing(data);
    return Sectors(segs);
  }

  /** The chart's total is never negative and never less than any single clamped value. */
  lemma TotalBounds(data: seq<Category>, i: nat)
    requires i < |data|
    ensures 0.0 <= Clamped(data[i].value) <= Total(data)
  {
  }

  /** Two weights 3 and 1 split the ring into 270 and 90 degrees, starting at the top. */
  method ThreeToOne() returns (chart: Chart)
    ensures chart.Sectors? && |chart.segments| == 2
    ensures chart.segments[0].startDeg == -90.0 && chart.segments[0].sweepDeg == 270.0
    ensures chart.segments[1].startDeg == 180.0 && chart.segments[1].sweepDeg == 90.0
  {
    var data := [Category("A", 3.0, "A"), Category("B", 1.0, "B")];
    assert data[..1] == [data[0]];
    assert Total(data[..1]) == 3.0;
    assert Total(data) == 4.0;
    chart := Render(data, 160.0);
  }
}
