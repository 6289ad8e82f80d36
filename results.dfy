/** The results view of `cgt/gui/resultswidget.py`: which marker families belong to a
    region, how their displacement samples become table rows, and how each family's
    cumulative-displacement series is built for the plot.

    The displacement samples themselves come from a velocities calculator that is not
    part of this model: `FillTable` and `DrawGraphOfRegion` receive its per-family
    sample lists as inputs. */
module Results {
  import opened Wrappers
  import opened Geometry
  import opened Text

  datatype MarkerKind = LineMarker | PointMarker

  /** A marker graphics item with the data tags the view reads and writes: its kind,
      the hash of the item it was cloned from, the frame and region it belongs to and,
      for a point, the centre of its cross. `shape` is the item's line or path and
      `pen` the pen it is drawn with; neither is interpreted here. */
  datatype Item = Item(kind: MarkerKind, shape: seq<Point>, pos: Point, pen: nat,
                       parentHash: Option<int>, frame: int, region: int, centre: Option<Point>)

  /** A displacement sample as the calculator reports it: start frame, end frame, length. */
  datatype Displacement = Displacement(start: int, end: int, length: real)

  /** One table row: the marker column names the family (`LabelText(kind, family)`), then the
      start frame, end frame and displacement of one sample. */
  datatype Row = Row(kind: MarkerKind, family: nat, start: int, end: int, length: real)

  /** One plotted curve: family, frames (x) and cumulative displacements (y), drawn with
      colour `pen` out of `pens`. */
  datatype Plot = Plot(kind: MarkerKind, family: nat, frames: seq<int>, displacements: seq<real>,
                       pen: nat, pens: nat)

  const TableHeaders: seq<string> := ["Marker", "Start Frame", "End Frame", "Displacement"]

  /** The text of the marker column, and the plot legend name, of family `j`. */
  function LabelText(kind: MarkerKind, j: nat): (text: string)
    ensures kind == LineMarker ==> text == "Line " + NatToString(j)
    ensures kind == PointMarker ==> text == "Point " + NatToString(j)
  {
    (if kind == LineMarker then "Line " else "Point ") + NatToString(j)
  }

  /** The marker column tells rows apart: different kinds or family numbers give different
      texts, so a row's (kind, family) pair is exactly what its label shows. */
  lemma {:induction false} LabelsIdentifyFamilies(k1: MarkerKind, j1: nat, k2: MarkerKind, j2: nat)
    ensures LabelText(k1, j1) == LabelText(k2, j2) ==> k1 == k2 && j1 == j2
  {
    if LabelText(k1, j1) == LabelText(k2, j2) {
      var t := LabelText(k1, j1);
      assert t[0] == (if k1 == LineMarker then 'L' else 'P');
      assert t[0] == (if k2 == LineMarker then 'L' else 'P');
      var n := if k1 == LineMarker then 5 else 6;
      assert t[n..] == NatToString(j1);
      assert t[n..] == NatToString(j2);
      ParseNatToString(j1);
      ParseNatToString(j2);
    }
  }

  /** Every family has at least one marker (the view reads each family's first marker). */
  predicate NonEmptyFamilies(families: seq<seq<Item>>) {
    forall k :: 0 <= k < |families| ==> |families[k]| > 0
  }

  // ----------------------------------------------------------------------------------
  // calculate_speeds: the region filter

  /** The families whose first marker lies in region `index`, in their original order. */
  function InRegion(families: seq<seq<Item>>, index: int): (kept: seq<seq<Item>>)
    requires NonEmptyFamilies(families)
    ensures |kept| <= |families|
    decreases |families|
  {
    if |families| == 0 then []
    else
      var last := families[|families| - 1];
      InRegion(families[..|families| - 1], index) + (if last[0].region == index then [last] else [])
  }

  /** A family is kept exactly when it is one of the input families and its first marker is in the region. */
  lemma {:induction false} InRegionMembers(families: seq<seq<Item>>, index: int, f: seq<Item>)
    requires NonEmptyFamilies(families)
    ensures f in InRegion(families, index) <==> f in families && f[0].region == index
    decreases |families|
  {
    if |families| > 0 {
      var init := families[..|families| - 1];
      InRegionMembers(init, index, f);
      assert families == init + [families[|families| - 1]];
    }
  }

  /** Filtering commutes with concatenation, so the kept families keep their relative order. */
  lemma {:induction false} InRegionAppend(a: seq<seq<Item>>, b: seq<seq<Item>>, index: int)
    requires NonEmptyFamilies(a) && NonEmptyFamilies(b)
    ensures NonEmptyFamilies(a + b)
    ensures InRegion(a + b, index) == InRegion(a, index) + InRegion(b, index)
    decreases |b|
  {
    if |b| > 0 {
      var b' := b[..|b| - 1];
      assert (a + b)[..|a + b| - 1] == a + b';
      assert (a + b)[|a + b| - 1] == b[|b| - 1];
      InRegionAppend(a, b', index);
    } else {
      assert a + b == a;
    }
  }

  /** `calculate_speeds` up to the calculator: the line families and point families of region `index`. */
  method CalculateSpeeds(allLines: seq<seq<Item>>, allPoints: seq<seq<Item>>, index: int)
    returns (lines: seq<seq<Item>>, points: seq<seq<Item>>)
    requires NonEmptyFamilies(allLines) && NonEmptyFamilies(allPoints)
    ensures lines == InRegion(allLines, index)
    ensures points == InRegion(allPoints, index)
  {
    lines := [];
    for k := 0 to |allLines|
      invariant lines == InRegion(allLines[..k], index)
    {
      assert allLines[..k + 1][..k] == allLines[..k];
      if allLines[k][0].region == index {
        lines := lines + [allLines[k]];
      }
    }
    assert allLines[..|allLines|] == allLines;
    points := [];
    for k := 0 to |allPoints|
      invariant points == InRegion(allPoints[..k], index)
    {
      assert allPoints[..k + 1][..k] == allPoints[..k];
      if allPoints[k][0].region == index {
        points := points + [allPoints[k]];
      }
    }
    assert allPoints[..|allPoints|] == allPoints;
  }

  // ----------------------------------------------------------------------------------
  // fill_table: one row per sample, line families first

  function SampleRows(kind: MarkerKind, j: nat, samples: seq<Displacement>): (rows: seq<Row>)
    ensures |rows| == |samples|
    ensures forall i :: 0 <= i < |samples| ==>
              rows[i] == Row(kind, j, samples[i].start, samples[i].end, samples[i].length)
  {
    seq(|samples|, i requires 0 <= i < |samples| =>
      Row(kind, j, samples[i].start, samples[i].end, samples[i].length))
  }

  /** The number of samples over all families. */
  function TotalSamples(families: seq<seq<Displacement>>): nat
    decreases |families|
  {
    if |families| == 0 then 0
    else TotalSamples(families[..|families| - 1]) + |families[|families| - 1]|
  }

  /** The rows of one kind: family 0's samples, then family 1's, and so on. */
  function KindRows(kind: MarkerKind, families: seq<seq<Displacement>>): seq<Row>
    decreases |families|
  {
    if |families| == 0 then []
    else KindRows(kind, families[..|families| - 1])
         + SampleRows(kind, |families| - 1, families[|families| - 1])
  }

  /** The rows `fill_table` writes, in row order. */
  function TableRows(lines: seq<seq<Displacement>>, points: seq<seq<Displacement>>): seq<Row> {
    KindRows(LineMarker, lines) + KindRows(PointMarker, points)
  }

  /** One row per sample. */
  lemma {:induction false} KindRowsLength(kind: MarkerKind, families: seq<seq<Displacement>>)
    ensures |KindRows(kind, families)| == TotalSamples(families)
    decreases |families|
  {
    if |families| > 0 {
      KindRowsLength(kind, families[..|families| - 1]);
    }
  }

  /** Sample `i` of family `j` is written at row (samples of families before `j`) + `i`,
      labelled with its own kind and family number. */
  lemma {:induction false} KindRowsAt(kind: MarkerKind, families: seq<seq<Displacement>>, j: nat, i: nat)
    requires j < |families| && i < |families[j]|
    ensures TotalSamples(families[..j]) + i < |KindRows(kind, families)|
    ensures KindRows(kind, families)[TotalSamples(families[..j]) + i]
            == Row(kind, j, families[j][i].start, families[j][i].end, families[j][i].length)
    decreases |families|
  {
    var n := |families|;
    var init := families[..n - 1];
    KindRowsLength(kind, init);
    KindRowsLength(kind, families);
    if j == n - 1 {
      assert families[..j] == init;
    } else {
      assert init[..j] == families[..j];
      KindRowsAt(kind, init, j, i);
    }
  }

  /** Every row of one kind carries that kind and names one of the families. */
  lemma {:induction false} KindRowsLabels(kind: MarkerKind, families: seq<seq<Displacement>>)
    ensures forall r :: 0 <= r < |KindRows(kind, families)| ==>
              KindRows(kind, families)[r].kind == kind && KindRows(kind, families)[r].family < |families|
    decreases |families|
  {
    if |families| > 0 {
      KindRowsLabels(kind, families[..|families| - 1]);
    }
  }

  /** The table has one row per sample, and every line row comes before every point row. */
  lemma TableRowsShape(lines: seq<seq<Displacement>>, points: seq<seq<Displacement>>)
    ensures |TableRows(lines, points)| == TotalSamples(lines) + TotalSamples(points)
    ensures forall r :: 0 <= r < |TableRows(lines, points)| ==>
              (TableRows(lines, points)[r].kind == LineMarker <==> r < TotalSamples(lines))
  {
    KindRowsLength(LineMarker, lines);
    KindRowsLength(PointMarker, points);
    KindRowsLabels(LineMarker, lines);
    KindRowsLabels(PointMarker, points);
  }

  // ----------------------------------------------------------------------------------
  // draw_graph_of_region: cumulative series and pens

  /** Sum of the sample lengths. */
  function SumLengths(samples: seq<Displacement>): real
    decreases |samples|
  {
    if |samples| == 0 then 0.0 else SumLengths(samples[..|samples| - 1]) + samples[|samples| - 1].length
  }

  /** The running displacement: 0.0, then previous + length for each sample. */
  function Displacements(samples: seq<Displacement>): (ys: seq<real>)
    ensures |ys| == |samples| + 1
    decreases |samples|
  {
    if |samples| == 0 then [0.0]
    else
      var prev := Displacements(samples[..|samples| - 1]);
      prev + [prev[|prev| - 1] + samples[|samples| - 1].length]
  }

  /** The frame axis: 0, then each sample's end frame. */
  function Frames(samples: seq<Displacement>): (xs: seq<int>)
    ensures |xs| == |samples| + 1
    decreases |samples|
  {
    if |samples| == 0 then [0] else Frames(samples[..|samples| - 1]) + [samples[|samples| - 1].end]
  }

  /** A series starts at (frame 0, displacement 0.0), adds each sample's length in turn
      against that sample's end frame, and ends at the sum of all lengths. */
  lemma {:induction false} SeriesSteps(samples: seq<Displacement>)
    ensures Displacements(samples)[0] == 0.0 && Frames(samples)[0] == 0
    ensures forall k :: 0 <= k < |samples| ==>
              Displacements(samples)[k + 1] == Displacements(samples)[k] + samples[k].length
              && Frames(samples)[k + 1] == samples[k].end
    ensures Displacements(samples)[|samples|] == SumLengths(samples)
    decreases |samples|
  {
    if |samples| > 0 {
      var init := samples[..|samples| - 1];
      SeriesSteps(init);
      assert forall k :: 0 <= k < |init| ==> init[k] == samples[k];
    }
  }

  /** The total is additive over consecutive runs of samples (no double counting). */
  lemma {:induction false} SumLengthsAppend(a: seq<Displacement>, b: seq<Displacement>)
    ensures SumLengths(a + b) == SumLengths(a) + SumLengths(b)
    decreases |b|
  {
    if |b| > 0 {
      assert (a + b)[..|a + b| - 1] == a + b[..|b| - 1];
      assert (a + b)[|a + b| - 1] == b[|b| - 1];
      SumLengthsAppend(a, b[..|b| - 1]);
    } else {
      assert a + b == a;
    }
  }

  /** The inner loop of `draw_graph_of_region`: build one family's frames and cumulative displacements. */
  method CumulativeSeries(samples: seq<Displacement>) returns (displacements: seq<real>, frames: seq<int>)
    ensures displacements == Displacements(samples)
    ensures frames == Frames(samples)
  {
    displacements := [0.0];
    frames := [0];
    for i := 0 to |samples|
      invariant displacements == Displacements(samples[..i])
      invariant frames == Frames(samples[..i])
    {
      assert samples[..i + 1][..i] == samples[..i];
      var newDis := displacements[|displacements| - 1] + samples[i].length;
      displacements := displacements + [newDis];
      frames := frames + [samples[i].end];
    }
    assert samples[..|samples|] == samples;
  }

  /** The curves of one kind, with pens numbered from `firstPen`. */
  function KindPlots(kind: MarkerKind, families: seq<seq<Displacement>>, firstPen: nat, pens: nat): (plots: seq<Plot>)
    ensures |plots| == |families|
    decreases |families|
  {
    if |families| == 0 then []
    else
      var j := |families| - 1;
      KindPlots(kind, families[..j], firstPen, pens)
      + [Plot(kind, j, Frames(families[j]), Displacements(families[j]), firstPen + j, pens)]
  }

  /** The curves `draw_graph_of_region` plots: line families, then point families. */
  function GraphPlots(lines: seq<seq<Displacement>>, points: seq<seq<Displacement>>): seq<Plot> {
    var pens := |lines| + |points|;
    KindPlots(LineMarker, lines, 0, pens) + KindPlots(PointMarker, points, |lines|, pens)
  }

  lemma {:induction false} KindPlotsAt(kind: MarkerKind, families: seq<seq<Displacement>>, firstPen: nat, pens: nat, k: nat)
    requires k < |families|
    ensures KindPlots(kind, families, firstPen, pens)[k]
            == Plot(kind, k, Frames(families[k]), Displacements(families[k]), firstPen + k, pens)
    decreases |families|
  {
    if k < |families| - 1 {
      KindPlotsAt(kind, families[..|families| - 1], firstPen, pens, k);
    }
  }

  /** Curve `k` uses pen `k` of `|lines| + |points|`: pens 0 .. |lines|-1 go to the line
      families in order, the rest to the point families, each pen exactly once. */
  lemma GraphPens(lines: seq<seq<Displacement>>, points: seq<seq<Displacement>>)
    ensures |GraphPlots(lines, points)| == |lines| + |points|
    ensures forall k :: 0 <= k < |lines| + |points| ==>
              var p := GraphPlots(lines, points)[k];
              p.pen == k && p.pens == |lines| + |points|
              && (k < |lines| ==> p.kind == LineMarker && p.family == k && p.displacements == Displacements(lines[k]))
              && (k >= |lines| ==> p.kind == PointMarker && p.family == k - |lines|
                                   && p.displacements == Displacements(points[k - |lines|]))
  {
    var pens := |lines| + |points|;
    forall k | 0 <= k < |lines| + |points|
      ensures var p := GraphPlots(lines, points)[k];
              p.pen == k && p.pens == pens
              && (k < |lines| ==> p.kind == LineMarker && p.family == k && p.displacements == Displacements(lines[k]))
              && (k >= |lines| ==> p.kind == PointMarker && p.family == k - |lines|
                                   && p.displacements == Displacements(points[k - |lines|]))
    {
      if k < |lines| {
        KindPlotsAt(LineMarker, lines, 0, pens, k);
      } else {
        KindPlotsAt(PointMarker, points, |lines|, pens, k - |lines|);
      }
    }
  }

  // ----------------------------------------------------------------------------------
  // display_region / clone_line / clone_point

  /** The first marker of every family, in family order. */
  function Firsts(families: seq<seq<Item>>): (firsts: seq<Item>)
    requires NonEmptyFamilies(families)
    ensures |firsts| == |families|
    ensures forall k :: 0 <= k < |families| ==> firsts[k] == families[k][0]
    decreases |families|
  {
    if |families| == 0 then []
    else Firsts(families[..|families| - 1]) + [families[|families| - 1][0]]
  }

  /** The first markers of an optional family list; no list gives no markers. */
  function OptFirsts(families: Option<seq<seq<Item>>>): seq<Item>
    requires families.Some? ==> NonEmptyFamilies(families.value)
  {
    if families.None? then [] else Firsts(families.value)
  }

  /** `clone_line`: a new line item with the same line and position, the given pen, and
      tags copied from the marker; its parent hash is the marker's hash. The cross centre
      is not copied. */
  function CloneLine(marker: Item, pen: nat, markerHash: int): (c: Item)
    ensures c.kind == LineMarker && c.parentHash == Some(markerHash) && c.pen == pen
    ensures c.shape == marker.shape && c.pos == marker.pos
    ensures c.frame == marker.frame && c.region == marker.region && c.centre == None
  {
    Item(LineMarker, marker.shape, marker.pos, pen, Some(markerHash), marker.frame, marker.region, None)
  }

  /** `clone_point`: as `CloneLine`, for a cross path, and the cross centre is copied too. */
  function ClonePoint(marker: Item, pen: nat, markerHash: int): (c: Item)
    ensures c.kind == PointMarker && c.parentHash == Some(markerHash) && c.pen == pen
    ensures c.shape == marker.shape && c.pos == marker.pos
    ensures c.frame == marker.frame && c.region == marker.region && c.centre == marker.centre
  {
    Item(PointMarker, marker.shape, marker.pos, pen, Some(markerHash), marker.frame, marker.region, marker.centre)
  }

  // ----------------------------------------------------------------------------------
  // the results store and the velocities calculator, as the view sees them

  /** What the view reads from the results store: the regions, every line and point family,
      and the families `get_lines_for_region` / `get_points_for_region` return for a region
      index (`None` when the store holds none). The store is not part of this model. */
  datatype Store = Store(regions: seq<Rect>, allLines: seq<seq<Item>>, allPoints: seq<seq<Item>>,
                         linesForRegion: int -> Option<seq<seq<Item>>>,
                         pointsForRegion: int -> Option<seq<seq<Item>>>)

  /** What the velocities calculator reports: one displacement list per line family, then
      one per point family. */
  datatype Speeds = Speeds(lineDisplacements: seq<seq<Displacement>>, pointDisplacements: seq<seq<Displacement>>)

  /** The velocities calculator, built from a region's line and point families (with the
      project's frame rate and resolution, which it keeps to itself). */
  type Calculator = (seq<seq<Item>>, seq<seq<Item>>) -> Speeds

  /** What `show_results(index)` needs in order not to raise: the index selects a region
      under Python indexing, and every family the view reads has a first marker. */
  predicate ShowableAt(store: Store, index: int) {
    && -|store.regions| <= index < |store.regions|
    && NonEmptyFamilies(store.allLines) && NonEmptyFamilies(store.allPoints)
    && (store.linesForRegion(index).Some? ==> NonEmptyFamilies(store.linesForRegion(index).value))
    && (store.pointsForRegion(index).Some? ==> NonEmptyFamilies(store.pointsForRegion(index).value))
  }

  /** `calculate_speeds(index)` handed to the calculator: the displacements of the region's families. */
  function RegionSpeeds(store: Store, index: int, calculator: Calculator): Speeds
    requires NonEmptyFamilies(store.allLines) && NonEmptyFamilies(store.allPoints)
  {
    calculator(InRegion(store.allLines, index), InRegion(store.allPoints, index))
  }

  /** `regions[index]` under Python indexing: a negative index counts from the end. */
  function RegionAt(regions: seq<Rect>, index: int): Rect
    requires -|regions| <= index < |regions|
  {
    if index < 0 then regions[|regions| + index] else regions[index]
  }

  /** The combo box entries `str(0)` .. `str(n - 1)`. */
  function RegionNames(n: nat): (names: seq<string>)
    ensures |names| == n
    ensures forall i :: 0 <= i < n ==> names[i] == NatToString(i)
  {
    seq(n, i requires 0 <= i < n => NatToString(i))
  }

  /** The state of the view: the results table, the plotted curves, the region combo box,
      the displayed region with its first markers, the scene, and the frame requests
      emitted on `request_frame`. */
  class ResultsWidget {
    var tableColumns: nat
    var tableHeaders: seq<string>
    var tableRowCount: nat
    var tableRows: seq<Row>
    var plots: seq<Plot>
    var regionBoxItems: seq<string>
    /** The combo box's current index; -1 while it has no current item. */
    var regionBoxIndex: int
    var currentRegion: Option<Rect>
    /** The start markers of the displayed region; `None` until a region is displayed. */
    var lines: Option<seq<Item>>
    var points: Option<seq<Item>>
    var scene: seq<Item>
    var requests: seq<int>

    /** A region is only ever displayed together with its start markers. */
    predicate RegionReady()
      reads this`currentRegion, this`lines, this`points
    {
      currentRegion.Some? ==> lines.Some? && points.Some?
    }

    /** The table `fill_table(index)` leaves: 4 columns, the fixed headers, 10 rows, and
        one row per displacement sample of the region's families, lines first. */
    predicate TableOf(store: Store, index: int, calculator: Calculator)
      requires NonEmptyFamilies(store.allLines) && NonEmptyFamilies(store.allPoints)
      reads this`tableColumns, this`tableHeaders, this`tableRowCount, this`tableRows
    {
      var speeds := RegionSpeeds(store, index, calculator);
      && tableColumns == 4 && tableHeaders == TableHeaders && tableRowCount == 10
      && tableRows == TableRows(speeds.lineDisplacements, speeds.pointDisplacements)
    }

    /** The curves `draw_graph_of_region(index)` leaves. */
    predicate GraphOf(store: Store, index: int, calculator: Calculator)
      requires NonEmptyFamilies(store.allLines) && NonEmptyFamilies(store.allPoints)
      reads this`plots
    {
      var speeds := RegionSpeeds(store, index, calculator);
      plots == GraphPlots(speeds.lineDisplacements, speeds.pointDisplacements)
    }

    /** What `display_region(index)` leaves on display: the region and the first marker of
        each of its line and point families. */
    predicate RegionOf(store: Store, index: int)
      requires ShowableAt(store, index)
      reads this`currentRegion, this`lines, this`points
    {
      && currentRegion == Some(RegionAt(store.regions, index))
      && lines == Some(OptFirsts(store.linesForRegion(index)))
      && points == Some(OptFirsts(store.pointsForRegion(index)))
    }

    /** A new view starts with no region and no start markers, then runs `setup_display`:
        with a store holding regions, region 0 is shown and frame 0 requested. */
    constructor (store: Option<Store>, calculator: Calculator)
      requires store.Some? && |store.value.regions| > 0 ==> ShowableAt(store.value, 0)
      ensures RegionReady() && scene == []
      ensures store.None? ==> regionBoxItems == [] && regionBoxIndex == -1
      ensures store.Some? ==>
                regionBoxItems == RegionNames(|store.value.regions|)
                && regionBoxIndex == (if |store.value.regions| > 0 then 0 else -1)
      ensures store.None? || |store.value.regions| == 0 ==>
                currentRegion == None && lines == None && points == None && requests == []
                && tableRows == [] && plots == []
      ensures store.Some? && |store.value.regions| > 0 ==>
                TableOf(store.value, 0, calculator) && GraphOf(store.value, 0, calculator)
                && RegionOf(store.value, 0) && requests == [0]
    {
      currentRegion := None;
      lines := None;
      points := None;
      requests := [];
      tableRows := [];
      plots := [];
      regionBoxItems := [];
      regionBoxIndex := -1;
      scene := [];
      new;
      SetupDisplay(store, calculator);
    }

    /** `setup_display`: without results nothing changes. Otherwise the combo box is
        cleared and refilled with "0" .. "n-1" (Qt makes the first item added to an empty
        box current), and when there is a region the results of the previous selection are
        shown, a negative previous index being replaced by 0. */
    method SetupDisplay(store: Option<Store>, calculator: Calculator)
      requires store.Some? && |store.value.regions| > 0 ==>
                 ShowableAt(store.value, if regionBoxIndex < 0 then 0 else regionBoxIndex)
      modifies this`regionBoxItems, this`regionBoxIndex, this`tableColumns, this`tableHeaders,
               this`tableRowCount, this`tableRows, this`plots, this`currentRegion, this`lines,
               this`points, this`requests
      ensures store.None? ==> unchanged(this)
      ensures store.Some? ==>
                regionBoxItems == RegionNames(|store.value.regions|)
                && regionBoxIndex == (if |store.value.regions| > 0 then 0 else -1)
      ensures store.Some? && |store.value.regions| == 0 ==>
                unchanged(this`tableColumns, this`tableHeaders, this`tableRowCount, this`tableRows, this`plots,
                          this`currentRegion, this`lines, this`points, this`requests)
      ensures store.Some? && |store.value.regions| > 0 ==>
                var shown := if old(regionBoxIndex) < 0 then 0 else old(regionBoxIndex);
                TableOf(store.value, shown, calculator) && GraphOf(store.value, shown, calculator)
                && RegionOf(store.value, shown) && requests == old(requests) + [0]
    {
      if store.None? {
        return;
      }
      var results := store.value;
      var oldIndex := regionBoxIndex;
      regionBoxItems := [];
      regionBoxIndex := -1;
      for i := 0 to |results.regions|
        invariant regionBoxItems == RegionNames(i)
        invariant regionBoxIndex == (if i > 0 then 0 else -1)
        modifies this`regionBoxItems, this`regionBoxIndex
      {
        regionBoxItems := regionBoxItems + [NatToString(i)];
        if regionBoxIndex < 0 {
          regionBoxIndex := 0;
        }
      }
      if |results.regions| > 0 {
        if oldIndex < 0 {
          oldIndex := 0;
        }
        ShowResults(results, oldIndex, calculator);
      }
    }

    /** `show_results`: the table, the graph and the region display of region `index`. */
    method ShowResults(store: Store, index: int, calculator: Calculator)
      requires ShowableAt(store, index)
      modifies this`tableColumns, this`tableHeaders, this`tableRowCount, this`tableRows, this`plots,
               this`currentRegion, this`lines, this`points, this`requests
      ensures TableOf(store, index, calculator) && GraphOf(store, index, calculator) && RegionOf(store, index)
      ensures requests == old(requests) + [0]
    {
      FillTable(store, index, calculator);
      DrawGraphOfRegion(store, index, calculator);
      DisplayRegion(store, index);
    }

    /** `fill_table`: a 4-column table with fixed headers, sized to 10 rows, holding one row
        per displacement sample of the region's families, line families first. */
    method FillTable(store: Store, index: int, calculator: Calculator)
      requires NonEmptyFamilies(store.allLines) && NonEmptyFamilies(store.allPoints)
      modifies this`tableColumns, this`tableHeaders, this`tableRowCount, this`tableRows
      ensures TableOf(store, index, calculator)
    {
      tableRows := [];
      tableHeaders := TableHeaders;
      tableColumns := 4;
      tableRowCount := 10;

      var lineFamilies, pointFamilies := CalculateSpeeds(store.allLines, store.allPoints, index);
      var speeds := calculator(lineFamilies, pointFamilies);
      var row := 0;
      row := WriteKindRows(LineMarker, speeds.lineDisplacements, row);
      row := WriteKindRows(PointMarker, speeds.pointDisplacements, row);
    }

    /** One of the two loops of `fill_table`: a row per sample of each family of `kind`,
        written from row `row0` on; `row` is the next free row. */
    method WriteKindRows(kind: MarkerKind, families: seq<seq<Displacement>>, row0: nat) returns (row: nat)
      requires row0 == |tableRows|
      modifies this`tableRows
      ensures tableRows == old(tableRows) + KindRows(kind, families)
      ensures row == |tableRows|
    {
      ghost var before := tableRows;
      row := row0;
      for j := 0 to |families|
        invariant tableRows == before + KindRows(kind, families[..j])
        invariant row == |tableRows|
      {
        var family := families[j];
        for i := 0 to |family|
          invariant tableRows == before + KindRows(kind, families[..j]) + SampleRows(kind, j, family[..i])
          invariant row == |tableRows|
        {
          tableRows := tableRows + [Row(kind, j, family[i].start, family[i].end, family[i].length)];
          row := row + 1;
        }
        assert family[..|family|] == family;
        assert families[..j + 1][..j] == families[..j];
      }
      assert families[..|families|] == families;
    }

    /** `draw_graph_of_region`: one curve per family of the region, line families first,
        with pens numbered in plotting order. */
    method DrawGraphOfRegion(store: Store, index: int, calculator: Calculator)
      requires NonEmptyFamilies(store.allLines) && NonEmptyFamilies(store.allPoints)
      modifies this`plots
      ensures GraphOf(store, index, calculator)
    {
      var lineFamilies, pointFamilies := CalculateSpeeds(store.allLines, store.allPoints, index);
      var speeds := calculator(lineFamilies, pointFamilies);
      var lineSamples := speeds.lineDisplacements;
      var pointSamples := speeds.pointDisplacements;

      plots := [];
      var pens := |lineSamples| + |pointSamples|;
      var pen := PlotKind(LineMarker, lineSamples, 0, pens);
      pen := PlotKind(PointMarker, pointSamples, pen, pens);
    }

    /** One of the two loops of `draw_graph_of_region`: a curve per family of `kind`, drawn
        with pens counted on from `firstPen`; `pen` is the next pen. */
    method PlotKind(kind: MarkerKind, families: seq<seq<Displacement>>, firstPen: nat, pens: nat) returns (pen: nat)
      modifies this`plots
      ensures plots == old(plots) + KindPlots(kind, families, firstPen, pens)
      ensures pen == firstPen + |families|
    {
      ghost var before := plots;
      pen := firstPen;
      for i := 0 to |families|
        invariant pen == firstPen + i
        invariant plots == before + KindPlots(kind, families[..i], firstPen, pens)
      {
        assert families[..i + 1][..i] == families[..i];
        var displacements, frames := CumulativeSeries(families[i]);
        plots := plots + [Plot(kind, i, frames, displacements, pen, pens)];
        pen := pen + 1;
      }
      assert families[..|families|] == families;
    }

    /** `display_region`: select region `index` (Python indexing, so a negative index counts
        from the end), keep the first marker of each of its line and point families (none
        when the store has no list), and request frame 0. */
    method DisplayRegion(store: Store, index: int)
      requires ShowableAt(store, index)
      modifies this`currentRegion, this`lines, this`points, this`requests
      ensures RegionOf(store, index)
      ensures requests == old(requests) + [0]
    {
      currentRegion := Some(RegionAt(store.regions, index));
      var lineMarkers := store.linesForRegion(index);
      var pointMarkers := store.pointsForRegion(index);

      lines := Some([]);
      points := Some([]);
      if lineMarkers.Some? {
        var fs := lineMarkers.value;
        for k := 0 to |fs|
          invariant lines == Some(Firsts(fs[..k]))
          modifies this`lines
        {
          assert fs[..k + 1][..k] == fs[..k];
          lines := Some(lines.value + [fs[k][0]]);
        }
        assert fs[..|fs|] == fs;
      }
      if pointMarkers.Some? {
        var fs := pointMarkers.value;
        for k := 0 to |fs|
          invariant points == Some(Firsts(fs[..k]))
          modifies this`points
        {
          assert fs[..k + 1][..k] == fs[..k];
          points := Some(points.value + [fs[k][0]]);
        }
        assert fs[..|fs|] == fs;
      }
      requests := requests + [0];
    }

    /** `display_image` without the pixmap: the scene is cleared and holds a clone of every
        start line, then of every start point, drawn with the display pen. The source reads
        the displayed region first, so a region must have been displayed. */
    method DisplayImage(pen: nat, lineHash: Item -> int, pointHash: Item -> int)
      requires currentRegion.Some? && RegionReady()
      modifies this`scene
      ensures |scene| == |lines.value| + |points.value|
      ensures forall k :: 0 <= k < |lines.value| ==>
                scene[k] == CloneLine(lines.value[k], pen, lineHash(lines.value[k]))
      ensures forall k :: 0 <= k < |points.value| ==>
                scene[|lines.value| + k] == ClonePoint(points.value[k], pen, pointHash(points.value[k]))
    {
      var startLines := lines.value;
      var startPoints := points.value;
      scene := [];
      for k := 0 to |startLines|
        invariant |scene| == k
        invariant forall m :: 0 <= m < k ==> scene[m] == CloneLine(startLines[m], pen, lineHash(startLines[m]))
      {
        scene := scene + [CloneLine(startLines[k], pen, lineHash(startLines[k]))];
      }
      for k := 0 to |startPoints|
        invariant |scene| == |startLines| + k
        invariant forall m :: 0 <= m < |startLines| ==> scene[m] == CloneLine(startLines[m], pen, lineHash(startLines[m]))
        invariant forall m :: 0 <= m < k ==>
                    scene[|startLines| + m] == ClonePoint(startPoints[m], pen, pointHash(startPoints[m]))
      {
        scene := scene + [ClonePoint(startPoints[k], pen, pointHash(startPoints[k]))];
      }
    }
  }
}
