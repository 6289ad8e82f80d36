/** Which regions the region display label reports on a mouse press and which it paints
    (`cgt/gui/regiondisplaylabel.py`). The label's index selects all regions (0), the single
    region `index - 1` (positive) or, for presses, none (negative). Whether a rectangle
    contains a point is Qt's business: it is a parameter here. */
module RegionLabel {
  import opened Geometry

  datatype MouseButton = LeftButton | OtherMouseButton

  /** The regions among the first `n` that contain `pos`, in ascending order. */
  function HitsUpTo(regions: seq<Rect>, n: nat, pos: Point, contains: (Rect, Point) -> bool): seq<nat>
    requires n <= |regions|
    decreases n
  {
    if n == 0 then []
    else HitsUpTo(regions, n - 1, pos, contains) + (if contains(regions[n - 1], pos) then [n - 1] else [])
  }

  /** What a left press reports, for a label that is not playing: every region containing
      the point (index 0), region `index - 1` if it contains the point (positive index),
      nothing (negative index). */
  function Reported(index: int, regions: seq<Rect>, pos: Point, contains: (Rect, Point) -> bool): seq<nat>
    requires index > 0 ==> index - 1 < |regions|
  {
    if index < 0 then []
    else if index == 0 then HitsUpTo(regions, |regions|, pos, contains)
    else if contains(regions[index - 1], pos) then [index - 1]
    else []
  }

  /** The hits are exactly the regions below `n` that contain the point, strictly ascending. */
  lemma {:induction false} HitsUpToExact(regions: seq<Rect>, n: nat, pos: Point, contains: (Rect, Point) -> bool)
    requires n <= |regions|
    ensures forall i: nat :: i in HitsUpTo(regions, n, pos, contains) <==> i < n && contains(regions[i], pos)
    ensures forall a, b :: 0 <= a < b < |HitsUpTo(regions, n, pos, contains)| ==>
              HitsUpTo(regions, n, pos, contains)[a] < HitsUpTo(regions, n, pos, contains)[b]
    ensures forall a :: 0 <= a < |HitsUpTo(regions, n, pos, contains)| ==> HitsUpTo(regions, n, pos, contains)[a] < n
    decreases n
  {
    if n > 0 {
      HitsUpToExact(regions, n - 1, pos, contains);
    }
  }

  /** With index 0 every containing region is reported once, in ascending order; with a
      positive index region `index - 1` exactly when it contains the point, and nothing
      otherwise; with a negative index nothing. */
  lemma ReportedRegions(index: int, regions: seq<Rect>, pos: Point, contains: (Rect, Point) -> bool)
    requires index > 0 ==> index - 1 < |regions|
    ensures index == 0 ==>
              (forall i: nat :: i in Reported(index, regions, pos, contains) <==> i < |regions| && contains(regions[i], pos))
              && forall a, b :: 0 <= a < b < |Reported(index, regions, pos, contains)| ==>
                   Reported(index, regions, pos, contains)[a] < Reported(index, regions, pos, contains)[b]
    ensures index > 0 ==>
              Reported(index, regions, pos, contains) == (if contains(regions[index - 1], pos) then [index - 1] else [])
    ensures index < 0 ==> Reported(index, regions, pos, contains) == []
  {
    HitsUpToExact(regions, |regions|, pos, contains);
  }

  /** The region indices `paintEvent` asks for, in order: all of them for index 0, otherwise
      `index - 1` alone, which for a negative index is itself negative. */
  function Painted(index: int, regionCount: nat): (drawn: seq<int>)
    ensures index == 0 ==> |drawn| == regionCount && forall i :: 0 <= i < regionCount ==> drawn[i] == i
    ensures index != 0 ==> drawn == [index - 1]
  {
    if index == 0 then seq(regionCount, i requires 0 <= i < regionCount => i) else [index - 1]
  }

  /** The centre cross of `draw_rectangle`: a horizontal and a vertical line through the
      centre, each reaching 5 pixels to either side of it. */
  function CrossArms(centre: Point): (arms: (Segment, Segment))
    ensures arms.0.a.y == centre.y == arms.0.b.y && arms.0.b.x - arms.0.a.x == 10
    ensures arms.0.a.x + arms.0.b.x == 2 * centre.x
    ensures arms.1.a.x == centre.x == arms.1.b.x && arms.1.b.y - arms.1.a.y == 10
    ensures arms.1.a.y + arms.1.b.y == 2 * centre.y
  {
    var left := Point(centre.x - 5, centre.y);
    var right := Point(centre.x + 5, centre.y);
    var top := Point(centre.x, centre.y - 5);
    var bottom := Point(centre.x, centre.y + 5);
    (Segment(left, right), Segment(top, bottom))
  }

  class RegionDisplayLabel {
    var index: int
    /** The region indices emitted on `region_selected`, oldest first. */
    var selected: seq<nat>
    /** The region indices the latest paint asked for. */
    var drawn: seq<int>

    constructor ()
      ensures index == -1 && selected == [] && drawn == []
    {
      index := -1;
      selected := [];
      drawn := [];
    }

    /** `display_rectangle`: select what is shown, then repaint. */
    method DisplayRectangle(i: int, regionCount: nat)
      modifies this`index, this`drawn
      ensures index == i && drawn == Painted(i, regionCount)
    {
      index := i;
      PaintEvent(regionCount);
    }

    /** `mousePressEvent`: ignored while playing, for a button other than the left one, or
        for a negative index; otherwise the regions containing the point are reported. */
    method MousePressEvent(playing: bool, button: MouseButton, pos: Point,
                           regions: seq<Rect>, contains: (Rect, Point) -> bool)
      requires !playing && button == LeftButton && index > 0 ==> index - 1 < |regions|
      modifies this`selected
      ensures playing || button != LeftButton ==> selected == old(selected)
      ensures !playing && button == LeftButton ==>
                selected == old(selected) + Reported(index, regions, pos, contains)
    {
      if playing || button != LeftButton {
        return;
      }
      if index < 0 {
        return;
      }
      if index == 0 {
        for i := 0 to |regions|
          invariant selected == old(selected) + HitsUpTo(regions, i, pos, contains)
        {
          var rect := regions[i];
          if contains(rect, pos) {
            selected := selected + [i];
          }
        }
      } else {
        var rect := regions[index - 1];
        if contains(rect, pos) {
          selected := selected + [index - 1];
        }
      }
    }

    /** `paintEvent`: draws every region for index 0, otherwise region `index - 1`. */
    method PaintEvent(regionCount: nat)
      modifies this`drawn
      ensures drawn == Painted(index, regionCount)
    {
      drawn := [];
      if index == 0 {
        var stop := regionCount;
        for i := 0 to stop
          invariant drawn == Painted(0, i)
        {
          drawn := drawn + [i];
        }
      } else {
        var i := index - 1;
        drawn := drawn + [i];
      }
    }
  }
}
