/** The scene layout of `create_layout` (src/plotly_helpers.py:285-462):
    axis ranges and ticks, the three axis-title annotations and the two
    pointer annotations at each grid's bottom-right value, all chosen by
    substring tests on the first surface name. Fonts, colours, margins and
    camera defaults are not modelled.
 */
module Layout {
  import opened Results
  import opened Strings
  import opened Grids

  /** `range=[first, second]` (a reversed axis has `first > second`). */
  datatype Axis = Axis(first: real, second: real, tickVals: seq<real>, tickText: seq<string>)

  /** The arrow of an annotation drawn with `showarrow`, offset `(ax, ay)` in pixels. */
  datatype Arrow = Arrow(ax: int, ay: int)

  datatype Annotation = Annotation(x: real, y: real, z: real, text: string, arrow: Option<Arrow>)

  datatype SceneLayout = SceneLayout(
    xaxis: Axis,
    yaxis: Axis,
    zaxis: Axis,
    annotations: seq<Annotation>,
    aspectX: real,
    aspectY: real,
    aspectZ: real
  )

  const XAxis := Axis(0.0, 10.0, [0.0, 2.0, 4.0, 6.0, 8.0, 10.0], ["0", "2", "4", "6", "8", "10"])

  const YTickValsCurrent: seq<real> := [0.0, 0.5, 1.0, 1.5]
  const YTickTextCurrent: seq<string> := ["0", "0.5", "1.0", "1.5"]
  const YTickValsPeriod: seq<real> := [15.0, 12.0, 9.0, 6.0]
  const YTickTextPeriod: seq<string> := ["15", "12", "9", "6"]

  /** The short z tick list, 0 to 14 by 2. */
  const ZTickValsShort: seq<real> := [0.0, 2.0, 4.0, 6.0, 8.0, 10.0, 12.0, 14.0]
  const ZTickTextShort: seq<string> := ["", "2", "4", "6", "8", "10", "12", "14"]
  /** The long z tick list, 0 to 20 by 2. */
  const ZTickValsLong: seq<real> := [0.0, 2.0, 4.0, 6.0, 8.0, 10.0, 12.0, 14.0, 16.0, 18.0, 20.0]
  const ZTickTextLong: seq<string> := ["", "2", "4", "6", "8", "10", "12", "14", "16", "18", "20"]

  /** Every axis has one label per tick value. */
  predicate TicksLabelled(a: Axis)
  {
    |a.tickVals| == |a.tickText|
  }

  /** `create_layout(x_label, y_label, z_label, surface_1_name, surface_2_name,
      surface_1_2d_list, surface_2_2d_list, x_scale, y_scale, z_scale)`. */
  function CreateLayout(
    xLabel: string, yLabel: string, zLabel: string,
    name1: string, name2: string, grid1: Grid, grid2: Grid,
    xScale: real, yScale: real, zScale: real): (r: Result<SceneLayout>)
    ensures r.Success? <==> Corner(grid1).Success? && Corner(grid2).Success?
    ensures r.Failure? ==> r.error == IndexOutOfRange
    ensures r.Success? ==> var l := r.value;
      && TicksLabelled(l.xaxis) && TicksLabelled(l.yaxis) && TicksLabelled(l.zaxis)
      && l.xaxis.first == 0.0 && l.xaxis.second == 10.0
      && ((l.yaxis.first, l.yaxis.second) == (15.0, 6.0) <==> Contains(name1, "WPI"))
      && ((l.yaxis.first, l.yaxis.second) == (0.0, 1.5) <==> !Contains(name1, "WPI"))
      && (l.yaxis.tickVals == YTickValsPeriod <==> Contains(name1, "WPI"))
      && (l.yaxis.tickVals == YTickValsCurrent <==> !Contains(name1, "WPI"))
      && ((l.zaxis.first, l.zaxis.second) == (0.0, 14.0) <==> Contains(name1, "SEE"))
      && ((l.zaxis.first, l.zaxis.second) == (0.0, 6.0) <==> !Contains(name1, "SEE"))
      && (l.zaxis.tickVals == ZTickValsLong <==> Contains(name1, "WPI"))
      && (l.zaxis.tickVals == ZTickValsShort <==> !Contains(name1, "WPI"))
      && l.zaxis.tickVals[0] == 0.0 && l.zaxis.tickText[0] == ""
      && (l.aspectX, l.aspectY, l.aspectZ) == (xScale, yScale, zScale)
      && |l.annotations| == 5
      && l.annotations[0] == Annotation(3.0, 0.2, 0.0, xLabel, None)
      && l.annotations[1] == Annotation(9.8, 0.25, 0.0, yLabel, None)
      && l.annotations[2] == Annotation(0.0, 0.02, if Contains(name1, "SEE") then 7.0 else 3.0, zLabel, None)
      && PointerAt(l.annotations[3], name1, Corner(grid1).value, Contains(name1, "WPI"), -20)
      && PointerAt(l.annotations[4], name2, Corner(grid2).value, Contains(name1, "WPI"), 20)
  {
    var isWpi := Contains(name1, "WPI");
    var isSee := Contains(name1, "SEE");
    var corner1 :- Corner(grid1);
    var corner2 :- Corner(grid2);
    var yaxis :=
      if isWpi then Axis(15.0, 6.0, YTickValsPeriod, YTickTextPeriod)
      else Axis(0.0, 1.5, YTickValsCurrent, YTickTextCurrent);
    var zRangeTop := if isSee then 14.0 else 6.0;
    var zaxis :=
      if isWpi then Axis(0.0, zRangeTop, ZTickValsLong, ZTickTextLong)
      else Axis(0.0, zRangeTop, ZTickValsShort, ZTickTextShort);
    var pointerY := if !isWpi then 1.5 else 0.5;
    Success(SceneLayout(
      XAxis, yaxis, zaxis,
      [ Annotation(3.0, 0.2, 0.0, xLabel, None),
        Annotation(9.8, 0.25, 0.0, yLabel, None),
        Annotation(0.0, 0.02, if !isSee then 3.0 else 7.0, zLabel, None),
        Annotation(10.0, pointerY, corner1, name1, Some(Arrow(70, -20))),
        Annotation(10.0, pointerY, corner2, name2, Some(Arrow(70, 20))) ],
      xScale, yScale, zScale))
  }

  /** A pointer annotation: at the far x edge (10), at y 0.5 on a wave-period
      axis and 1.5 on a current-speed axis, at height `z`, labelled with the
      surface name, its arrow offset vertically by `ay`. */
  ghost predicate PointerAt(a: Annotation, name: string, z: real, periodAxis: bool, ay: int)
  {
    && a.x == 10.0
    && a.y == (if periodAxis then 0.5 else 1.5)
    && a.z == z
    && a.text == name
    && a.arrow == Some(Arrow(70, ay))
  }
}
