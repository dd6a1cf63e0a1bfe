/** The camera readout of `get_cam_data` (src/plotly_helpers.py:111-161):
    the `scene.camera` entry of a graph's relayout data flattened into the
    rows x, y, z of an Axis | Eye | Center table. The table component that
    renders the rows is not modelled.
 */
module Camera {
  import opened Results

  /** A `scene.camera` payload: sub-dictionaries such as "eye" and "center",
      each mapping axis names to coordinates. */
  type CameraData = map<string, map<string, real>>

  /** The relayout data of a graph, reduced to the payloads the readout can
      look at; only the entry under "scene.camera" is ever read. */
  type RelayoutData = map<string, CameraData>

  datatype CamRow = CamRow(axis: string, eye: Option<real>, center: Option<real>)

  datatype CamReadout = Message(text: string) | Table(rows: seq<CamRow>)

  const CameraKey := "scene.camera"
  const NoCameraMessage := "Interact with the graph to see camera properties"
  const Axes: seq<string> := ["x", "y", "z"]

  /** `camera_data[part].get(axis, None)` when `part` is present, else None. */
  function Coordinate(camera: CameraData, part: string, axis: string): Option<real>
  {
    if part in camera && axis in camera[part] then Some(camera[part][axis]) else None
  }

  /** `get_cam_data(relayoutData, input_graph)`, keeping the row data. */
  method GetCamData(relayout: Option<RelayoutData>) returns (out: CamReadout)
    ensures out.Message? <==> relayout.None? || CameraKey !in relayout.value
    ensures out.Message? ==> out.text == NoCameraMessage
    ensures out.Table? ==> |out.rows| == 3
    ensures out.Table? ==> forall i :: 0 <= i < 3 ==>
      && out.rows[i].axis == Axes[i]
      && out.rows[i].eye == Coordinate(relayout.value[CameraKey], "eye", Axes[i])
      && out.rows[i].center == Coordinate(relayout.value[CameraKey], "center", Axes[i])
  {
    if relayout.None? || CameraKey !in relayout.value {
      return Message(NoCameraMessage);
    }
    var camera := relayout.value[CameraKey];
    var eye: seq<Option<real>> := [None, None, None];
    var center: seq<Option<real>> := [None, None, None];
    var parts := ["eye", "center"];
    for p := 0 to 2
      invariant |eye| == 3 && |center| == 3
      invariant forall i :: 0 <= i < 3 ==> eye[i] == (if p > 0 then Coordinate(camera, "eye", Axes[i]) else None)
      invariant forall i :: 0 <= i < 3 ==> center[i] == (if p > 1 then Coordinate(camera, "center", Axes[i]) else None)
    {
      var part := parts[p];
      if part in camera {
        var sub := camera[part];
        for i := 0 to 3
          invariant |eye| == 3 && |center| == 3
          invariant forall k :: 0 <= k < 3 ==>
            eye[k] == (if p > 0 || (p == 0 && k < i) then Coordinate(camera, "eye", Axes[k]) else None)
          invariant forall k :: 0 <= k < 3 ==>
            center[k] == (if p > 1 || (p == 1 && k < i) then Coordinate(camera, "center", Axes[k]) else None)
        {
          var value := if Axes[i] in sub then Some(sub[Axes[i]]) else None;
          if p == 0 {
            eye := eye[i := value];
          } else {
            center := center[i := value];
          }
        }
      } else {
        assert forall i :: 0 <= i < 3 ==> Coordinate(camera, part, Axes[i]) == None;
      }
    }
    var rows := seq(3, i requires 0 <= i < 3 => CamRow(Axes[i], eye[i], center[i]));
    return Table(rows);
  }
}
