/** A plotly figure as the dashboard stores it (a list of traces plus a
    scene layout), and `add_traces_to_figure`
    (src/plotly_helpers.py:480-522), which appends text labels and cone
    markers described by trace records.
 */
module Figure {
  import opened Results
  import opened Surface
  import opened Layout

  datatype Trace =
    | Surf(surface: SurfaceTrace)
      /** `add_scatter3d(mode='text')`: a text label at one point. */
    | Label(x: real, y: real, z: real, text: string)
      /** `add_cone(anchor="tip")`: a cone of direction `(u, v, w)` in one colour. */
    | Cone(x: real, y: real, z: real, u: int, v: int, w: int, color: string)

  /** `uiRevision` is the `uirevision` attribute set when a pair is selected. */
  datatype Figure = Figure(traces: seq<Trace>, layout: SceneLayout, uiRevision: Option<string>)

  /** One input record of `add_traces_to_figure`: its 'type', coordinates,
      and the optional 'text' and 'color' keys. */
  datatype TraceRecord = TraceRecord(kind: string, x: real, y: real, z: real,
                                     text: Option<string>, color: Option<string>)

  const Scatter3d := "scatter3d"
  const ConeKind := "cone"

  /** The record's type is one the function draws; others are skipped. */
  predicate Drawn(d: TraceRecord)
  {
    d.kind == Scatter3d || d.kind == ConeKind
  }

  /** The record carries the key its type reads ('text' or 'color'). */
  predicate Complete(d: TraceRecord)
  {
    (d.kind == Scatter3d ==> d.text.Some?) && (d.kind == ConeKind ==> d.color.Some?)
  }

  /** The key an incomplete record lacks: 'text' for a label, 'color' for a cone. */
  function MissingKey(d: TraceRecord): Error
  {
    KeyMissing(if d.kind == Scatter3d then "text" else "color")
  }

  /** The trace a drawn, complete record becomes. */
  function Render(d: TraceRecord): (t: Trace)
    requires Drawn(d) && Complete(d)
  {
    if d.kind == Scatter3d then Label(d.x, d.y, d.z, d.text.value)
    else Cone(d.x, d.y, d.z, 0, 0, -2, d.color.value)
  }

  /** How many of the records are drawn. */
  function CountDrawn(data: seq<TraceRecord>): nat
  {
    if |data| == 0 then 0 else (if Drawn(data[0]) then 1 else 0) + CountDrawn(data[1..])
  }

  /** `add_traces_to_figure(figure, data)`: a record whose key is missing
      raises a KeyError. */
  function AddTracesToFigure(fig: Figure, data: seq<TraceRecord>): (r: Result<Figure>)
    ensures r.Success? <==> forall k :: 0 <= k < |data| ==> Complete(data[k])
    ensures r.Failure? ==>
      exists k :: (0 <= k < |data| && !Complete(data[k]) && (forall j :: 0 <= j < k ==> Complete(data[j]))
                   && r.error == MissingKey(data[k]))
    ensures r.Success? ==>
      && r.value.layout == fig.layout && r.value.uiRevision == fig.uiRevision
      && |r.value.traces| == |fig.traces| + CountDrawn(data)
      && r.value.traces[..|fig.traces|] == fig.traces
      && forall k :: |fig.traces| <= k < |r.value.traces| ==>
           (r.value.traces[k].Label? || (r.value.traces[k].Cone? && r.value.traces[k].u == 0
             && r.value.traces[k].v == 0 && r.value.traces[k].w == -2))
    decreases |data|
  {
    if |data| == 0 then Success(fig)
    else
      var d := data[0];
      assert forall k :: 1 <= k < |data| ==> data[1..][k - 1] == data[k];
      if d.kind == Scatter3d then
        if d.text.None? then Failure(KeyMissing("text"))
        else AddTracesToFigure(fig.(traces := fig.traces + [Render(d)]), data[1..])
      else if d.kind == ConeKind then
        if d.color.None? then Failure(KeyMissing("color"))
        else AddTracesToFigure(fig.(traces := fig.traces + [Render(d)]), data[1..])
      else AddTracesToFigure(fig, data[1..])
  }

  /** Adding two batches one after the other is adding their concatenation. */
  lemma {:induction false} AddTracesConcat(fig: Figure, a: seq<TraceRecord>, b: seq<TraceRecord>)
    requires AddTracesToFigure(fig, a).Success?
    ensures AddTracesToFigure(fig, a + b) == AddTracesToFigure(AddTracesToFigure(fig, a).value, b)
    decreases |a|
  {
    if |a| == 0 {
      assert a + b == b;
    } else {
      assert (a + b)[1..] == a[1..] + b;
      assert (a + b)[0] == a[0];
      var d := a[0];
      if Drawn(d) {
        AddTracesConcat(fig.(traces := fig.traces + [Render(d)]), a[1..], b);
      } else {
        AddTracesConcat(fig, a[1..], b);
      }
    }
  }

  /** A single record adds exactly its rendering when it is drawn, and
      nothing when its type is another one. */
  lemma AddOneTrace(fig: Figure, d: TraceRecord)
    requires Complete(d)
    ensures Drawn(d) ==> AddTracesToFigure(fig, [d]) == Success(fig.(traces := fig.traces + [Render(d)]))
    ensures !Drawn(d) ==> AddTracesToFigure(fig, [d]) == Success(fig)
  {
    assert [d][1..] == [];
  }

  /** When every record is drawn, the k-th record becomes the k-th new trace:
      one trace per record, in input order. */
  lemma {:induction false} AddTracesInOrder(fig: Figure, data: seq<TraceRecord>)
    requires forall k :: 0 <= k < |data| ==> Drawn(data[k]) && Complete(data[k])
    ensures AddTracesToFigure(fig, data).Success?
    ensures |AddTracesToFigure(fig, data).value.traces| == |fig.traces| + |data|
    ensures forall k :: 0 <= k < |data| ==>
      AddTracesToFigure(fig, data).value.traces[|fig.traces| + k] == Render(data[k])
    decreases |data|
  {
    if |data| > 0 {
      var d := data[0];
      var next := fig.(traces := fig.traces + [Render(d)]);
      AddTracesInOrder(next, data[1..]);
      assert AddTracesToFigure(fig, data) == AddTracesToFigure(next, data[1..]);
      var r := AddTracesToFigure(fig, data).value;
      forall k | 0 <= k < |data|
        ensures r.traces[|fig.traces| + k] == Render(data[k])
      {
        if k == 0 {
          assert r.traces[..|next.traces|] == next.traces;
          assert r.traces[|fig.traces|] == next.traces[|fig.traces|];
        } else {
          assert r.traces[|next.traces| + (k - 1)] == Render(data[1..][k - 1]);
        }
      }
    }
  }
}
