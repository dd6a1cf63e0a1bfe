/** The pure decision each dashboard callback of src/app.py makes
    (lines 216-360): the camera readout, selecting a pair, adding an
    annotation, and showing the stored figure. The figure store is a
    dictionary from selection keys to figures; every callback returns the
    new store instead of changing it in place.
 */
module Callbacks {
  import opened Results
  import opened Strings
  import opened Figure
  import opened Grids
  import opened Pairs

  type FigureStore = map<string, Figure>

  /** The dataset group a selection key belongs to: 3 for wave-period SEE,
      2 for wave-period EV, 1 for current-speed SEE, 0 for current-speed EV. */
  function GroupIndex(title: string): (r: Result<nat>)
    ensures r.Success? <==> Contains(title, "SEE") || Contains(title, "EV")
    ensures r.Failure? ==> r.error == InvalidTitle(title)
    ensures r.Success? ==> r.value < 4
    ensures r.Success? ==> (r.value >= 2 <==> Contains(title, "WPI"))
    ensures r.Success? ==> (r.value % 2 == 1 <==> Contains(title, "SEE"))
  {
    if Contains(title, "WPI") && Contains(title, "SEE") then Success(3)
    else if Contains(title, "WPI") && Contains(title, "EV") then Success(2)
    else if !Contains(title, "WPI") && Contains(title, "SEE") then Success(1)
    else if !Contains(title, "WPI") && Contains(title, "EV") then Success(0)
    else Failure(InvalidTitle(title))
  }

  /** For names free of '+', the group of their key is decided by the
      names: wave-period when either name says "WPI", SEE when either
      says "SEE", and invalid when neither says "SEE" or "EV". */
  lemma GroupIndexOfKey(name1: string, name2: string)
    requires '+' !in name1 && '+' !in name2
    ensures var r := GroupIndex(SelectionKey(name1, name2));
      && (r.Success? <==> Contains(name1, "SEE") || Contains(name2, "SEE") || Contains(name1, "EV") || Contains(name2, "EV"))
      && (r.Success? ==> (r.value >= 2 <==> Contains(name1, "WPI") || Contains(name2, "WPI")))
      && (r.Success? ==> (r.value % 2 == 1 <==> Contains(name1, "SEE") || Contains(name2, "SEE")))
  {
    assert SelectionKey(name1, name2) == name1 + ['+'] + name2;
    SeparatedContains(name1, '+', name2, "WPI");
    SeparatedContains(name1, '+', name2, "SEE");
    SeparatedContains(name1, '+', name2, "EV");
  }

  /** The dataset group a key selects, when its classification names one. */
  predicate GroupExists(title: string, groups: seq<Group>)
  {
    GroupIndex(title).Success? && GroupIndex(title).value < |groups|
  }

  /** The grids of the selected group. */
  function GroupFiles(title: string, groups: seq<Group>): map<string, Grid>
    requires GroupExists(title, groups)
  {
    groups[GroupIndex(title).value].files
  }

  /** `select_graph(title, figures_dict)`: split the key, find the group,
      rebuild the pair's layout from the loaded grids, and replace the
      stored figure's layout (and `uirevision`) under the same key. Each
      step raises in the order the code reaches it. */
  function SelectGraph(title: string, store: FigureStore, groups: seq<Group>): (r: Result<(Figure, FigureStore)>)
    ensures var parts := Split(title, '+');
      r.Success? <==>
        && |parts| >= 2
        && GroupExists(title, groups)
        && parts[0] in GroupFiles(title, groups) && parts[1] in GroupFiles(title, groups)
        && PairLayout(parts[0], parts[1], GroupFiles(title, groups)[parts[0]], GroupFiles(title, groups)[parts[1]]).Success?
        && title in store
    ensures r.Success? ==>
      var (fig, newStore) := r.value;
      var parts := Split(title, '+');
      && |parts| >= 2 && GroupExists(title, groups) && title in store
      && newStore == store[title := fig]
      && newStore.Keys == store.Keys
      && fig.traces == store[title].traces
      && fig.uiRevision == Some(title)
      && parts[0] in GroupFiles(title, groups) && parts[1] in GroupFiles(title, groups)
      && Success(fig.layout)
         == PairLayout(parts[0], parts[1], GroupFiles(title, groups)[parts[0]], GroupFiles(title, groups)[parts[1]])
    ensures |Split(title, '+')| < 2 ==> r == Failure(IndexOutOfRange)
    ensures |Split(title, '+')| >= 2 && GroupIndex(title).Failure? ==> r == Failure(InvalidTitle(title))
    ensures |Split(title, '+')| >= 2 && GroupIndex(title).Success? && !GroupExists(title, groups) ==>
      r == Failure(IndexOutOfRange)
    ensures var parts := Split(title, '+');
      |parts| >= 2 && GroupExists(title, groups) && parts[0] !in GroupFiles(title, groups) ==>
        r == Failure(KeyMissing(parts[0]))
    ensures var parts := Split(title, '+');
      |parts| >= 2 && GroupExists(title, groups) && parts[0] in GroupFiles(title, groups)
      && parts[1] !in GroupFiles(title, groups) ==>
        r == Failure(KeyMissing(parts[1]))
    ensures var parts := Split(title, '+');
      |parts| >= 2 && GroupExists(title, groups)
      && parts[0] in GroupFiles(title, groups) && parts[1] in GroupFiles(title, groups)
      && PairLayout(parts[0], parts[1], GroupFiles(title, groups)[parts[0]], GroupFiles(title, groups)[parts[1]]).Failure? ==>
        r == Failure(IndexOutOfRange)
    ensures var parts := Split(title, '+');
      |parts| >= 2 && GroupExists(title, groups)
      && parts[0] in GroupFiles(title, groups) && parts[1] in GroupFiles(title, groups)
      && PairLayout(parts[0], parts[1], GroupFiles(title, groups)[parts[0]], GroupFiles(title, groups)[parts[1]]).Success?
      && title !in store ==>
        r == Failure(KeyMissing(title))
  {
    var parts := Split(title, '+');
    if |parts| < 2 then Failure(IndexOutOfRange)
    else
      var name1, name2 := parts[0], parts[1];
      var index :- GroupIndex(title);
      if index >= |groups| then Failure(IndexOutOfRange)
      else
        var g := groups[index];
        var grid1 :- Lookup(g.files, name1);
        var grid2 :- Lookup(g.files, name2);
        var layout :- PairLayout(name1, name2, grid1, grid2);
        var stored :- Lookup(store, title);
        var fig := stored.(layout := layout, uiRevision := Some(title));
        Success((fig, store[title := fig]))
  }

  /** Selecting the key of two '+'-free names succeeds exactly when the key
      names a group holding both names with grids that have corners and the
      key is stored; the layout is then rebuilt for exactly that pair. */
  lemma SelectGraphOfKey(name1: string, name2: string, store: FigureStore, groups: seq<Group>)
    requires '+' !in name1 && '+' !in name2
    ensures var key := SelectionKey(name1, name2);
      SelectGraph(key, store, groups).Success? <==>
        && GroupExists(key, groups)
        && name1 in GroupFiles(key, groups) && name2 in GroupFiles(key, groups)
        && PairLayout(name1, name2, GroupFiles(key, groups)[name1], GroupFiles(key, groups)[name2]).Success?
        && key in store
    ensures var key := SelectionKey(name1, name2);
      SelectGraph(key, store, groups).Success? ==>
        && name1 in GroupFiles(key, groups) && name2 in GroupFiles(key, groups)
        && Success(SelectGraph(key, store, groups).value.0.layout)
           == PairLayout(name1, name2, GroupFiles(key, groups)[name1], GroupFiles(key, groups)[name2])
  {
    SelectionKeyRoundTrip(name1, name2);
  }

  /** The two records `add_trace` passes to `add_traces_to_figure`: a text
      label at the point and a cone whose tip is one unit below it. */
  function AnnotationRecords(x: real, y: real, z: real, text: string, color: string): seq<TraceRecord>
  {
    [TraceRecord(Scatter3d, x, y, z, Some(text), None),
     TraceRecord(ConeKind, x, y, z - 1.0, None, Some(color))]
  }

  /** `add_trace(n_clicks, x, y, z, text, color, figure_dict, selected_graph, figures_dict)`:
      without a click the store is returned as it is; otherwise the selected
      key (and only it) is set to the displayed figure plus a label and a
      cone. */
  function AddTrace(nClicks: Option<int>, x: real, y: real, z: real, text: string, color: string,
                    displayed: Figure, selected: string, store: FigureStore): (r: FigureStore)
    ensures nClicks.None? ==> r == store
    ensures nClicks.Some? ==>
      && r.Keys == store.Keys + {selected}
      && (forall key :: key in store && key != selected ==> r[key] == store[key])
      && r[selected].layout == displayed.layout
      && r[selected].uiRevision == displayed.uiRevision
      && |r[selected].traces| == |displayed.traces| + 2
      && r[selected].traces[..|displayed.traces|] == displayed.traces
      && r[selected].traces[|displayed.traces|] == Label(x, y, z, text)
      && r[selected].traces[|displayed.traces| + 1] == Cone(x, y, z - 1.0, 0, 0, -2, color)
  {
    if nClicks.None? then store
    else
      var records := AnnotationRecords(x, y, z, text, color);
      AddTracesInOrder(displayed, records);
      var figure := AddTracesToFigure(displayed, records).value;
      store[selected := figure]
  }

  /** The prop that fired `update_graph`. */
  const StoreData := "figure-store.data"

  datatype GraphUpdate = PreventUpdate | Show(figure: Figure)

  /** `update_graph(figures_dict, selected_graph)`: show the stored figure
      of the selected key when the store changed; a selector change leaves
      the graph to `select_graph`. */
  function UpdateGraph(triggeredProp: string, store: FigureStore, selected: string): (r: Result<GraphUpdate>)
    ensures triggeredProp != StoreData ==> r == Success(PreventUpdate)
    ensures triggeredProp == StoreData && selected in store ==> r == Success(Show(store[selected]))
    ensures triggeredProp == StoreData && selected !in store ==> r == Failure(KeyMissing(selected))
  {
    if triggeredProp == StoreData then
      var fig :- Lookup(store, selected);
      Success(Show(fig))
    else Success(PreventUpdate)
  }

  /** Annotations accumulate: after a click the store update redraws the
      selected figure, and a second click on that figure adds two more
      traces after the first two. */
  lemma AnnotationsAccumulate(
    displayed: Figure, selected: string, store: FigureStore,
    x1: real, y1: real, z1: real, text1: string, color1: string,
    x2: real, y2: real, z2: real, text2: string, color2: string)
    ensures var store1 := AddTrace(Some(1), x1, y1, z1, text1, color1, displayed, selected, store);
      var shown := UpdateGraph(StoreData, store1, selected);
      && shown.Success? && shown.value.Show?
      && var store2 := AddTrace(Some(2), x2, y2, z2, text2, color2, shown.value.figure, selected, store1);
         && |store2[selected].traces| == |displayed.traces| + 4
         && store2[selected].traces[..|displayed.traces|] == displayed.traces
         && store2[selected].traces[|displayed.traces|] == Label(x1, y1, z1, text1)
         && store2[selected].traces[|displayed.traces| + 2] == Label(x2, y2, z2, text2)
         && store2[selected].traces[|displayed.traces| + 3] == Cone(x2, y2, z2 - 1.0, 0, 0, -2, color2)
  {
    var store1 := AddTrace(Some(1), x1, y1, z1, text1, color1, displayed, selected, store);
    var fig1 := store1[selected];
    var store2 := AddTrace(Some(2), x2, y2, z2, text2, color2, fig1, selected, store1);
    var n := |displayed.traces|;
    assert store2[selected].traces[..n + 2] == fig1.traces;
    assert store2[selected].traces[..n] == fig1.traces[..n];
    assert store2[selected].traces[n] == fig1.traces[n];
  }
}
