# surface-plots: a Dafny model of the dashboard core

The surface-plots dashboard draws pairs of 3-D surfaces (wave height by
wave period or current speed, coloured by an SEE or EVRD index group) in a
Dash app. This project models its core in Dafny:

- `src/plotly_helpers.py`:
  - the stepped, discrete colorscale (`make_colorscale_distinct`);
  - the surface trace and its colorbar ticks (`create_surface`);
  - the scene layout and its pointer annotations (`create_layout` with its
    `grid[-1][-1]` helper);
  - the camera readout (`get_cam_data`);
  - the appending of label and cone traces (`add_traces_to_figure`).
- `src/app.py`:
  - the start-up construction of every pair's figure and the figure store;
  - the callbacks that select a pair, add an annotation and redraw the
    stored figure.

Plotly objects become plain datatypes holding the fields the code sets from
its inputs. A Python exception becomes a `Failure` of the `Result` type
(`results.dfy`); the error variants follow the exceptions the code can raise.
Each callback is a pure function from its inputs and the figure store to its
outputs.

| file | module | models |
|---|---|---|
| results.dfy | Results | `Option`, `Result`, error kinds, `dict[key]` |
| strings.dfy | Strings | `sub in s`, `str.split`, the selection key `f"{a}+{b}"` |
| colorscale.dfy | Colorscale | `COLOR_SCALES`, `np.linspace`, `make_colorscale_distinct` |
| grid.dfy | Grids | 2-D arrays, `.max()`, `.T`, `grid[-1][-1]` |
| surface.dfy | Surface | `np.arange`, `create_surface` |
| layout.dfy | Layout | `create_layout` |
| camera.dfy | Camera | `get_cam_data` |
| figure.dfy | Figure | figures, `add_traces_to_figure` |
| pairs.dfy | Pairs | the start-up loops and the `figures` dictionary of `app.py` |
| callbacks.dfy | Callbacks | `select_graph`, `add_trace`, `update_graph` |

### Edge cases the model keeps

- Asking `make_colorscale_distinct` for more colours than the palette holds
  does not truncate. The code slices `colors[:n_colors]` and then indexes
  `colors[i]` for every `i < n_colors`, which raises an `IndexError` at the
  first index past the palette (src/plotly_helpers.py:213-217). The model
  fails with `IndexOutOfRange` in that case.
- A colour count of `-2` or less fails in `np.linspace` before the palette
  is looked up. A count of `-1` returns an empty colorscale.
- The grids are transposed when the first name contains `"WIP"`, not
  `"WPI"`. Every other test in the code is for `"WPI"`, but the model keeps
  the literal `"WIP"`.
- The z-axis tick list is chosen by the `"WPI"` test, although the list for
  the other case is named after SEE. The z range is chosen by the `"SEE"`
  test.

## Model

| member | source | states |
|---|---|---|
| Results.Lookup | src/app.py:30-31 | `dict[key]` yields the stored value exactly when the key is present, and otherwise a KeyError naming the key |
| Results.Collect | src/app.py:26-62 | a loop that appends one value per step yields all values in order exactly when every step succeeds, and otherwise the first step's exception, with every earlier step successful |
| Strings.ContainsIffOccurs | src/app.py:33 | the recursive `sub in s` holds exactly when some window of `s` spells `sub` |
| Strings.SeparatedContains | src/app.py:263-270 | a `c`-free substring occurs in `a + c + b` exactly when it occurs in `a` or in `b` |
| Strings.Split | src/app.py:260-261 | `str.split` gives at least one piece, no piece contains the separator, and joining the pieces gives the string back |
| Strings.SplitJoin | src/app.py:260-261 | splitting a join of separator-free pieces gives back the same pieces |
| Strings.SelectionKey | src/app.py:73-74 | the key of a pair is both names with a single '+' between them |
| Strings.SelectionKeyRoundTrip | src/app.py:260-261 | splitting a selection key gives back both names exactly when neither name contains '+' |
| Colorscale.Linspace | src/plotly_helpers.py:206 | `np.linspace(0, 1, n_colors + 1)` fails exactly when the sample count is negative, naming that count; otherwise it gives n_colors + 1 points, point i being i/n_colors (a single point is 0) |
| Colorscale.PrefixSlice | src/plotly_helpers.py:213 | `colors[:n_colors]` is a prefix of the palette, of length min(n, len) for n >= 0 and max(0, len + n) for a negative bound |
| Colorscale.MakeColorscaleDistinct | src/plotly_helpers.py:206-221 | error order: a negative sample count, then a missing palette, then a count above the palette length; succeeds exactly otherwise; count -1 gives no stops; otherwise two stops per colour, at i/n and (i+1)/n, carrying palette colour i |
| Colorscale.LayOutSteps | src/plotly_helpers.py:213-219 | the loop over `colors[:n_colors]` fails exactly when the count exceeds the palette, and otherwise produces the stepped scale |
| Colorscale.StepEntry | src/plotly_helpers.py:216-219 | entry k of the scale is colour k/2 at the start (even k) or end (odd k) of its step |
| Colorscale.SteppedSorted | src/plotly_helpers.py:206-219 | stop positions never decrease along the colorscale |
| Colorscale.SteppedCoversUnitInterval | src/plotly_helpers.py:206-219 | the scale starts at 0 and ends at 1, each step is 1/n wide, and each step ends where the next begins |
| Colorscale.SteppedColorsInOrder | src/plotly_helpers.py:213-219 | the step colours are the first n palette colours, in palette order |
| Grids.Flatten | src/app.py:37-38 | the flat view is empty exactly when the array has no element, and it holds exactly the array's elements |
| Grids.GridMax | src/app.py:37-38 | `.max()` fails exactly on an array without elements; otherwise it is an element and bounds every element |
| Grids.Transpose | src/app.py:33-35 | the transpose of a rectangular array is rectangular and swaps rows and columns |
| Grids.TransposeInvolution | src/app.py:33-35 | transposing twice restores an array that has columns |
| Grids.TransposeSameElements | src/app.py:33-35 | transposition neither adds nor loses elements |
| Grids.TransposeKeepsMax | src/app.py:33-38 | the maximum taken after the optional transposition equals the maximum of the array as loaded |
| Grids.Corner | src/plotly_helpers.py:459-462 | `grid[-1][-1]` exists exactly when the last row is non-empty, and it is an element of the array |
| Grids.TransposeKeepsCorner | src/plotly_helpers.py:459-462 | the bottom-right element is the same after transposition and never exceeds the maximum |
| Surface.ArangeValues | src/plotly_helpers.py:262-265 | `np.arange` lists start + i*step while below stop, and stops at the first value that is not |
| Surface.ColorbarTicks | src/plotly_helpers.py:262-265 | the ticks are exactly the multiples of the step (2 above six groups, else 1) in [0, n_colors], ascending from 0 |
| Surface.CreateSurface | src/plotly_helpers.py:251-282 | cmin is 0 and cmax is the group count; tick values and labels are the same multiples of the tick step in [cmin, cmax]; opacity, colorbar visibility and ambient light are passed through, and diffuse light is 0.5 |
| Layout.CreateLayout | src/plotly_helpers.py:285-455 | fails exactly when either grid has no bottom-right value; y range and ticks follow "WPI" in the first name; z range and the z-title height follow "SEE"; the z tick list follows "WPI"; each axis has one label per tick; the aspect ratio is the given scales; five annotations, the last two pointing at each grid's corner value with opposite arrows |
| Camera.GetCamData | src/plotly_helpers.py:130-161 | a message exactly when there is no `scene.camera` entry; otherwise rows x, y, z whose eye and center are the camera's coordinates, or none when absent |
| Figure.AddTracesToFigure | src/plotly_helpers.py:480-522 | succeeds exactly when each record has the key its type reads, and otherwise raises a KeyError for the key ('text' or 'color') that the first incomplete record lacks; it keeps the existing traces and layout and appends one label or downward cone per drawn record |
| Figure.AddTracesConcat | src/plotly_helpers.py:493-522 | adding two batches in turn is adding their concatenation |
| Figure.AddOneTrace | src/plotly_helpers.py:493-521 | a drawn record adds exactly its rendering; any other type adds nothing |
| Figure.AddTracesInOrder | src/plotly_helpers.py:493-521 | when every record is drawn, record k becomes new trace k |
| Pairs.PairEmphasis | src/app.py:47-60 | exactly one surface shows a colorbar, the second one exactly when its maximum is strictly larger; one surface is foreground and the other background |
| Pairs.PairEmphasisFollowsMaximum | src/app.py:47-60 | the foreground surface has the larger maximum, a tie favours the first surface, and swapping two different maxima swaps the roles |
| Pairs.EffectiveColors | src/app.py:45-46 | the group count is doubled for a SEE surface and passed through otherwise |
| Pairs.BuildSurfaces | src/app.py:29-62 | succeeds exactly when both grids are present and non-empty and both colorscales and counts are present; it draws the (possibly transposed) grids, and the colorbar goes to the surface whose loaded grid has the strictly larger maximum |
| Pairs.PairLayout | src/app.py:76-90 | the layout fails exactly when a grid lacks a corner; the axis titles follow "WPI" and "SEE" in the first name; the pointers sit at each loaded grid's corner |
| Pairs.AllSurfaces | src/app.py:26-62 | the first loop succeeds exactly when every pair's surfaces build, giving them in pair order |
| Pairs.PairFigure | src/app.py:94-97 | a pair's figure exists exactly when both its surfaces and its layout do; it holds the two surfaces and no `uirevision` |
| Pairs.LayoutOf | src/app.py:71-90 | a pair's layout exists exactly when both names are present and both grids have a corner |
| Pairs.AllLayouts | src/app.py:68-91 | the second loop succeeds exactly when every pair's layout builds, giving them in pair order |
| Pairs.Store | src/app.py:94-97 | the store's keys are the pairs' selection keys, and a key holds the figure of the last pair with that key |
| Pairs.BuildFigures | src/app.py:24-97 | start-up succeeds exactly when both loops do; the store's keys are the selection keys, each holding its pair's two surfaces and layout |
| Pairs.BuildFiguresSucceeds | src/app.py:24-97 | start-up succeeds exactly when every pair yields a figure |
| Callbacks.GroupIndex | src/app.py:263-272 | a key is valid exactly when it contains "SEE" or "EV"; the group is a wave-period group exactly when it contains "WPI" and an SEE group exactly when it contains "SEE" |
| Callbacks.GroupIndexOfKey | src/app.py:263-272 | for '+'-free names the group of their key is decided by the two names alone |
| Callbacks.SelectGraph | src/app.py:258-299 | succeeds exactly when the key splits into two names, names an existing group holding both names, both grids have a bottom-right value, and the key is stored; otherwise it raises in source order: IndexError for a key without '+', ValueError for a key without SEE or EV, IndexError for a group past the end, KeyError for the first missing name, IndexError for a grid without a corner, KeyError for an unstored key; on success the key was stored, it alone is replaced, the traces are kept, `uirevision` is the key, and the layout is the one built from the group's grids for the two names |
| Callbacks.SelectGraphOfKey | src/app.py:258-299 | selecting the key of two '+'-free names succeeds exactly when its group holds both names with cornered grids and the key is stored, and then rebuilds exactly that pair's layout |
| Callbacks.AddTrace | src/app.py:316-335 | without a click the store is unchanged; otherwise only the selected key changes, to the displayed figure followed by a label at the point and a downward cone one unit below it |
| Callbacks.UpdateGraph | src/app.py:352-360 | a store change shows the selected key's stored figure, or a KeyError when absent; any other trigger prevents the update |
| Callbacks.AnnotationsAccumulate | src/app.py:316-360 | a click, the redraw and a second click leave the first label in place and append the second pair of traces after it |

## Left out

- Loading the pickled dataset (`app.py` lines 20-21): the groups are a parameter, `seq<Group>`, kept in the file's order.
- Dash wiring (component tree, `@app.callback` declarations, `callback_context`): each callback is a function of its inputs, and `update_graph` takes the triggering prop id as a parameter.
- `get_cam_data`'s `dash_table.DataTable`: the model returns the table rows; column names and styling are not modelled.
- Fonts, colours, line widths, margins, contour settings, hover settings and the default camera in `create_surface` and `create_layout`: constants that no input influences.
- `percentage_difference`: the dashboard never calls it, and it works in floating point.
- Floating point: coordinates, positions and grid values are exact reals, so `np.linspace` gives exact i/n and there is no NaN.
- Pairs.PairEmphasis: a NaN anywhere in a grid makes its `.max()` NaN and `data_2_max > data_1_max` false, so the first surface is in front whatever the other grid holds; the model has no NaN, and PairEmphasisFollowsMaximum holds only for grids of ordinary numbers.
- Grids.Transpose: stated for rectangular arrays only, because every grid comes from `DataFrame.to_numpy()`.
- Callbacks.SelectGraph: `fig.update_layout(layout)` merges into the stored layout; the model replaces the layout, because every field it models is set by the new layout.
- Camera.GetCamData: only the entries the readout reads are modelled. A `scene.camera` payload is a map of maps of numbers, holding "eye" and "center". Other payload entries (such as `"projection": {"type": "perspective"}`) and other relayout entries (such as `"autosize": True`) are never read and are left out.
- Callbacks.AddTrace: the inputs are numbers and strings; a missing input (`None`) that Python would reject in `z-1` is not modelled.
- Pairs.Store: it is stated for the last pair with each key; an earlier pair with a duplicate key is overwritten, as in the dictionary comprehension.
