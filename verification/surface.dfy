/** The surface descriptor of `create_surface` (src/plotly_helpers.py:224-282):
    the grid, the colour mapping clamped to `[0, n_colors]`, the colorbar
    ticks, and the emphasis parameters (opacity, colorbar, ambient light).
    Contour, hover and colorbar styling constants are not modelled.
 */
module Surface {
  import opened Grids
  import Colorscale

  datatype SurfaceTrace = SurfaceTrace(
    x: seq<real>,
    y: seq<real>,
    z: Grid,
    colorscale: seq<Colorscale.Stop>,
    cmin: int,
    cmax: int,
    opacity: real,
    showScale: bool,
    tickVals: seq<int>,
    tickText: seq<int>,
    ambient: real,
    diffuse: real
  )

  /** `np.arange(start, stop, step)` for a positive integer step. */
  function Arange(start: int, stop: int, step: int): seq<int>
    requires step > 0
    decreases stop - start
  {
    if start >= stop then [] else [start] + Arange(start + step, stop, step)
  }

  /** The i-th value of `Arange` is `start + i * step`; every value is
      below `stop` and the next one would not be. */
  lemma {:induction false} ArangeValues(start: int, stop: int, step: int)
    requires step > 0
    ensures var r := Arange(start, stop, step);
      && (forall i :: 0 <= i < |r| ==> r[i] == start + i * step && r[i] < stop)
      && start + |r| * step >= stop
    decreases stop - start
  {
    var r := Arange(start, stop, step);
    if start < stop {
      var rest := Arange(start + step, stop, step);
      ArangeValues(start + step, stop, step);
      assert r == [start] + rest;
      forall i | 0 <= i < |r|
        ensures r[i] == start + i * step && r[i] < stop
      {
        if i > 0 {
          assert r[i] == rest[i - 1];
          assert start + step + (i - 1) * step == start + i * step;
        }
      }
      assert start + step + |rest| * step == start + |r| * step;
    }
  }

  /** The colorbar tick spacing: every 2 groups above six groups, else every group. */
  function TickStep(nColors: int): int
  {
    if nColors > 6 then 2 else 1
  }

  /** The colorbar ticks `np.arange(0, n_colors + 1, step)`: the multiples of
      the step in `[0, n_colors]`, ascending. */
  function ColorbarTicks(nColors: int): (ticks: seq<int>)
    ensures forall k :: k in ticks <==> 0 <= k <= nColors && k % TickStep(nColors) == 0
    ensures forall i :: 0 <= i < |ticks| ==> ticks[i] == i * TickStep(nColors)
    ensures nColors >= 0 ==> |ticks| > 0 && ticks[0] == 0
  {
    var step := TickStep(nColors);
    var ticks := Arange(0, nColors + 1, step);
    ArangeValues(0, nColors + 1, step);
    forall k | 0 <= k <= nColors && k % step == 0
      ensures k in ticks
    {
      assert ticks[k / step] == k;
    }
    ticks
  }

  /** `create_surface(x, y, z, colors_scaled, n_colors, opacity, show_colorbar, ambient_light)`. */
  function CreateSurface(
    x: seq<real>, y: seq<real>, z: Grid, colorscale: seq<Colorscale.Stop>, nColors: int,
    opacity: real, showColorbar: bool, ambientLight: real): (s: SurfaceTrace)
    ensures s.z == z && s.x == x && s.y == y && s.colorscale == colorscale
    ensures s.cmin == 0 && s.cmax == nColors
    ensures s.tickVals == s.tickText
    ensures forall k :: k in s.tickVals <==> s.cmin <= k <= s.cmax && k % TickStep(nColors) == 0
    ensures s.opacity == opacity && s.showScale == showColorbar
    ensures s.ambient == ambientLight && s.diffuse == 0.5
  {
    SurfaceTrace(x, y, z, colorscale, 0, nColors, opacity, showColorbar,
                 ColorbarTicks(nColors), ColorbarTicks(nColors), ambientLight, 0.5)
  }
}
