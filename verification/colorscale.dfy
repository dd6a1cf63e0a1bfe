/** The stepped colorscale builder `make_colorscale_distinct`
    (src/plotly_helpers.py:192-221) and its palette table `COLOR_SCALES`.

    `np.linspace(0, 1, n + 1)` is modelled with exact rationals: its i-th
    point is `i / n`.
 */
module Colorscale {
  import opened Results

  /** One `(scaled_value, color)` pair of a plotly colorscale. */
  datatype Stop = Stop(position: real, color: string)

  /** The named palettes, in the order and spelling of the source table. */
  const ColorScales: map<string, seq<string>> := map[
    "Set3" := ["#8DD3C7", "#FFFFB3", "#BEBADA", "#FB8072", "#80B1D3", "#FDB462",
               "#B3DE69", "#FCCDE5", "#D9D9D9", "#BC80BD", "#CCEBC5", "#FFED6F"],
    "R_rainbow_10" := ["#FF0000", "#FF9900", "#CCFF00", "#33FF00", "#00FF66",
                       "#00FFFF", "#0066FF", "#3300FF", "#CC00FF", "#FF0099"],
    "D3" := ["#1f77b4", "#ff7f0e", "#2ca02c", "#d62728", "#9467bd",
             "#8c564b", "#e377c2", "#7f7f7f", "#bcbd22", "#17becf"],
    "Plotly" := ["#636efa", "#EF553B", "#00cc96", "#ab63fa", "#FFA15A",
                 "#19d3f3", "#FF6692", "#B6E880", "#FF97FF", "#FECB52"],
    "G10" := ["#3366CC", "#DC3912", "#FF9900", "#109618", "#990099",
              "#3B3EAC", "#0099C6", "#DD4477", "#66AA00", "#B82E2E"],
    "Set1" := ["#e41a1c", "#377eb8", "#4daf4a", "#984ea3", "#ff7f00",
               "#ffff33", "#a65628", "#f781bf", "#999999"],
    "Light24" := ["#FD3216", "#00FE35", "#6A76FC", "#FED4C4", "#FE00CE", "#0DF9FF",
                  "#F6F926", "#FF9616", "#479B55", "#EEA6FB", "#DC587D", "#D626FF",
                  "#6E899C", "#00B5F7", "#B68E00", "#C9FBE5", "#FF0092", "#22FFA7",
                  "#E3EE9E", "#86CE00", "#BC7196", "#7E7DCD", "#FC6955", "#E48F72"],
    "Vivid" := ["rgb(229, 134, 6)", "rgb(93, 105, 177)", "rgb(82, 188, 163)",
                "rgb(153, 201, 69)", "rgb(204, 97, 176)", "rgb(36, 121, 108)",
                "rgb(218, 165, 27)", "rgb(47, 138, 196)", "rgb(118, 78, 159)",
                "rgb(237, 100, 90)", "rgb(165, 170, 153)"],
    "Pastel" := ["rgb(102, 197, 204)", "rgb(246, 207, 113)", "rgb(248, 156, 116)",
                 "rgb(220, 176, 242)", "rgb(135, 197, 95)", "rgb(158, 185, 243)",
                 "rgb(254, 136, 177)", "rgb(201, 219, 116)", "rgb(139, 224, 164)",
                 "rgb(180, 151, 231)", "rgb(179, 179, 179)"]
  ]

  /** The i-th of `n + 1` evenly spaced points of [0, 1]. */
  function Position(n: int, i: int): real
  {
    if n <= 0 then 0.0 else i as real / n as real
  }

  /** `np.linspace(0, 1, n + 1)`: a negative sample count is an error,
      one sample is `[0]`, otherwise the points `i / n`. */
  function Linspace(n: int): (r: Result<seq<real>>)
    ensures r.Success? <==> n + 1 >= 0
    ensures r.Failure? ==> r.error == NegativeSampleCount(n + 1)
    ensures r.Success? ==> |r.value| == n + 1
    ensures r.Success? ==> forall i :: 0 <= i <= n ==> r.value[i] == Position(n, i)
  {
    if n + 1 < 0 then Failure(NegativeSampleCount(n + 1))
    else Success(seq(n + 1, i => Position(n, i)))
  }

  /** Python's `colors[:n]`, including the negative-bound form. */
  function PrefixSlice(colors: seq<string>, n: int): (r: seq<string>)
    ensures |r| <= |colors| && r == colors[..|r|]
    ensures n >= 0 ==> |r| == (if n < |colors| then n else |colors|)
    ensures n < 0 ==> |r| == (if |colors| + n <= 0 then 0 else |colors| + n)
  {
    if n >= 0 then colors[..if n < |colors| then n else |colors|]
    else if |colors| + n <= 0 then []
    else colors[..|colors| + n]
  }

  /** Entries `2i` and `2i + 1` of `cs` cover `[i/n, (i+1)/n]` with the i-th colour. */
  ghost predicate StepAt(cs: seq<Stop>, n: int, colors: seq<string>, i: int)
    requires 0 <= i < n && n <= |colors| && 2 * n <= |cs|
  {
    && cs[2 * i] == Stop(Position(n, i), colors[i])
    && cs[2 * i + 1] == Stop(Position(n, i + 1), colors[i])
  }

  /** The stepped colorscale of `n` groups taken from `colors`. */
  ghost predicate IsStepped(cs: seq<Stop>, n: int, colors: seq<string>)
  {
    && 0 <= n <= |colors|
    && |cs| == 2 * n
    && forall i :: 0 <= i < n ==> StepAt(cs, n, colors, i)
  }

  /** `make_colorscale_distinct(n_colors, pal)`: the sample points are
      computed first, then the palette is looked up, then the steps are
      laid out from that palette alone. */
  method MakeColorscaleDistinct(n: int, pal: string) returns (r: Result<seq<Stop>>)
    ensures n < -1 ==> r == Failure(NegativeSampleCount(n + 1))
    ensures n >= -1 && pal !in ColorScales ==> r == Failure(PaletteNotFound(pal))
    ensures n >= -1 && pal in ColorScales && n > |ColorScales[pal]| ==> r == Failure(IndexOutOfRange)
    ensures r.Success? <==> -1 <= n && pal in ColorScales && n <= |ColorScales[pal]|
    ensures r.Success? && n == -1 ==> r.value == []
    ensures r.Success? && n >= 0 ==> IsStepped(r.value, n, ColorScales[pal])
  {
    var scaled :- Linspace(n);
    if pal !in ColorScales {
      return Failure(PaletteNotFound(pal));
    }
    r := LayOutSteps(n, scaled, ColorScales[pal]);
  }

  /** The loop of `make_colorscale_distinct` over the truncated palette
      `colors[:n]`: it fails at the first index the palette cannot supply. */
  method LayOutSteps(n: int, scaled: seq<real>, palette: seq<string>) returns (r: Result<seq<Stop>>)
    requires n >= -1
    requires Linspace(n) == Success(scaled)
    ensures r.Success? <==> n <= |palette|
    ensures r.Failure? ==> r.error == IndexOutOfRange
    ensures r.Success? && n == -1 ==> r.value == []
    ensures r.Success? && n >= 0 ==> IsStepped(r.value, n, palette)
  {
    var colors := PrefixSlice(palette, n);
    var colorscale: seq<Stop> := [];
    var i := 0;
    while i < n
      invariant 0 <= i && (n >= 0 ==> i <= n) && (n < 0 ==> i == 0)
      invariant i <= |colors|
      invariant |colorscale| == 2 * i
      invariant forall k :: 0 <= k < i ==> colorscale[2 * k] == Stop(Position(n, k), colors[k])
      invariant forall k :: 0 <= k < i ==> colorscale[2 * k + 1] == Stop(Position(n, k + 1), colors[k])
    {
      if i >= |colors| {
        return Failure(IndexOutOfRange);
      }
      colorscale := colorscale + [Stop(scaled[i], colors[i]), Stop(scaled[i + 1], colors[i])];
      i := i + 1;
    }
    if n >= 0 {
      forall k | 0 <= k < n
        ensures StepAt(colorscale, n, palette, k)
      {
        assert colors[k] == palette[k];
      }
    }
    return Success(colorscale);
  }

  /** The entry at any index of a stepped colorscale: index `k` lies in
      step `k / 2` and sits at its start (even) or end (odd) point. */
  lemma {:induction false} StepEntry(cs: seq<Stop>, n: int, colors: seq<string>, k: int)
    requires IsStepped(cs, n, colors)
    requires 0 <= k < |cs|
    ensures cs[k] == Stop(Position(n, k / 2 + k % 2), colors[k / 2])
  {
    var i := k / 2;
    assert StepAt(cs, n, colors, i);
    if k % 2 == 0 {
      assert k == 2 * i;
    } else {
      assert k == 2 * i + 1;
    }
  }

  /** Positions never decrease along a stepped colorscale. */
  lemma {:induction false} SteppedSorted(cs: seq<Stop>, n: int, colors: seq<string>)
    requires IsStepped(cs, n, colors)
    ensures forall j, k :: 0 <= j <= k < |cs| ==> cs[j].position <= cs[k].position
  {
    forall j, k | 0 <= j <= k < |cs|
      ensures cs[j].position <= cs[k].position
    {
      StepEntry(cs, n, colors, j);
      StepEntry(cs, n, colors, k);
      var a, b := j / 2 + j % 2, k / 2 + k % 2;
      assert a <= b;
      PositionMonotone(n, a, b);
    }
  }

  lemma PositionMonotone(n: int, a: int, b: int)
    requires a <= b
    ensures Position(n, a) <= Position(n, b)
  {
    if n > 0 {
      assert a as real / n as real <= b as real / n as real by {
        assert a as real <= b as real;
      }
    }
  }

  /** A non-empty stepped colorscale starts at 0 and ends at 1, and
      consecutive steps meet: step i ends where step i + 1 begins and is
      `1 / n` wide, so the steps tile [0, 1] without gaps or overlaps. */
  lemma {:induction false} SteppedCoversUnitInterval(cs: seq<Stop>, n: int, colors: seq<string>)
    requires IsStepped(cs, n, colors)
    requires n >= 1
    ensures cs[0].position == 0.0
    ensures cs[|cs| - 1].position == 1.0
    ensures forall i :: 0 <= i < n ==> cs[2 * i + 1].position - cs[2 * i].position == 1.0 / n as real
    ensures forall i :: 0 <= i < n - 1 ==> cs[2 * i + 1].position == cs[2 * i + 2].position
  {
    assert StepAt(cs, n, colors, 0);
    assert StepAt(cs, n, colors, n - 1);
    assert 2 * (n - 1) + 1 == |cs| - 1;
    forall i | 0 <= i < n
      ensures cs[2 * i + 1].position - cs[2 * i].position == 1.0 / n as real
    {
      assert StepAt(cs, n, colors, i);
    }
    forall i | 0 <= i < n - 1
      ensures cs[2 * i + 1].position == cs[2 * i + 2].position
    {
      assert StepAt(cs, n, colors, i);
      assert StepAt(cs, n, colors, i + 1);
      assert 2 * (i + 1) == 2 * i + 2;
    }
  }

  /** Reading the colours at the step starts gives back the first `n`
      palette colours in palette order: nothing is reordered or repeated. */
  lemma {:induction false} SteppedColorsInOrder(cs: seq<Stop>, n: int, colors: seq<string>)
    requires IsStepped(cs, n, colors)
    ensures seq(n, i requires 0 <= i < n => cs[2 * i].color) == colors[..n]
  {
    forall i | 0 <= i < n
      ensures cs[2 * i].color == colors[i]
    {
      assert StepAt(cs, n, colors, i);
    }
  }
}
