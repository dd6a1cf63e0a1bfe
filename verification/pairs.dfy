/** The start-up construction of src/app.py (lines 24-97): for every group
    and every pair of surface names it builds two surfaces (emphasis,
    doubled colour count, transposition) and one layout, and stores the
    resulting figure under the pair's selection key.
 */
module Pairs {
  import opened Results
  import opened Strings
  import opened Grids
  import Colorscale
  import opened Surface
  import opened Layout
  import opened Figure

  /** One entry of the loaded dataset: axis values, a grid per surface
      name, the precomputed colorscale and colour count per name, and the
      pairs of names to compare. */
  datatype Group = Group(
    x: seq<real>,
    y: seq<real>,
    files: map<string, Grid>,
    colorscales: map<string, seq<Colorscale.Stop>>,
    nColors: map<string, int>,
    combinations: seq<(string, string)>
  )

  /** Every grid of the dataset comes from a numpy array. */
  predicate GroupArrays(g: Group)
  {
    forall name :: name in g.files ==> Rectangular(g.files[name])
  }

  predicate DatasetArrays(groups: seq<Group>)
  {
    forall k :: 0 <= k < |groups| ==> GroupArrays(groups[k])
  }

  /** How one surface of a pair is drawn. */
  datatype Emphasis = Emphasis(opacity: real, showColorbar: bool, ambient: real)

  const Foreground := Emphasis(0.8, true, 0.5)
  const Background := Emphasis(1.0, false, 0.9)

  /** The emphasis of both surfaces from the two grid maxima: the second is
      in front only when its maximum is strictly larger. */
  function PairEmphasis(max1: real, max2: real): (e: (Emphasis, Emphasis))
    ensures e.0.showColorbar != e.1.showColorbar
    ensures e.1.showColorbar <==> max2 > max1
    ensures e.0 == Foreground <==> e.1 == Background
    ensures e.0 == Foreground || e.0 == Background
  {
    (Emphasis(if max2 > max1 then 1.0 else 0.8,
              if max2 > max1 then false else true,
              if max2 > max1 then 0.9 else 0.5),
     Emphasis(if max2 > max1 then 0.8 else 1.0,
              if max2 > max1 then true else false,
              if max2 > max1 then 0.5 else 0.9))
  }

  /** The surface in front is one with the larger maximum; a tie puts the
      first surface in front; exchanging two different maxima exchanges
      the roles. */
  lemma PairEmphasisFollowsMaximum(max1: real, max2: real)
    ensures PairEmphasis(max1, max2).0 == Foreground ==> max1 >= max2
    ensures PairEmphasis(max1, max2).1 == Foreground ==> max2 > max1
    ensures max1 == max2 ==> PairEmphasis(max1, max2) == (Foreground, Background)
    ensures max1 != max2 ==>
      PairEmphasis(max2, max1) == (PairEmphasis(max1, max2).1, PairEmphasis(max1, max2).0)
  {
  }

  /** The colour-group count a surface is drawn with: doubled for a SEE surface. */
  function EffectiveColors(name: string, groupColors: int): (n: int)
    ensures Contains(name, "SEE") ==> n == 2 * groupColors
    ensures !Contains(name, "SEE") ==> n == groupColors
  {
    if !Contains(name, "SEE") then groupColors else groupColors * 2
  }

  /** The grid a surface is drawn from: transposed when the first name of
      its pair contains "WIP". */
  function Oriented(first: string, grid: Grid): (t: Grid)
    requires Rectangular(grid)
  {
    if Contains(first, "WIP") then Transpose(grid) else grid
  }

  /** The two surfaces of one pair (the body of the first loop). */
  function BuildSurfaces(g: Group, name1: string, name2: string): (r: Result<(SurfaceTrace, SurfaceTrace)>)
    requires GroupArrays(g)
    ensures r.Success? <==>
      && name1 in g.files && name2 in g.files
      && HasElement(g.files[name1]) && HasElement(g.files[name2])
      && name1 in g.colorscales && name1 in g.nColors
      && name2 in g.colorscales && name2 in g.nColors
    ensures r.Success? ==>
      var (s1, s2) := r.value;
      && s1.z == Oriented(name1, g.files[name1]) && s2.z == Oriented(name1, g.files[name2])
      && s1.colorscale == g.colorscales[name1] && s2.colorscale == g.colorscales[name2]
      && s1.cmax == EffectiveColors(name1, g.nColors[name1])
      && s2.cmax == EffectiveColors(name2, g.nColors[name2])
      && s1.showScale != s2.showScale
      && (s2.showScale <==> GridMax(g.files[name2]).value > GridMax(g.files[name1]).value)
      && (s1.showScale ==> s1.opacity == 0.8 && s1.ambient == 0.5 && s2.opacity == 1.0 && s2.ambient == 0.9)
      && (s2.showScale ==> s2.opacity == 0.8 && s2.ambient == 0.5 && s1.opacity == 1.0 && s1.ambient == 0.9)
  {
    var data1 :- Lookup(g.files, name1);
    var data2 :- Lookup(g.files, name2);
    var grid1 := Oriented(name1, data1);
    var grid2 := Oriented(name1, data2);
    TransposeKeepsMax(data1);
    TransposeKeepsMax(data2);
    TransposeSameElements(data1);
    TransposeSameElements(data2);
    var max1 :- GridMax(grid1);
    var max2 :- GridMax(grid2);
    var (e1, e2) := PairEmphasis(max1, max2);
    var colors1 :- Lookup(g.colorscales, name1);
    var count1 :- Lookup(g.nColors, name1);
    var surface1 := CreateSurface(g.x, g.y, grid1, colors1, EffectiveColors(name1, count1),
                                  e1.opacity, e1.showColorbar, e1.ambient);
    var colors2 :- Lookup(g.colorscales, name2);
    var count2 :- Lookup(g.nColors, name2);
    var surface2 := CreateSurface(g.x, g.y, grid2, colors2, EffectiveColors(name2, count2),
                                  e2.opacity, e2.showColorbar, e2.ambient);
    Success((surface1, surface2))
  }

  /** The layout of one pair (the body of the second loop), read from the
      grids as loaded, with axis titles chosen by the first name. */
  function PairLayout(name1: string, name2: string, grid1: Grid, grid2: Grid): (r: Result<SceneLayout>)
    ensures r.Success? <==> Corner(grid1).Success? && Corner(grid2).Success?
    ensures r.Success? ==>
      && |r.value.annotations| == 5
      && r.value.annotations[1].text == (if Contains(name1, "WPI") then "Wave Period [s]" else "Current Speed [m/s]")
      && r.value.annotations[2].text == (if Contains(name1, "SEE") then "SEE Index" else "EVRD Index")
      && r.value.annotations[3].z == Corner(grid1).value
      && r.value.annotations[4].z == Corner(grid2).value
  {
    CreateLayout(
      "Wave Height [m]",
      if Contains(name1, "WPI") then "Wave Period [s]" else "Current Speed [m/s]",
      if Contains(name1, "SEE") then "SEE Index" else "EVRD Index",
      name1, name2, grid1, grid2, 1.0, 0.5, 0.5)
  }

  /** One pair of the dataset, with the group it belongs to. */
  datatype Combination = Combination(group: Group, name1: string, name2: string)

  /** The pairs in the order both loops visit them: group by group, then
      combination by combination. */
  function Combinations(groups: seq<Group>): (cs: seq<Combination>)
    ensures DatasetArrays(groups) ==> forall k :: 0 <= k < |cs| ==> GroupArrays(cs[k].group)
  {
    if |groups| == 0 then []
    else
      var g := groups[0];
      assert DatasetArrays(groups) ==> DatasetArrays(groups[1..]) by {
        if DatasetArrays(groups) {
          forall k | 0 <= k < |groups[1..]| ensures GroupArrays(groups[1..][k]) {
            assert groups[1..][k] == groups[k + 1];
          }
        }
      }
      seq(|g.combinations|, i requires 0 <= i < |g.combinations| =>
        Combination(g, g.combinations[i].0, g.combinations[i].1))
      + Combinations(groups[1..])
  }

  predicate Arrays(cs: seq<Combination>)
  {
    forall k :: 0 <= k < |cs| ==> GroupArrays(cs[k].group)
  }

  /** The surfaces of one combination. */
  function SurfacesOf(c: Combination): (r: Result<(SurfaceTrace, SurfaceTrace)>)
    requires GroupArrays(c.group)
  {
    BuildSurfaces(c.group, c.name1, c.name2)
  }

  /** The first loop: `traces`, one surface pair per combination, in order. */
  function AllSurfaces(cs: seq<Combination>): (r: Result<seq<(SurfaceTrace, SurfaceTrace)>>)
    requires Arrays(cs)
    ensures r.Success? <==> forall k :: 0 <= k < |cs| ==> SurfacesOf(cs[k]).Success?
    ensures r.Success? ==> |r.value| == |cs|
    ensures r.Success? ==> forall k :: 0 <= k < |cs| ==> SurfacesOf(cs[k]) == Success(r.value[k])
  {
    var steps := seq(|cs|, k requires 0 <= k < |cs| => SurfacesOf(cs[k]));
    assert forall k :: 0 <= k < |cs| ==> steps[k] == SurfacesOf(cs[k]);
    Collect(steps)
  }

  /** The layout of one combination: both grids looked up, as loaded. */
  function LayoutOf(c: Combination): (r: Result<SceneLayout>)
    ensures r.Success? <==>
      && c.name1 in c.group.files && c.name2 in c.group.files
      && Corner(c.group.files[c.name1]).Success? && Corner(c.group.files[c.name2]).Success?
    ensures r.Success? ==>
      r == PairLayout(c.name1, c.name2, c.group.files[c.name1], c.group.files[c.name2])
  {
    var s1 :- Lookup(c.group.files, c.name1);
    var s2 :- Lookup(c.group.files, c.name2);
    PairLayout(c.name1, c.name2, s1, s2)
  }

  /** The second loop: `layouts`, one layout per combination, in order. */
  function AllLayouts(cs: seq<Combination>): (r: Result<seq<SceneLayout>>)
    ensures r.Success? <==> forall k :: 0 <= k < |cs| ==> LayoutOf(cs[k]).Success?
    ensures r.Success? ==> |r.value| == |cs|
    ensures r.Success? ==> forall k :: 0 <= k < |cs| ==> LayoutOf(cs[k]) == Success(r.value[k])
  {
    var steps := seq(|cs|, k requires 0 <= k < |cs| => LayoutOf(cs[k]));
    assert forall k :: 0 <= k < |cs| ==> steps[k] == LayoutOf(cs[k]);
    Collect(steps)
  }

  function KeyOf(c: Combination): string
  {
    SelectionKey(c.name1, c.name2)
  }

  /** The keys of the combinations. */
  function KeysOf(cs: seq<Combination>): (keys: set<string>)
    ensures forall k :: 0 <= k < |cs| ==> KeyOf(cs[k]) in keys
    decreases |cs|
  {
    if |cs| == 0 then {}
    else
      assert forall k :: 1 <= k < |cs| ==> cs[1..][k - 1] == cs[k];
      {KeyOf(cs[0])} + KeysOf(cs[1..])
  }

  /** No later combination has the same key as the k-th one. */
  ghost predicate LastWithKey(cs: seq<Combination>, k: int)
    requires 0 <= k < |cs|
  {
    forall j :: k < j < |cs| ==> KeyOf(cs[j]) != KeyOf(cs[k])
  }

  /** The figure of one combination. */
  function PairFigure(c: Combination): (r: Result<Figure>)
    requires GroupArrays(c.group)
    ensures r.Success? <==> SurfacesOf(c).Success? && LayoutOf(c).Success?
    ensures r.Success? ==> r.value.uiRevision == None && |r.value.traces| == 2
  {
    var (s1, s2) :- SurfacesOf(c);
    var layout :- LayoutOf(c);
    Success(Figure([Surf(s1), Surf(s2)], layout, None))
  }

  /** The dictionary comprehension `figures`: figure k under the k-th key,
      a later pair overwriting an earlier one with the same key. */
  function Store(cs: seq<Combination>, figures: seq<Figure>): (store: map<string, Figure>)
    requires |figures| == |cs|
    ensures store.Keys == KeysOf(cs)
    ensures forall k :: 0 <= k < |cs| && LastWithKey(cs, k) ==> store[KeyOf(cs[k])] == figures[k]
    decreases |cs|
  {
    if |cs| == 0 then map[]
    else
      var rest := Store(cs[1..], figures[1..]);
      LastWithKeyInTail(cs);
      if KeyOf(cs[0]) in rest then rest else rest[KeyOf(cs[0]) := figures[0]]
  }

  lemma LastWithKeyInTail(cs: seq<Combination>)
    requires |cs| > 0
    ensures KeysOf(cs) == {KeyOf(cs[0])} + KeysOf(cs[1..])
    ensures forall k :: 1 <= k < |cs| ==> cs[1..][k - 1] == cs[k]
    ensures forall k :: 1 <= k < |cs| && LastWithKey(cs, k) ==> LastWithKey(cs[1..], k - 1)
    ensures LastWithKey(cs, 0) ==> KeyOf(cs[0]) !in KeysOf(cs[1..])
  {
    assert forall k :: 1 <= k < |cs| ==> cs[1..][k - 1] == cs[k];
    if LastWithKey(cs, 0) {
      KeysOfOnly(cs[1..], KeyOf(cs[0]));
    }
  }

  /** Every key in `KeysOf(cs)` is the key of some combination of `cs`. */
  lemma {:induction false} KeysOfOnly(cs: seq<Combination>, key: string)
    requires forall k :: 0 <= k < |cs| ==> KeyOf(cs[k]) != key
    ensures key !in KeysOf(cs)
    decreases |cs|
  {
    if |cs| > 0 {
      assert forall k :: 1 <= k < |cs| ==> cs[1..][k - 1] == cs[k];
      KeysOfOnly(cs[1..], key);
    }
  }

  /** Every combination yields a figure. */
  predicate EveryPairBuilds(cs: seq<Combination>)
    requires Arrays(cs)
  {
    forall k :: 0 <= k < |cs| ==> PairFigure(cs[k]).Success?
  }

  /** A pair whose surfaces fail makes the first loop fail, and then
      not every pair yields a figure. */
  lemma SurfacesFail(cs: seq<Combination>)
    requires Arrays(cs)
    ensures AllSurfaces(cs).Failure? ==> !EveryPairBuilds(cs)
  {
    if AllSurfaces(cs).Failure? {
      var k :| 0 <= k < |cs| && SurfacesOf(cs[k]).Failure?;
      assert PairFigure(cs[k]).Failure?;
    }
  }

  /** Likewise for a pair whose layout fails in the second loop. */
  lemma LayoutsFail(cs: seq<Combination>)
    requires Arrays(cs)
    ensures AllLayouts(cs).Failure? ==> !EveryPairBuilds(cs)
  {
    if AllLayouts(cs).Failure? {
      var k :| 0 <= k < |cs| && LayoutOf(cs[k]).Failure?;
      assert PairFigure(cs[k]).Failure?;
    }
  }

  /** When both loops succeed, every pair yields a figure. */
  lemma BothLoopsSucceed(cs: seq<Combination>)
    requires Arrays(cs)
    ensures AllSurfaces(cs).Success? && AllLayouts(cs).Success? ==> EveryPairBuilds(cs)
  {
    if AllSurfaces(cs).Success? && AllLayouts(cs).Success? {
      forall k | 0 <= k < |cs|
        ensures PairFigure(cs[k]).Success?
      {
        assert SurfacesOf(cs[k]).Success?;
        assert LayoutOf(cs[k]).Success?;
      }
    }
  }

  /** The whole start-up construction: all surfaces, then all layouts, then the store. */
  function BuildFigures(groups: seq<Group>): (r: Result<map<string, Figure>>)
    requires DatasetArrays(groups)
    ensures var cs := Combinations(groups);
      r.Success? <==> AllSurfaces(cs).Success? && AllLayouts(cs).Success?
    ensures var cs := Combinations(groups);
      r.Success? ==> r.value.Keys == KeysOf(cs)
    ensures var cs := Combinations(groups);
      r.Success? ==> forall k :: 0 <= k < |cs| && LastWithKey(cs, k) ==>
        Success(r.value[KeyOf(cs[k])]) == PairFigure(cs[k])
  {
    var cs := Combinations(groups);
    var surfaces :- AllSurfaces(cs);
    var layouts :- AllLayouts(cs);
    var figures := seq(|cs|, k requires 0 <= k < |cs| =>
      Figure([Surf(surfaces[k].0), Surf(surfaces[k].1)], layouts[k], None));
    PairFiguresFromLoops(cs);
    Success(Store(cs, figures))
  }

  /** Figure k of the comprehension pairs the k-th surfaces with the k-th
      layout, which is the figure of the k-th combination. */
  lemma PairFiguresFromLoops(cs: seq<Combination>)
    requires Arrays(cs)
    ensures AllSurfaces(cs).Success? && AllLayouts(cs).Success? ==>
      forall k :: 0 <= k < |cs| ==>
        PairFigure(cs[k]) == Success(Figure([Surf(AllSurfaces(cs).value[k].0), Surf(AllSurfaces(cs).value[k].1)],
                                            AllLayouts(cs).value[k], None))
  {
    if AllSurfaces(cs).Success? && AllLayouts(cs).Success? {
      var surfaces, layouts := AllSurfaces(cs).value, AllLayouts(cs).value;
      forall k | 0 <= k < |cs|
        ensures PairFigure(cs[k]) == Success(Figure([Surf(surfaces[k].0), Surf(surfaces[k].1)], layouts[k], None))
      {
        assert SurfacesOf(cs[k]) == Success(surfaces[k]);
        assert LayoutOf(cs[k]) == Success(layouts[k]);
      }
    }
  }

  /** The start-up construction succeeds exactly when every pair of the
      dataset yields a figure. */
  lemma BuildFiguresSucceeds(groups: seq<Group>)
    requires DatasetArrays(groups)
    ensures BuildFigures(groups).Success? <==> EveryPairBuilds(Combinations(groups))
  {
    var cs := Combinations(groups);
    SurfacesFail(cs);
    LayoutsFail(cs);
    BothLoopsSucceed(cs);
  }
}
