/** Two-dimensional value grids (the `.to_numpy()` arrays of the dataset and
    their `.tolist()` forms) and the three things the dashboard does with
    them: `.T`, `.max()`, and the bottom-right lookup `grid[-1][-1]`.
 */
module Grids {
  import opened Results

  /** Rows of numbers; a numpy array is always rectangular. */
  type Grid = seq<seq<real>>

  function Width(g: Grid): nat
  {
    if |g| == 0 then 0 else |g[0]|
  }

  predicate Rectangular(g: Grid)
  {
    forall i :: 0 <= i < |g| ==> |g[i]| == Width(g)
  }

  /** `v` is stored somewhere in `g`. */
  ghost predicate IsElement(g: Grid, v: real)
  {
    exists i, j :: 0 <= i < |g| && 0 <= j < |g[i]| && g[i][j] == v
  }

  /** No element of `g` exceeds `v`. */
  ghost predicate IsUpperBound(g: Grid, v: real)
  {
    forall i, j :: 0 <= i < |g| && 0 <= j < |g[i]| ==> g[i][j] <= v
  }

  /** The array has at least one element (its size is not zero). */
  predicate HasElement(g: Grid)
  {
    exists i :: 0 <= i < |g| && |g[i]| > 0
  }

  /** The elements of `g` in row-major order (numpy's flat view). */
  function Flatten(g: Grid): (flat: seq<real>)
    ensures |flat| == 0 <==> !HasElement(g)
    ensures forall v :: v in flat <==> IsElement(g, v)
    decreases |g|
  {
    if |g| == 0 then []
    else
      var rest := Flatten(g[1..]);
      assert forall v :: IsElement(g[1..], v) ==> IsElement(g, v) by {
        forall v | IsElement(g[1..], v) ensures IsElement(g, v) {
          var i, j :| 0 <= i < |g[1..]| && 0 <= j < |g[1..][i]| && g[1..][i][j] == v;
          assert g[i + 1][j] == v;
        }
      }
      assert forall v :: IsElement(g, v) ==> v in g[0] || IsElement(g[1..], v) by {
        forall v | IsElement(g, v) ensures v in g[0] || IsElement(g[1..], v) {
          var i, j :| 0 <= i < |g| && 0 <= j < |g[i]| && g[i][j] == v;
          if i > 0 {
            assert g[1..][i - 1][j] == v;
          }
        }
      }
      assert forall v :: v in g[0] ==> IsElement(g, v) by {
        forall v | v in g[0] ensures IsElement(g, v) {
          var j :| 0 <= j < |g[0]| && g[0][j] == v;
        }
      }
      assert HasElement(g) <==> |g[0]| > 0 || HasElement(g[1..]) by {
        if HasElement(g) {
          var i :| 0 <= i < |g| && |g[i]| > 0;
          if i > 0 {
            assert |g[1..][i - 1]| > 0;
          }
        }
        if HasElement(g[1..]) {
          var i :| 0 <= i < |g[1..]| && |g[1..][i]| > 0;
          assert |g[i + 1]| > 0;
        }
      }
      g[0] + rest
  }

  /** The largest number of a non-empty sequence. */
  function SeqMax(s: seq<real>): (m: real)
    requires |s| > 0
    ensures m in s
    ensures forall k :: 0 <= k < |s| ==> s[k] <= m
  {
    if |s| == 1 then s[0]
    else
      var m := SeqMax(s[1..]);
      if s[0] > m then s[0] else m
  }

  /** `grid.max()`: the largest element, or a ValueError for a zero-size array. */
  function GridMax(g: Grid): (r: Result<real>)
    ensures r.Success? <==> HasElement(g)
    ensures r.Failure? ==> r.error == EmptyGrid
    ensures r.Success? ==> IsElement(g, r.value) && IsUpperBound(g, r.value)
  {
    var flat := Flatten(g);
    if |flat| == 0 then Failure(EmptyGrid)
    else
      var m := SeqMax(flat);
      assert IsUpperBound(g, m) by {
        forall i, j | 0 <= i < |g| && 0 <= j < |g[i]| ensures g[i][j] <= m {
          assert IsElement(g, g[i][j]);
          assert g[i][j] in flat;
        }
      }
      Success(m)
  }

  /** `grid.T` of a rectangular array. */
  function Transpose(g: Grid): (t: Grid)
    requires Rectangular(g)
    ensures |t| == Width(g)
    ensures Rectangular(t)
    ensures |g| > 0 ==> Width(t) == (if Width(g) == 0 then 0 else |g|)
    ensures forall j, i :: 0 <= j < |t| && 0 <= i < |g| ==> |t[j]| == |g| && t[j][i] == g[i][j]
  {
    seq(Width(g), j requires 0 <= j < Width(g) => seq(|g|, i requires 0 <= i < |g| => g[i][j]))
  }

  /** Transposing twice gives the array back whenever it has columns. */
  lemma TransposeInvolution(g: Grid)
    requires Rectangular(g)
    requires Width(g) > 0
    ensures Transpose(Transpose(g)) == g
  {
    var t := Transpose(g);
    var tt := Transpose(t);
    assert |tt| == |g|;
    forall i | 0 <= i < |g|
      ensures tt[i] == g[i]
    {
      assert |tt[i]| == |g[i]|;
    }
  }

  /** Transposition moves elements without adding or losing any. */
  lemma TransposeSameElements(g: Grid)
    requires Rectangular(g)
    ensures forall v :: IsElement(Transpose(g), v) <==> IsElement(g, v)
    ensures HasElement(Transpose(g)) <==> HasElement(g)
  {
    var t := Transpose(g);
    forall v
      ensures IsElement(t, v) <==> IsElement(g, v)
    {
      if IsElement(t, v) {
        var j, i :| 0 <= j < |t| && 0 <= i < |t[j]| && t[j][i] == v;
        assert g[i][j] == v;
      }
      if IsElement(g, v) {
        var i, j :| 0 <= i < |g| && 0 <= j < |g[i]| && g[i][j] == v;
        assert t[j][i] == v;
      }
    }
    if HasElement(g) {
      var i :| 0 <= i < |g| && |g[i]| > 0;
      assert |t[0]| > 0;
    }
  }

  /** The maximum does not depend on the orientation of the array. */
  lemma {:induction false} TransposeKeepsMax(g: Grid)
    requires Rectangular(g)
    ensures GridMax(Transpose(g)) == GridMax(g)
  {
    var t := Transpose(g);
    TransposeSameElements(g);
    if HasElement(g) {
      var a, b := GridMax(t).value, GridMax(g).value;
      assert IsElement(g, a) && IsElement(t, b);
      var i, j :| 0 <= i < |g| && 0 <= j < |g[i]| && g[i][j] == a;
      var k, l :| 0 <= k < |t| && 0 <= l < |t[k]| && t[k][l] == b;
      assert a <= b && b <= a;
    }
  }

  /** `grid[-1][-1]`: the last element of the last row, or an IndexError
      when there is no last row or it is empty. */
  function Corner(g: Grid): (r: Result<real>)
    ensures r.Success? <==> |g| > 0 && |g[|g| - 1]| > 0
    ensures r.Failure? ==> r.error == IndexOutOfRange
    ensures r.Success? ==> IsElement(g, r.value)
  {
    if |g| == 0 then Failure(IndexOutOfRange)
    else
      var last := g[|g| - 1];
      if |last| == 0 then Failure(IndexOutOfRange)
      else Success(last[|last| - 1])
  }

  /** The bottom-right corner is the same element after transposition,
      and it never exceeds the maximum. */
  lemma TransposeKeepsCorner(g: Grid)
    requires Rectangular(g)
    requires HasElement(g)
    ensures Corner(Transpose(g)) == Corner(g)
    ensures Corner(g).value <= GridMax(g).value
  {
    var i :| 0 <= i < |g| && |g[i]| > 0;
    assert |g[|g| - 1]| == Width(g) > 0;
    var t := Transpose(g);
    assert t[Width(g) - 1][|g| - 1] == g[|g| - 1][Width(g) - 1];
  }
}
