/** The flat layout of one roi row of deltas or boxes.

A row of `4 * K` reals holds K groups of four coordinates, group after group:
flat index `4 * k + j` is coordinate `j` of group `k`. The decoder reads this
layout with stride-4 slices (`row[j::4]`) and writes it back with
`torch.stack([...], dim=-1).view(...)`; per-coordinate tuples of four
(`means`, `stds`) are repeated K times to line up with it.
 */
module Layout {

  /** Four per-coordinate columns of one row, such as (dx, dy, dw, dh) or
      (x1, y1, x2, y2), each holding one entry per group. */
  datatype Columns = Columns(c0: seq<real>, c1: seq<real>, c2: seq<real>, c3: seq<real>) {

    /** All four columns have the same number of groups. */
    predicate Uniform() {
      |c1| == |c0| && |c2| == |c0| && |c3| == |c0|
    }

    /** The number of groups. */
    function Width(): nat {
      |c0|
    }

    /** Column `j`, for coordinate `j` of a group. */
    function Get(j: nat): seq<real>
      requires j < 4
    {
      if j == 0 then c0 else if j == 1 then c1 else if j == 2 then c2 else c3
    }
  }

  /** A four-tuple repeated `n` times, as `tensor(v).view(1, -1).repeat(1, n)`. */
  function Tile(v: seq<real>, n: nat): (r: seq<real>)
    requires |v| == 4
    ensures |r| == 4 * n
    ensures forall i :: 0 <= i < |r| ==> r[i] == v[i % 4]
  {
    if n == 0 then []
    else
      var prefix := Tile(v, n - 1);
      assert forall i :: 4 * (n - 1) <= i < 4 * n ==> i % 4 == i - 4 * (n - 1);
      prefix + v
  }

  /** The Python slice `s[start::4]`: the elements at start, start + 4, start + 8, ...
      below `|s|`, in order. */
  function Stride(s: seq<real>, start: nat): (r: seq<real>)
    ensures |r| == if start < |s| then (|s| - start + 3) / 4 else 0
    ensures forall t :: 0 <= t < |r| ==> r[t] == s[start + 4 * t]
    decreases |s| - start
  {
    if start >= |s| then [] else [s[start]] + Stride(s, start + 4)
  }

  /** `torch.stack([c0, c1, c2, c3], dim=-1).view(...)`: the columns interleaved
      back into one flat row, group after group; flat index `i` is group `i / 4`
      of column `i % 4`. */
  function Stack(cols: Columns): (r: seq<real>)
    requires cols.Uniform()
    ensures |r| == 4 * cols.Width()
    ensures forall k, j :: 0 <= k < cols.Width() && 0 <= j < 4 ==> r[4 * k + j] == cols.Get(j)[k]
  {
    seq(4 * cols.Width(), i requires 0 <= i < 4 * cols.Width() => cols.Get(i % 4)[i / 4])
  }

  /** `row[..., 0::4]`, `row[..., 1::4]`, `row[..., 2::4]`, `row[..., 3::4]`: a row
      of `4 * K` split into its four coordinate columns of K entries each. */
  function SplitStrided(s: seq<real>): (cols: Columns)
    requires |s| % 4 == 0
    ensures cols.Uniform() && cols.Width() == |s| / 4
    ensures forall k, j :: 0 <= k < cols.Width() && 0 <= j < 4 ==> cols.Get(j)[k] == s[4 * k + j]
  {
    var cols := Columns(Stride(s, 0), Stride(s, 1), Stride(s, 2), Stride(s, 3));
    assert forall j :: 0 <= j < 4 ==> |cols.Get(j)| == |s| / 4;
    cols
  }

  /** Stacking four columns and splitting the row again gives the columns back. */
  lemma SplitOfStack(cols: Columns)
    requires cols.Uniform()
    ensures SplitStrided(Stack(cols)) == cols
  {
    var s := Stack(cols);
    var back := SplitStrided(s);
    forall j | 0 <= j < 4
      ensures back.Get(j) == cols.Get(j)
    {
      forall k | 0 <= k < cols.Width()
        ensures back.Get(j)[k] == cols.Get(j)[k]
      {
      }
    }
    assert back.c0 == cols.c0 by { assert back.Get(0) == cols.Get(0); }
    assert back.c1 == cols.c1 by { assert back.Get(1) == cols.Get(1); }
    assert back.c2 == cols.c2 by { assert back.Get(2) == cols.Get(2); }
    assert back.c3 == cols.c3 by { assert back.Get(3) == cols.Get(3); }
  }

  /** Splitting a row of `4 * K` into its columns and stacking them again gives
      the row back. */
  lemma StackOfSplit(s: seq<real>)
    requires |s| % 4 == 0
    ensures Stack(SplitStrided(s)) == s
  {
    var cols := SplitStrided(s);
    var r := Stack(cols);
    forall i | 0 <= i < |s|
      ensures r[i] == s[i]
    {
      var k, j := i / 4, i % 4;
      assert i == 4 * k + j;
      assert r[4 * k + j] == cols.Get(j)[k];
    }
  }
}
