/**
 * Index arithmetic behind the tensor reshapes the model uses: `view` of a flat vector as rows,
 * its inverse `flatten`, `transpose` of the two leading axes, and the adjacent-channel pairing
 * that `view_as_complex` / `view_as_real` perform. Tensor elements are abstract values.
 */
module Tensors {

  /** One tensor element. Its numeric value never matters to the bookkeeping modelled here. */
  type Scalar(==, !new)

  /** One complex number as `view_as_complex` builds it from two adjacent channels. */
  datatype Complex<T> = Complex(re: T, im: T)

  /** Every row of `m` has length `cols`. */
  predicate Rect<T>(m: seq<seq<T>>, cols: nat)
  {
    forall i :: 0 <= i < |m| ==> |m[i]| == cols
  }

  /** Concatenation of all rows: `flatten`, and the `view` that merges two trailing axes. */
  function Flatten<T>(m: seq<seq<T>>): seq<T>
  {
    if m == [] then [] else m[0] + Flatten(m[1..])
  }

  /** Row-major `view(rows, width)` of a flat vector. */
  function Chunk<T>(v: seq<T>, rows: nat, width: nat): (r: seq<seq<T>>)
    requires |v| == rows * width
    ensures |r| == rows && Rect(r, width)
    decreases rows
  {
    if rows == 0 then []
    else
      assert |v[width..]| == (rows - 1) * width;
      [v[..width]] + Chunk(v[width..], rows - 1, width)
  }

  lemma {:induction false} FlattenLength<T>(m: seq<seq<T>>, cols: nat)
    requires Rect(m, cols)
    ensures |Flatten(m)| == |m| * cols
  {
    if m != [] {
      FlattenLength(m[1..], cols);
    }
  }

  /** Element (i, j) of the row-major view is element `i * width + j` of the flat vector. */
  lemma {:induction false} ChunkAt<T>(v: seq<T>, rows: nat, width: nat, i: nat, j: nat)
    requires |v| == rows * width && i < rows && j < width
    ensures i * width + j < |v| && Chunk(v, rows, width)[i][j] == v[i * width + j]
    decreases rows
  {
    RowBound(i, rows, width, j);
    var rest := v[width..];
    assert |rest| == (rows - 1) * width by {
      MulSucc(rows - 1, width);
    }
    assert Chunk(v, rows, width) == [v[..width]] + Chunk(rest, rows - 1, width);
    if i == 0 {
      assert Chunk(v, rows, width)[0] == v[..width];
    } else {
      var n := (i - 1) * width;
      assert n + j < |rest| && width + (n + j) == i * width + j by {
        MulSucc(i - 1, width);
        RowBound(i - 1, rows - 1, width, j);
      }
      ChunkAt(rest, rows - 1, width, i - 1, j);
      assert Chunk(v, rows, width)[i] == Chunk(rest, rows - 1, width)[i - 1];
      assert rest[n + j] == v[width + (n + j)];
    }
  }

  lemma MulSucc(a: nat, w: nat)
    ensures (a + 1) * w == a * w + w
  {
  }

  lemma MulMono(a: nat, b: nat, w: nat)
    requires a <= b
    ensures a * w <= b * w
  {
  }

  /** A row-major index `i * w + j` with `i < rows` and `j < w` lies inside a `rows * w` vector. */
  lemma RowBound(i: nat, rows: nat, w: nat, j: nat)
    requires i < rows && j < w
    ensures i * w + j < rows * w
  {
    MulSucc(i, w);
    MulMono(i + 1, rows, w);
  }

  /** Undoing a view by flattening gives the original vector back. */
  lemma {:induction false} FlattenChunk<T>(v: seq<T>, rows: nat, width: nat)
    requires |v| == rows * width
    ensures Flatten(Chunk(v, rows, width)) == v
    decreases rows
  {
    if rows > 0 {
      assert |v[width..]| == (rows - 1) * width;
      FlattenChunk(v[width..], rows - 1, width);
    }
  }

  /** Viewing a flattened rectangular block with its own width gives the block back. */
  lemma {:induction false} ChunkFlatten<T>(m: seq<seq<T>>, width: nat)
    requires Rect(m, width)
    ensures |Flatten(m)| == |m| * width
    ensures Chunk(Flatten(m), |m|, width) == m
  {
    FlattenLength(m, width);
    if m != [] {
      ChunkFlatten(m[1..], width);
      assert Flatten(m)[..width] == m[0];
      assert Flatten(m)[width..] == Flatten(m[1..]);
    }
  }

  /** `transpose` of the two leading axes of a block whose rows all have `cols` entries. */
  function Transpose<T>(m: seq<seq<T>>, cols: nat): (r: seq<seq<T>>)
    requires Rect(m, cols)
    ensures |r| == cols && Rect(r, |m|)
    ensures forall j, i :: 0 <= j < cols && 0 <= i < |m| ==> r[j][i] == m[i][j]
  {
    seq(cols, j requires 0 <= j < cols => seq(|m|, i requires 0 <= i < |m| => m[i][j]))
  }

  /** Transposing twice is the identity. */
  lemma TransposeTwice<T>(m: seq<seq<T>>, cols: nat)
    requires Rect(m, cols)
    ensures Transpose(Transpose(m, cols), |m|) == m
  {
    var t := Transpose(Transpose(m, cols), |m|);
    assert |t| == |m|;
    forall i | 0 <= i < |m| ensures t[i] == m[i] {
      assert |t[i]| == cols == |m[i]|;
    }
  }

  /** `view_as_complex(v.reshape(-1, 2))`: channels (2k, 2k+1) become complex number k. */
  function Pairs<T>(v: seq<T>): (p: seq<Complex<T>>)
    requires |v| % 2 == 0
    ensures |p| == |v| / 2
    ensures forall k :: 0 <= k < |p| ==> p[k] == Complex(v[2 * k], v[2 * k + 1])
  {
    seq(|v| / 2, k requires 0 <= k < |v| / 2 => Complex(v[2 * k], v[2 * k + 1]))
  }

  /** `view_as_real(p).flatten()`: complex number k becomes channels (2k, 2k+1). */
  function Unpairs<T>(p: seq<Complex<T>>): (v: seq<T>)
    ensures |v| == 2 * |p|
    ensures forall k :: 0 <= k < |p| ==> v[2 * k] == p[k].re && v[2 * k + 1] == p[k].im
  {
    if p == [] then [] else [p[0].re, p[0].im] + Unpairs(p[1..])
  }

  /** Unpairing undoes pairing. */
  lemma UnpairsPairs<T>(v: seq<T>)
    requires |v| % 2 == 0
    ensures Unpairs(Pairs(v)) == v
  {
    var u := Unpairs(Pairs(v));
    forall c | 0 <= c < |v| ensures u[c] == v[c] {
      var p := Pairs(v);
      var k := c / 2;
      assert k < |p|;
      if c % 2 == 0 {
        assert c == 2 * k;
        assert u[2 * k] == p[k].re == v[2 * k];
      } else {
        assert c == 2 * k + 1;
        assert u[2 * k + 1] == p[k].im == v[2 * k + 1];
      }
    }
  }

  /** Pairing undoes unpairing. */
  lemma PairsUnpairs<T>(p: seq<Complex<T>>)
    ensures Pairs(Unpairs(p)) == p
  {
  }
}
