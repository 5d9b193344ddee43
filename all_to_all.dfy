/** The all-to-all re-sharding collective, modelled for all W ranks at once: a rank's
    2-D tensor is cut into W equal pieces along the scatter dimension, piece j goes to
    rank j, and every rank joins the W pieces it receives, in sender-rank order, along
    the gather dimension. The lemmas are the laws the collective's tests assert. */
module AllToAll {
  import opened Wrappers
  import opened Sequences

  /** A 2-D tensor, row by row: m[i][c] is row i, column c. */
  type Matrix<T> = seq<seq<T>>

  /** dim 0 and dim 1 of a 2-D tensor. */
  datatype Dim = Rows | Cols

  datatype Shape = Shape(rows: nat, cols: nat)

  /** Why the collective refuses: no ranks, ranks disagreeing on the shape, or an
      extent along the scatter dimension that the world size does not divide. */
  datatype CollectiveError = EmptyGroup | ShapeMismatch | NotDivisible

  predicate IsMatrix<T>(m: Matrix<T>, s: Shape)
  {
    |m| == s.rows && forall i :: 0 <= i < |m| ==> |m[i]| == s.cols
  }

  /** Every rank holds a tensor of shape s. */
  predicate AllShaped<T>(ms: seq<Matrix<T>>, s: Shape)
  {
    forall r :: 0 <= r < |ms| ==> IsMatrix(ms[r], s)
  }

  function Extent(s: Shape, d: Dim): nat
  {
    if d == Rows then s.rows else s.cols
  }

  function Resize(s: Shape, d: Dim, e: nat): Shape
  {
    if d == Rows then s.(rows := e) else s.(cols := e)
  }

  /** The shape of one piece: the scatter extent divided by w. */
  function PieceShape(s: Shape, scatter: Dim, w: nat): Shape
    requires w >= 1
  {
    Resize(s, scatter, Extent(s, scatter) / w)
  }

  /** The result shape: the scatter extent divided by w, then the gather extent times w. */
  function OutShape(s: Shape, scatter: Dim, gather: Dim, w: nat): Shape
    requires w >= 1
  {
    var p := PieceShape(s, scatter, w);
    Resize(p, gather, w * Extent(p, gather))
  }

  // ---------------------------------------------------------------------------
  // Blocks and concatenation of matrices
  // ---------------------------------------------------------------------------

  /** Rows j*k .. (j+1)*k. */
  function RowBlock<T>(m: Matrix<T>, j: nat, k: nat): Matrix<T>
    requires (j + 1) * k <= |m|
  {
    MulMono(j, j + 1, k);
    m[j * k..(j + 1) * k]
  }

  /** Columns j*k .. (j+1)*k of every row. */
  function ColBlock<T>(m: Matrix<T>, j: nat, k: nat): Matrix<T>
    requires forall i :: 0 <= i < |m| ==> (j + 1) * k <= |m[i]|
  {
    MulMono(j, j + 1, k);
    seq(|m|, i requires 0 <= i < |m| => m[i][j * k..(j + 1) * k])
  }

  /** torch.cat(ms, dim=0). */
  function CatRows<T>(ms: seq<Matrix<T>>): Matrix<T>
  {
    Concat(ms)
  }

  /** torch.cat(ms, dim=1) of matrices with `rows` rows (each has at least that many). */
  function CatCols<T>(ms: seq<Matrix<T>>, rows: nat): Matrix<T>
    requires forall r :: 0 <= r < |ms| ==> rows <= |ms[r]|
  {
    seq(rows, i requires 0 <= i < rows => Concat(seq(|ms|, r requires 0 <= r < |ms| => ms[r][i])))
  }

  /** Piece j (of extent k) of m along d. */
  function Piece<T>(m: Matrix<T>, s: Shape, d: Dim, j: nat, k: nat): Matrix<T>
    requires IsMatrix(m, s) && (j + 1) * k <= Extent(s, d)
  {
    if d == Rows then RowBlock(m, j, k) else ColBlock(m, j, k)
  }

  /** torch.cat(ms, dim=d) of pieces of shape p. */
  function Cat<T>(ms: seq<Matrix<T>>, d: Dim, p: Shape): Matrix<T>
    requires AllShaped(ms, p)
  {
    if d == Rows then CatRows(ms) else CatCols(ms, p.rows)
  }

  lemma PieceShapeLaw<T>(m: Matrix<T>, s: Shape, d: Dim, j: nat, k: nat)
    requires IsMatrix(m, s) && (j + 1) * k <= Extent(s, d)
    ensures IsMatrix(Piece(m, s, d, j, k), Resize(s, d, k))
  {
    MulMono(j, j + 1, k);
    assert (j + 1) * k == j * k + k;
  }

  lemma {:induction false} CatRowsShape<T>(ms: seq<Matrix<T>>, p: Shape)
    requires AllShaped(ms, p)
    ensures IsMatrix(CatRows(ms), Shape(|ms| * p.rows, p.cols))
  {
    if ms != [] {
      var front := ms[..|ms| - 1];
      CatRowsShape(front, p);
      assert (|ms| - 1) * p.rows + p.rows == |ms| * p.rows;
    }
  }

  lemma CatColsShape<T>(ms: seq<Matrix<T>>, p: Shape)
    requires AllShaped(ms, p)
    ensures IsMatrix(CatCols(ms, p.rows), Shape(p.rows, |ms| * p.cols))
  {
    forall i | 0 <= i < p.rows ensures |CatCols(ms, p.rows)[i]| == |ms| * p.cols {
      ConcatUniformLength(seq(|ms|, r requires 0 <= r < |ms| => ms[r][i]), p.cols);
    }
  }

  lemma CatShape<T>(ms: seq<Matrix<T>>, d: Dim, p: Shape)
    requires AllShaped(ms, p)
    ensures IsMatrix(Cat(ms, d, p), Resize(p, d, |ms| * Extent(p, d)))
  {
    if d == Rows {
      CatRowsShape(ms, p);
    } else {
      CatColsShape(ms, p);
    }
  }

  /** Block j of a row-concatenation is the j-th matrix. */
  lemma RowBlockCatRows<T>(ms: seq<Matrix<T>>, p: Shape, j: nat)
    requires AllShaped(ms, p) && j < |ms|
    ensures (j + 1) * p.rows <= |CatRows(ms)|
    ensures RowBlock(CatRows(ms), j, p.rows) == ms[j]
  {
    ConcatPiece(ms, p.rows, j);
  }

  /** The w row blocks of k rows that m splits into, in order. */
  function RowBlocks<T>(m: Matrix<T>, w: nat, k: nat): (r: seq<Matrix<T>>)
    requires |m| == w * k
    ensures |r| == w
  {
    seq(w, j requires 0 <= j < w => BlockBounds(j, w, k); RowBlock(m, j, k))
  }

  /** Cutting into row blocks and joining them again by rows is the identity. */
  lemma CatRowsRowBlocks<T>(m: Matrix<T>, w: nat, k: nat)
    requires |m| == w * k
    ensures CatRows(RowBlocks(m, w, k)) == m
  {
    assert RowBlocks(m, w, k) == Blocks(m, w, k);
    ConcatBlocks(m, w, k);
  }

  /** Column block j of a column-concatenation is the j-th matrix. */
  lemma ColBlockCatCols<T>(ms: seq<Matrix<T>>, p: Shape, j: nat)
    requires AllShaped(ms, p) && j < |ms|
    ensures IsMatrix(CatCols(ms, p.rows), Shape(p.rows, |ms| * p.cols))
    ensures (j + 1) * p.cols <= |ms| * p.cols
    ensures ColBlock(CatCols(ms, p.rows), j, p.cols) == ms[j]
  {
    CatColsShape(ms, p);
    BlockBounds(j, |ms|, p.cols);
    var g := CatCols(ms, p.rows);
    forall i | 0 <= i < p.rows ensures ColBlock(g, j, p.cols)[i] == ms[j][i] {
      ConcatPiece(seq(|ms|, r requires 0 <= r < |ms| => ms[r][i]), p.cols, j);
    }
  }

  /** The w column blocks of k columns that m splits into, in order. */
  function ColBlocks<T>(m: Matrix<T>, rows: nat, w: nat, k: nat): (r: seq<Matrix<T>>)
    requires IsMatrix(m, Shape(rows, w * k))
    ensures |r| == w
  {
    seq(w, j requires 0 <= j < w => BlockBounds(j, w, k); ColBlock(m, j, k))
  }

  /** Cutting into column blocks and joining them again by columns is the identity. */
  lemma ColBlocksShape<T>(m: Matrix<T>, rows: nat, w: nat, k: nat)
    requires IsMatrix(m, Shape(rows, w * k))
    ensures AllShaped(ColBlocks(m, rows, w, k), Shape(rows, k))
  {
    forall j | 0 <= j < w ensures IsMatrix(ColBlocks(m, rows, w, k)[j], Shape(rows, k)) {
      BlockBounds(j, w, k);
    }
  }

  lemma CatColsColBlocks<T>(m: Matrix<T>, rows: nat, w: nat, k: nat)
    requires IsMatrix(m, Shape(rows, w * k))
    ensures forall j :: 0 <= j < w ==> |ColBlocks(m, rows, w, k)[j]| == rows
    ensures CatCols(ColBlocks(m, rows, w, k), rows) == m
  {
    var bs := ColBlocks(m, rows, w, k);
    forall i | 0 <= i < rows ensures CatCols(bs, rows)[i] == m[i] {
      assert seq(w, r requires 0 <= r < w => bs[r][i]) == Blocks(m[i], w, k);
      ConcatBlocks(m[i], w, k);
    }
  }

  /** Taking a row block commutes with joining by columns. */
  lemma RowBlockCatCols<T>(ms: seq<Matrix<T>>, p: Shape, j: nat, k: nat)
    requires AllShaped(ms, p) && (j + 1) * k <= p.rows
    ensures IsMatrix(CatCols(ms, p.rows), Shape(p.rows, |ms| * p.cols))
    ensures RowBlock(CatCols(ms, p.rows), j, k)
         == CatCols(seq(|ms|, r requires 0 <= r < |ms| => RowBlock(ms[r], j, k)), k)
  {
    CatColsShape(ms, p);
    MulSucc(j, k);
    var lo := j * k;
    var g := CatCols(ms, p.rows);
    var lhs := RowBlock(g, j, k);
    assert lhs == g[lo..lo + k];
    var bs := seq(|ms|, r requires 0 <= r < |ms| => RowBlock(ms[r], j, k));
    forall i | 0 <= i < k ensures lhs[i] == CatCols(bs, k)[i] {
      assert lhs[i] == g[lo + i];
      forall r | 0 <= r < |ms| ensures bs[r][i] == ms[r][lo + i] {
        assert bs[r] == ms[r][lo..lo + k];
      }
      assert seq(|ms|, r requires 0 <= r < |ms| => bs[r][i])
          == seq(|ms|, r requires 0 <= r < |ms| => ms[r][lo + i]);
    }
  }


  lemma ColBlockAppend<T>(a: Matrix<T>, b: Matrix<T>, j: nat, k: nat)
    requires forall i :: 0 <= i < |a| ==> (j + 1) * k <= |a[i]|
    requires forall i :: 0 <= i < |b| ==> (j + 1) * k <= |b[i]|
    ensures ColBlock(a + b, j, k) == ColBlock(a, j, k) + ColBlock(b, j, k)
  {
  }

  /** Taking a column block commutes with joining by rows. */
  lemma {:induction false} ColBlockCatRows<T>(ms: seq<Matrix<T>>, p: Shape, j: nat, k: nat)
    requires AllShaped(ms, p) && (j + 1) * k <= p.cols
    ensures IsMatrix(CatRows(ms), Shape(|ms| * p.rows, p.cols))
    ensures ColBlock(CatRows(ms), j, k)
         == CatRows(seq(|ms|, r requires 0 <= r < |ms| => ColBlock(ms[r], j, k)))
  {
    CatRowsShape(ms, p);
    var bs := seq(|ms|, r requires 0 <= r < |ms| => ColBlock(ms[r], j, k));
    if ms != [] {
      var n := |ms| - 1;
      var front := ms[..n];
      ColBlockCatRows(front, p, j, k);
      CatRowsShape(front, p);
      ColBlockAppend(CatRows(front), ms[n], j, k);
      assert bs[..n] == seq(n, r requires 0 <= r < n => ColBlock(front[r], j, k));
    }
  }

  // ---------------------------------------------------------------------------
  // The collective
  // ---------------------------------------------------------------------------

  /** The shape checks every rank must pass before entering the collective. */
  function Check<T>(xs: seq<Matrix<T>>, s: Shape, scatter: Dim): Option<CollectiveError>
  {
    if |xs| == 0 then Some(EmptyGroup)
    else if !AllShaped(xs, s) then Some(ShapeMismatch)
    else if Extent(s, scatter) % |xs| != 0 then Some(NotDivisible)
    else None
  }

  /** The data movement once the checks pass: rank j receives piece j of every rank. */
  function Exchange<T>(xs: seq<Matrix<T>>, s: Shape, scatter: Dim, gather: Dim): (r: seq<Matrix<T>>)
    requires Check(xs, s, scatter).None?
    ensures |r| == |xs|
  {
    var w := |xs|;
    var k := Extent(s, scatter) / w;
    seq(w, j requires 0 <= j < w =>
      BlockBounds(j, w, k);
      var pieces := seq(w, q requires 0 <= q < w => Piece(xs[q], s, scatter, j, k));
      assert AllShaped(pieces, PieceShape(s, scatter, w)) by {
        forall q | 0 <= q < w ensures IsMatrix(pieces[q], PieceShape(s, scatter, w)) {
          PieceShapeLaw(xs[q], s, scatter, j, k);
        }
      }
      Cat(pieces, gather, PieceShape(s, scatter, w)))
  }

  /** all_to_all(input, scatter_dim, gather_dim) over every rank's input at once. */
  function AllToAll<T>(xs: seq<Matrix<T>>, s: Shape, scatter: Dim, gather: Dim)
    : (r: Result<seq<Matrix<T>>, CollectiveError>)
    ensures r.Success? <==> |xs| >= 1 && AllShaped(xs, s) && Extent(s, scatter) % |xs| == 0
    ensures r.Failure? ==> r.error == Check(xs, s, scatter).value
    // shape law: scatter extent divided by W, gather extent multiplied by W
    ensures r.Success? ==> |r.value| == |xs| && AllShaped(r.value, OutShape(s, scatter, gather, |xs|))
  {
    match Check(xs, s, scatter)
    case Some(e) => Failure(e)
    case None =>
      var ys := Exchange(xs, s, scatter, gather);
      assert AllShaped(ys, OutShape(s, scatter, gather, |xs|)) by {
        var w := |xs|;
        var k := Extent(s, scatter) / w;
        forall j | 0 <= j < w ensures IsMatrix(ys[j], OutShape(s, scatter, gather, w)) {
          BlockBounds(j, w, k);
          var pieces := seq(w, q requires 0 <= q < w => Piece(xs[q], s, scatter, j, k));
          forall q | 0 <= q < w ensures IsMatrix(pieces[q], PieceShape(s, scatter, w)) {
            PieceShapeLaw(xs[q], s, scatter, j, k);
          }
          CatShape(pieces, gather, PieceShape(s, scatter, w));
        }
      }
      Success(ys)
  }

  /** The gradient rule registered with dual_all_to_all: the same collective applied
      to the output gradient with the two dimensions swapped. */
  function DualAllToAllGrad<T>(gradOut: seq<Matrix<T>>, outShape: Shape, scatter: Dim, gather: Dim)
    : (r: Result<seq<Matrix<T>>, CollectiveError>)
    ensures r.Success? <==> |gradOut| >= 1 && AllShaped(gradOut, outShape) && Extent(outShape, gather) % |gradOut| == 0
    ensures r.Success? ==> |r.value| == |gradOut| && AllShaped(r.value, OutShape(outShape, gather, scatter, |gradOut|))
  {
    AllToAll(gradOut, outShape, gather, scatter)
  }

  // ---------------------------------------------------------------------------
  // The test-side view: _collect_tensors and the global laws of the tests
  // ---------------------------------------------------------------------------

  /** _collect_tensors(tensor, dim): rank 0 receives every rank's tensor joined along
      dim in rank order; every other rank receives None. */
  function CollectTensors<T>(ts: seq<Matrix<T>>, s: Shape, dim: Dim, rank: nat): (r: Option<Matrix<T>>)
    requires AllShaped(ts, s) && rank < |ts|
    ensures r.Some? <==> rank == 0
    ensures r.Some? ==> IsMatrix(r.value, Resize(s, dim, |ts| * Extent(s, dim)))
    // rank q's tensor is the q-th block along dim
    ensures r.Some? && dim == Rows ==> RowBlocks(r.value, |ts|, s.rows) == ts
    ensures r.Some? && dim == Cols ==> ColBlocks(r.value, s.rows, |ts|, s.cols) == ts
  {
    if rank != 0 then None
    else
      CatShape(ts, dim, s);
      var g := Cat(ts, dim, s);
      if dim == Rows then
        BlocksConcat(ts, s.rows);
        assert RowBlocks(g, |ts|, s.rows) == Blocks(g, |ts|, s.rows);
        Some(g)
      else
        assert ColBlocks(g, s.rows, |ts|, s.cols) == ts by {
          forall q | 0 <= q < |ts| ensures ColBlocks(g, s.rows, |ts|, s.cols)[q] == ts[q] {
            ColBlockCatCols(ts, s, q);
          }
        }
        Some(g)
  }

  /** ext_all_to_al_fwd, as its test pins it down: every rank's (B, H/W) input joined by
      columns in rank order is the global (B, H) tensor, and rank j gets its j-th block
      of B/W rows. */
  function ExtAllToAllFwd<T>(xs: seq<Matrix<T>>, s: Shape): (r: Result<seq<Matrix<T>>, CollectiveError>)
    ensures r.Success? <==> Check(xs, s, Rows).None?
    ensures r.Success? ==> |r.value| == |xs| && AllShaped(r.value, OutShape(s, Rows, Cols, |xs|))
  {
    match Check(xs, s, Rows)
    case Some(e) => Failure(e)
    case None =>
      var w := |xs|;
      var b := s.rows / w;
      CatColsShape(xs, s);
      DivExact(s.rows, w);
      var ys := RowBlocks(CatCols(xs, s.rows), w, b);
      assert AllShaped(ys, OutShape(s, Rows, Cols, w)) by {
        forall j | 0 <= j < w ensures IsMatrix(ys[j], Shape(b, w * s.cols)) {
          BlockBounds(j, w, b);
        }
      }
      Success(ys)
  }

  /** ext_all_to_all_bwd, as its test pins it down: every rank's (B/W, H) input joined by
      rows in rank order is the global (B, H) tensor, and rank j gets its j-th block of
      H/W columns. */
  function ExtAllToAllBwd<T>(gs: seq<Matrix<T>>, s: Shape): (r: Result<seq<Matrix<T>>, CollectiveError>)
    ensures r.Success? <==> Check(gs, s, Cols).None?
    ensures r.Success? ==> |r.value| == |gs| && AllShaped(r.value, OutShape(s, Cols, Rows, |gs|))
  {
    match Check(gs, s, Cols)
    case Some(e) => Failure(e)
    case None =>
      var w := |gs|;
      var h := s.cols / w;
      CatRowsShape(gs, s);
      DivExact(s.cols, w);
      var zs := ColBlocks(CatRows(gs), w * s.rows, w, h);
      ColBlocksShape(CatRows(gs), w * s.rows, w, h);
      assert OutShape(s, Cols, Rows, w) == Shape(w * s.rows, h);
      Success(zs)
  }

  /** dual_all_to_all(x, scatter_dim=0, gather_dim=1) computes what ext_all_to_al_fwd
      computes, on every input, the refused ones included. */
  lemma DualForwardIsExtFwd<T>(xs: seq<Matrix<T>>, s: Shape)
    ensures AllToAll(xs, s, Rows, Cols) == ExtAllToAllFwd(xs, s)
  {
    if Check(xs, s, Rows).None? {
      var w := |xs|;
      var b := s.rows / w;
      DivExact(s.rows, w);
      CatColsShape(xs, s);
      var ys := Exchange(xs, s, Rows, Cols);
      var zs := RowBlocks(CatCols(xs, s.rows), w, b);
      forall j | 0 <= j < w ensures ys[j] == zs[j] {
        BlockBounds(j, w, b);
        RowBlockCatCols(xs, s, j, b);
        assert seq(w, q requires 0 <= q < w => Piece(xs[q], s, Rows, j, b))
            == seq(w, q requires 0 <= q < w => RowBlock(xs[q], j, b));
      }
      assert ys == zs;
    }
  }

  /** The gradient dual_all_to_all(x, scatter_dim=0, gather_dim=1) hands back for an
      output gradient is ext_all_to_all_bwd of that gradient, on every input. */
  lemma DualGradIsExtBwd<T>(gradOut: seq<Matrix<T>>, outShape: Shape)
    ensures DualAllToAllGrad(gradOut, outShape, Rows, Cols) == ExtAllToAllBwd(gradOut, outShape)
  {
    var gs, s := gradOut, outShape;
    if Check(gs, s, Cols).None? {
      var w := |gs|;
      var h := s.cols / w;
      DivExact(s.cols, w);
      CatRowsShape(gs, s);
      var ys := Exchange(gs, s, Cols, Rows);
      var zs := ColBlocks(CatRows(gs), w * s.rows, w, h);
      forall j | 0 <= j < w ensures ys[j] == zs[j] {
        BlockBounds(j, w, h);
        ColBlockCatRows(gs, s, j, h);
        assert seq(w, q requires 0 <= q < w => Piece(gs[q], s, Cols, j, h))
            == seq(w, q requires 0 <= q < w => ColBlock(gs[q], j, h));
      }
      assert ys == zs;
    }
  }

  /** The forward test: joining the inputs along dim 1 gives what joining the outputs
      along dim 0 gives, on rank 0; other ranks get None on both sides. */
  lemma ForwardGlobalLaw<T>(xs: seq<Matrix<T>>, s: Shape, rank: nat)
    requires |xs| >= 1 && AllShaped(xs, s) && s.rows % |xs| == 0 && rank < |xs|
    ensures ExtAllToAllFwd(xs, s).Success?
    ensures CollectTensors(xs, s, Cols, rank)
         == CollectTensors(ExtAllToAllFwd(xs, s).value, OutShape(s, Rows, Cols, |xs|), Rows, rank)
  {
    var w := |xs|;
    var b := s.rows / w;
    DivExact(s.rows, w);
    CatColsShape(xs, s);
    CatRowsRowBlocks(CatCols(xs, s.rows), w, b);
  }

  /** The backward test: joining the inputs along dim 0 gives what joining the outputs
      along dim 1 gives. */
  lemma BackwardGlobalLaw<T>(gs: seq<Matrix<T>>, s: Shape, rank: nat)
    requires |gs| >= 1 && AllShaped(gs, s) && s.cols % |gs| == 0 && rank < |gs|
    ensures ExtAllToAllBwd(gs, s).Success?
    ensures CollectTensors(gs, s, Rows, rank)
         == CollectTensors(ExtAllToAllBwd(gs, s).value, OutShape(s, Cols, Rows, |gs|), Cols, rank)
  {
    var w := |gs|;
    var h := s.cols / w;
    DivExact(s.cols, w);
    CatRowsShape(gs, s);
    CatColsColBlocks(CatRows(gs), w * s.rows, w, h);
  }

  /** Backward undoes forward: every rank gets its own input back exactly. */
  lemma ForwardBackwardRoundTrip<T>(xs: seq<Matrix<T>>, s: Shape)
    requires |xs| >= 1 && AllShaped(xs, s) && s.rows % |xs| == 0
    ensures ExtAllToAllFwd(xs, s).Success?
    ensures ExtAllToAllBwd(ExtAllToAllFwd(xs, s).value, OutShape(s, Rows, Cols, |xs|)) == Success(xs)
  {
    var w := |xs|;
    var b := s.rows / w;
    var ys := ExtAllToAllFwd(xs, s).value;
    var s' := OutShape(s, Rows, Cols, w);
    assert s' == Shape(b, w * s.cols);
    DivMulCancel(s.cols, w);
    DivExact(s.rows, w);
    CatColsShape(xs, s);
    CatRowsRowBlocks(CatCols(xs, s.rows), w, b);
    assert CatRows(ys) == CatCols(xs, s.rows);
    var zs := ExtAllToAllBwd(ys, s').value;
    forall j | 0 <= j < w ensures zs[j] == xs[j] {
      ColBlockCatCols(xs, s, j);
    }
    assert zs == xs;
  }

  /** Forward undoes backward. */
  lemma BackwardForwardRoundTrip<T>(gs: seq<Matrix<T>>, s: Shape)
    requires |gs| >= 1 && AllShaped(gs, s) && s.cols % |gs| == 0
    ensures ExtAllToAllBwd(gs, s).Success?
    ensures ExtAllToAllFwd(ExtAllToAllBwd(gs, s).value, OutShape(s, Cols, Rows, |gs|)) == Success(gs)
  {
    var w := |gs|;
    var h := s.cols / w;
    var zs := ExtAllToAllBwd(gs, s).value;
    var s' := OutShape(s, Cols, Rows, w);
    assert s' == Shape(w * s.rows, h);
    DivMulCancel(s.rows, w);
    DivExact(s.cols, w);
    CatRowsShape(gs, s);
    CatColsColBlocks(CatRows(gs), w * s.rows, w, h);
    assert CatCols(zs, w * s.rows) == CatRows(gs);
    var ys := ExtAllToAllFwd(zs, s').value;
    forall j | 0 <= j < w ensures ys[j] == gs[j] {
      RowBlockCatRows(gs, s, j);
    }
    assert ys == gs;
  }

  /** With a single rank both directions hand the input back unchanged. */
  lemma WorldSizeOneIdentity<T>(x: Matrix<T>, s: Shape)
    requires IsMatrix(x, s)
    ensures ExtAllToAllFwd([x], s) == Success([x])
    ensures ExtAllToAllBwd([x], s) == Success([x])
  {
    CatColsShape([x], s);
    var g := CatCols([x], s.rows);
    forall i | 0 <= i < s.rows ensures g[i] == x[i] {
      assert seq(1, r requires 0 <= r < 1 => [x][r][i]) == [x[i]];
      ConcatSingleton(x[i]);
    }
    assert g == x;
    assert RowBlocks(g, 1, s.rows) == [x] by {
      assert RowBlock(g, 0, s.rows) == g[0..s.rows] == x;
    }
    ConcatSingleton(x);
    assert CatRows([x]) == x;
    assert ColBlocks(x, 1 * s.rows, 1, s.cols) == [x] by {
      forall i | 0 <= i < |x| ensures ColBlock(x, 0, s.cols)[i] == x[i] {
        assert x[i][0..s.cols] == x[i];
      }
      assert ColBlock(x, 0, s.cols) == x;
      assert ColBlocks(x, 1 * s.rows, 1, s.cols)[0] == ColBlock(x, 0, s.cols);
    }
  }

  /** The shapes the tests use: (B, H/W) = (2W, 4) in, (B/W, H) = (2, 4W) out, and back. */
  lemma TestShapes(w: nat)
    requires w >= 1
    ensures OutShape(Shape(2 * w, 4), Rows, Cols, w) == Shape(2, 4 * w)
    ensures OutShape(Shape(2, 4 * w), Cols, Rows, w) == Shape(2 * w, 4)
  {
    DivMulCancel(2, w);
    DivMulCancel(4, w);
  }

  /** What rank j receives: piece j of every rank, joined along the gather dimension. */
  lemma ExchangeAt<T>(xs: seq<Matrix<T>>, s: Shape, scatter: Dim, gather: Dim, j: nat)
    requires Check(xs, s, scatter).None? && j < |xs|
    ensures (j + 1) * (Extent(s, scatter) / |xs|) <= Extent(s, scatter)
    ensures var k := Extent(s, scatter) / |xs|;
            var pieces := seq(|xs|, q requires 0 <= q < |xs| => Piece(xs[q], s, scatter, j, k));
            AllShaped(pieces, PieceShape(s, scatter, |xs|))
            && Exchange(xs, s, scatter, gather)[j] == Cat(pieces, gather, PieceShape(s, scatter, |xs|))
  {
    var w := |xs|;
    var k := Extent(s, scatter) / w;
    DivExact(Extent(s, scatter), w);
    BlockBounds(j, w, k);
    var pieces := seq(w, q requires 0 <= q < w => Piece(xs[q], s, scatter, j, k));
    forall q | 0 <= q < w ensures IsMatrix(pieces[q], PieceShape(s, scatter, w)) {
      PieceShapeLaw(xs[q], s, scatter, j, k);
    }
  }

  /** all_to_all(·, d, d) undone by itself: rank j's piece q went to rank q as its
      j-th piece, so repeating the exchange sends it back. Rows case. */
  lemma SameDimRowsPiece<T>(xs: seq<Matrix<T>>, s: Shape, k: nat, q: nat, j: nat)
    requires AllShaped(xs, s) && s.rows == |xs| * k && q < |xs| && j < |xs|
    ensures Check(xs, s, Rows).None?
    ensures (j + 1) * k <= |xs| * k && (q + 1) * k <= |xs| * k
    ensures |Exchange(xs, s, Rows, Rows)[q]| == |xs| * k
    ensures RowBlock(Exchange(xs, s, Rows, Rows)[q], j, k) == RowBlock(xs[j], q, k)
  {
    var w := |xs|;
    DivMulCancel(k, w);
    BlockBounds(j, w, k);
    BlockBounds(q, w, k);
    var p := Shape(k, s.cols);
    assert PieceShape(s, Rows, w) == p;
    var pieces := seq(w, r requires 0 <= r < w => Piece(xs[r], s, Rows, q, k));
    forall r | 0 <= r < w ensures IsMatrix(pieces[r], p) {
      PieceShapeLaw(xs[r], s, Rows, q, k);
    }
    ExchangeAt(xs, s, Rows, Rows, q);
    assert Exchange(xs, s, Rows, Rows)[q] == CatRows(pieces);
    CatRowsShape(pieces, p);
    RowBlockCatRows(pieces, p, j);
  }

  lemma SameDimRoundTripRows<T>(xs: seq<Matrix<T>>, s: Shape)
    requires |xs| >= 1 && AllShaped(xs, s) && s.rows % |xs| == 0
    ensures AllToAll(xs, s, Rows, Rows).Success?
    ensures AllToAll(AllToAll(xs, s, Rows, Rows).value, OutShape(s, Rows, Rows, |xs|), Rows, Rows) == Success(xs)
  {
    var w := |xs|;
    var k := s.rows / w;
    DivExact(s.rows, w);
    DivMulCancel(k, w);
    var s' := OutShape(s, Rows, Rows, w);
    assert s' == Shape(w * k, s.cols);
    var ys := Exchange(xs, s, Rows, Rows);
    assert AllToAll(xs, s, Rows, Rows) == Success(ys);
    var zs := AllToAll(ys, s', Rows, Rows).value;
    forall j | 0 <= j < w ensures zs[j] == xs[j] {
      BlockBounds(j, w, k);
      ExchangeAt(ys, s', Rows, Rows, j);
      forall q | 0 <= q < w ensures Piece(ys[q], s', Rows, j, k) == RowBlocks(xs[j], w, k)[q] {
        SameDimRowsPiece(xs, s, k, q, j);
      }
      assert seq(w, q requires 0 <= q < w => Piece(ys[q], s', Rows, j, k)) == RowBlocks(xs[j], w, k);
      CatRowsRowBlocks(xs[j], w, k);
    }
    assert zs == xs;
  }

  lemma SameDimColsPiece<T>(xs: seq<Matrix<T>>, s: Shape, k: nat, q: nat, j: nat)
    requires AllShaped(xs, s) && s.cols == |xs| * k && q < |xs| && j < |xs|
    ensures Check(xs, s, Cols).None?
    ensures (j + 1) * k <= |xs| * k && (q + 1) * k <= |xs| * k
    ensures IsMatrix(Exchange(xs, s, Cols, Cols)[q], Shape(s.rows, |xs| * k))
    ensures ColBlock(Exchange(xs, s, Cols, Cols)[q], j, k) == ColBlock(xs[j], q, k)
  {
    var w := |xs|;
    DivMulCancel(k, w);
    BlockBounds(j, w, k);
    BlockBounds(q, w, k);
    var p := Shape(s.rows, k);
    assert PieceShape(s, Cols, w) == p;
    var pieces := seq(w, r requires 0 <= r < w => Piece(xs[r], s, Cols, q, k));
    forall r | 0 <= r < w ensures IsMatrix(pieces[r], p) {
      PieceShapeLaw(xs[r], s, Cols, q, k);
    }
    ExchangeAt(xs, s, Cols, Cols, q);
    assert Exchange(xs, s, Cols, Cols)[q] == CatCols(pieces, s.rows);
    ColBlockCatCols(pieces, p, j);
  }

  /** all_to_all(·, d, d) undone by itself. Columns case. */
  lemma SameDimRoundTripCols<T>(xs: seq<Matrix<T>>, s: Shape)
    requires |xs| >= 1 && AllShaped(xs, s) && s.cols % |xs| == 0
    ensures AllToAll(xs, s, Cols, Cols).Success?
    ensures AllToAll(AllToAll(xs, s, Cols, Cols).value, OutShape(s, Cols, Cols, |xs|), Cols, Cols) == Success(xs)
  {
    var w := |xs|;
    var k := s.cols / w;
    DivExact(s.cols, w);
    DivMulCancel(k, w);
    var s' := OutShape(s, Cols, Cols, w);
    assert s' == Shape(s.rows, w * k);
    var ys := Exchange(xs, s, Cols, Cols);
    assert AllToAll(xs, s, Cols, Cols) == Success(ys);
    var zs := AllToAll(ys, s', Cols, Cols).value;
    forall j | 0 <= j < w ensures zs[j] == xs[j] {
      BlockBounds(j, w, k);
      ExchangeAt(ys, s', Cols, Cols, j);
      forall q | 0 <= q < w ensures Piece(ys[q], s', Cols, j, k) == ColBlocks(xs[j], s.rows, w, k)[q] {
        SameDimColsPiece(xs, s, k, q, j);
      }
      assert seq(w, q requires 0 <= q < w => Piece(ys[q], s', Cols, j, k)) == ColBlocks(xs[j], s.rows, w, k);
      CatColsColBlocks(xs[j], s.rows, w, k);
    }
    assert zs == xs;
  }


  /** The gradient rule of dual_all_to_all inverts its forward for every choice of the
      two dimensions: all_to_all(all_to_all(T, a, b), b, a) == T. */
  lemma DualRoundTrip<T>(xs: seq<Matrix<T>>, s: Shape, scatter: Dim, gather: Dim)
    requires |xs| >= 1 && AllShaped(xs, s) && Extent(s, scatter) % |xs| == 0
    ensures AllToAll(xs, s, scatter, gather).Success?
    ensures DualAllToAllGrad(AllToAll(xs, s, scatter, gather).value, OutShape(s, scatter, gather, |xs|), scatter, gather)
         == Success(xs)
  {
    var s' := OutShape(s, scatter, gather, |xs|);
    match (scatter, gather)
    case (Rows, Cols) =>
      DualForwardIsExtFwd(xs, s);
      DualGradIsExtBwd(ExtAllToAllFwd(xs, s).value, s');
      ForwardBackwardRoundTrip(xs, s);
    case (Cols, Rows) =>
      DualGradIsExtBwd(xs, s);
      DualForwardIsExtFwd(ExtAllToAllBwd(xs, s).value, s');
      BackwardForwardRoundTrip(xs, s);
    case (Rows, Rows) =>
      SameDimRoundTripRows(xs, s);
    case (Cols, Cols) =>
      SameDimRoundTripCols(xs, s);
  }
}
