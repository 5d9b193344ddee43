/** Concatenation of pieces and the contiguous-slice laws that row sharding and the
    all-to-all regrouping are built from. */
module Sequences {

  /** The pieces joined end to end, in order (torch.cat of 1-D pieces, or of
      matrices along dim 0). */
  function Concat<T>(ss: seq<seq<T>>): seq<T>
  {
    if ss == [] then [] else Concat(ss[..|ss| - 1]) + ss[|ss| - 1]
  }

  /** Every piece has length k. */
  predicate Uniform<T>(ss: seq<seq<T>>, k: nat)
  {
    forall i :: 0 <= i < |ss| ==> |ss[i]| == k
  }

  /** A cut list: nondecreasing positions, all at most n. */
  predicate IsCuts(cuts: seq<nat>, n: nat)
  {
    && |cuts| >= 1
    && (forall i, j :: 0 <= i <= j < |cuts| ==> cuts[i] <= cuts[j])
    && cuts[|cuts| - 1] <= n
  }

  /** The pieces of s between consecutive cuts. */
  function Slices<T>(s: seq<T>, cuts: seq<nat>): (r: seq<seq<T>>)
    requires IsCuts(cuts, |s|)
    ensures |r| == |cuts| - 1
  {
    seq(|cuts| - 1, k requires 0 <= k < |cuts| - 1 => s[cuts[k]..cuts[k + 1]])
  }

  lemma AppendAssoc<T>(a: seq<T>, b: seq<T>, c: seq<T>)
    ensures a + (b + c) == (a + b) + c
  {
  }

  lemma {:induction false} ConcatSingleton<T>(x: seq<T>)
    ensures Concat([x]) == x
  {
    assert [x][..0] == [];
  }

  lemma {:induction false} ConcatAppend<T>(a: seq<seq<T>>, b: seq<seq<T>>)
    ensures Concat(a + b) == Concat(a) + Concat(b)
  {
    if b == [] {
      assert a + b == a;
    } else {
      var n := |b| - 1;
      var ab := a + b;
      assert ab[..|ab| - 1] == a + b[..n];
      assert ab[|ab| - 1] == b[n];
      assert Concat(ab) == Concat(a + b[..n]) + b[n];
      ConcatAppend(a, b[..n]);
      AppendAssoc(Concat(a), Concat(b[..n]), b[n]);
    }
  }

  lemma {:induction false} ConcatUniformLength<T>(ss: seq<seq<T>>, k: nat)
    requires Uniform(ss, k)
    ensures |Concat(ss)| == |ss| * k
  {
    if ss != [] {
      var n := |ss| - 1;
      ConcatUniformLength(ss[..n], k);
      assert |Concat(ss)| == n * k + k;
      MulSucc(n, k);
    }
  }

  lemma MulSucc(n: nat, k: nat)
    ensures (n + 1) * k == n * k + k
  {
  }

  /** Joining the slices between the cuts gives back the part of s the cuts span. */
  lemma {:induction false} ConcatSlices<T>(s: seq<T>, cuts: seq<nat>)
    requires IsCuts(cuts, |s|)
    ensures Concat(Slices(s, cuts)) == s[cuts[0]..cuts[|cuts| - 1]]
  {
    var m := |cuts|;
    if m > 1 {
      var front := cuts[..m - 1];
      assert IsCuts(front, |s|);
      assert Slices(s, cuts)[..m - 2] == Slices(s, front);
      ConcatSlices(s, front);
      assert s[cuts[0]..cuts[m - 2]] + s[cuts[m - 2]..cuts[m - 1]] == s[cuts[0]..cuts[m - 1]];
    }
  }

  /** In a concatenation of pieces of length k, positions j*k .. (j+1)*k hold piece j. */
  lemma {:induction false} ConcatPiece<T>(ss: seq<seq<T>>, k: nat, j: nat)
    requires Uniform(ss, k) && j < |ss|
    ensures (j + 1) * k <= |Concat(ss)|
    ensures Concat(ss)[j * k..(j + 1) * k] == ss[j]
  {
    var front, back := ss[..j], ss[j + 1..];
    var upto := front + [ss[j]];
    assert ss == upto + back;
    ConcatAppend(upto, back);
    ConcatAppend(front, [ss[j]]);
    ConcatSingleton(ss[j]);
    assert Uniform(front, k);
    ConcatUniformLength(front, k);
    ConcatUniformLength(ss, k);
    var lo := |Concat(front)|;
    assert lo == j * k;
    BlockBounds(j, |ss|, k);
    assert Concat(ss) == (Concat(front) + ss[j]) + Concat(back);
    assert Concat(ss)[lo..lo + k] == ss[j];
  }

  lemma MulMono(a: nat, b: nat, k: nat)
    requires a <= b
    ensures a * k <= b * k
  {
  }

  /** When w divides a, a is w copies of a / w. */
  lemma DivExact(a: nat, w: nat)
    requires w >= 1 && a % w == 0
    ensures a == w * (a / w)
  {
  }

  /** A positive multiple of w is at least w. */
  lemma {:induction false} MulAtLeast(d: int, w: int)
    ensures d >= 1 && w >= 1 ==> w * d >= w
    decreases if d < 1 then 0 else d
  {
    if d > 1 && w >= 1 {
      MulAtLeast(d - 1, w);
      assert w * d == w * (d - 1) + w;
    }
  }

  lemma DivMulCancel(c: nat, w: nat)
    requires w >= 1
    ensures (w * c) / w == c && (w * c) % w == 0
  {
    var q, r := (w * c) / w, (w * c) % w;
    assert w * c == w * q + r && 0 <= r < w;
    assert w * (c - q) == r && w * (q - c) == -r;
    MulAtLeast(c - q, w);
    MulAtLeast(q - c, w);
  }

  /** Block j of n blocks of length k spans j*k .. j*k + k, inside n*k. */
  lemma BlockBounds(j: nat, n: nat, k: nat)
    requires j < n
    ensures (j + 1) * k == j * k + k
    ensures (j + 1) * k <= n * k
  {
    MulMono(j + 1, n, k);
  }

  /** The n blocks of length k that s splits into, in order. */
  function Blocks<T>(s: seq<T>, n: nat, k: nat): (r: seq<seq<T>>)
    requires |s| == n * k
    ensures |r| == n
  {
    seq(n, j requires 0 <= j < n => BlockBounds(j, n, k); s[j * k..(j + 1) * k])
  }

  lemma BlocksUniform<T>(s: seq<T>, n: nat, k: nat)
    requires |s| == n * k
    ensures Uniform(Blocks(s, n, k), k)
  {
    forall j | 0 <= j < n ensures |Blocks(s, n, k)[j]| == k {
      BlockBounds(j, n, k);
    }
  }

  /** Cutting into equal blocks and joining them again is the identity. */
  lemma {:induction false} ConcatBlocks<T>(s: seq<T>, n: nat, k: nat)
    requires |s| == n * k
    ensures Concat(Blocks(s, n, k)) == s
  {
    var cuts := seq(n + 1, j requires 0 <= j < n + 1 => j * k);
    forall i, j | 0 <= i <= j < |cuts| ensures cuts[i] <= cuts[j] {
      MulMono(i, j, k);
    }
    assert IsCuts(cuts, |s|);
    assert Slices(s, cuts) == Blocks(s, n, k);
    ConcatSlices(s, cuts);
    assert s[cuts[0]..cuts[n]] == s;
  }

  /** Joining pieces of length k and cutting into blocks of k gives back the pieces. */
  lemma {:induction false} BlocksConcat<T>(ss: seq<seq<T>>, k: nat)
    requires Uniform(ss, k)
    ensures |Concat(ss)| == |ss| * k
    ensures Blocks(Concat(ss), |ss|, k) == ss
  {
    ConcatUniformLength(ss, k);
    forall j | 0 <= j < |ss| ensures Blocks(Concat(ss), |ss|, k)[j] == ss[j] {
      ConcatPiece(ss, k, j);
    }
  }
}
