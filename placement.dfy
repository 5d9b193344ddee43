/** Batch placement: moving a batch to its devices and, when one global batch is
    replicated to every worker, keeping this worker's contiguous row shard
    (put_data_in_device with torch.tensor_split semantics). */
module Placement {
  import opened Sequences

  datatype Device = Cpu | Cuda(index: nat)

  /** A tensor with the device that holds it. */
  datatype Tensor<T> = Tensor(data: T, device: Device)

  /** One row of dense features; values are never inspected, only moved. */
  type DenseRow = seq<int>
  type Label = int
  /** The jagged sparse index structure; it is only ever moved whole. */
  type SparseFeatures = seq<seq<int>>

  /** `.to(device)`: the contents stay as they are, only the location changes. */
  function To<T>(t: Tensor<T>, d: Device): Tensor<T>
  {
    Tensor(t.data, d)
  }

  // ---------------------------------------------------------------------------
  // torch.tensor_split(t, n, dim=0): n contiguous sections; the first len % n of
  // them get one extra row; nothing is rejected when n does not divide len.
  // ---------------------------------------------------------------------------

  /** Where section k starts: k full sections plus one extra row for each of the
      first min(k, len % n) sections. */
  function SectionStart(len: nat, n: nat, k: nat): nat
    requires n >= 1
  {
    k * (len / n) + if k < len % n then k else len % n
  }

  lemma SectionStartMono(len: nat, n: nat, i: nat, j: nat)
    requires n >= 1 && i <= j
    ensures SectionStart(len, n, i) <= SectionStart(len, n, j)
  {
    MulMono(i, j, len / n);
  }

  lemma SectionStep(len: nat, n: nat, k: nat)
    requires n >= 1
    ensures SectionStart(len, n, k + 1)
         == SectionStart(len, n, k) + len / n + (if k < len % n then 1 else 0)
  {
    assert (k + 1) * (len / n) == k * (len / n) + len / n;
  }

  /** Section k lies inside the rows and has len / n rows, one more among the first len % n. */
  lemma SectionBounds(len: nat, n: nat, k: nat)
    requires n >= 1 && k < n
    ensures SectionStart(len, n, k + 1) <= len
    ensures SectionStart(len, n, k + 1) == SectionStart(len, n, k) + len / n + (if k < len % n then 1 else 0)
  {
    SectionStartMono(len, n, k + 1, n);
    SectionEnd(len, n);
    SectionStep(len, n, k);
  }

  lemma SectionEnd(len: nat, n: nat)
    requires n >= 1
    ensures SectionStart(len, n, n) == len
  {
    assert n * (len / n) + len % n == len;
  }

  /** Section k of n of the rows s, as torch.tensor_split(s, n)[k]. */
  function TensorSplit<T>(s: seq<T>, n: nat, k: nat): (r: seq<T>)
    requires 1 <= n && k < n
    ensures |r| == |s| / n + (if k < |s| % n then 1 else 0)
  {
    SectionBounds(|s|, n, k);
    s[SectionStart(|s|, n, k)..SectionStart(|s|, n, k + 1)]
  }

  /** All n sections, in order. */
  function AllSections<T>(s: seq<T>, n: nat): (r: seq<seq<T>>)
    requires n >= 1
    ensures |r| == n
  {
    seq(n, k requires 0 <= k < n => TensorSplit(s, n, k))
  }

  /** Joining the sections of every rank in rank order gives back the rows. */
  lemma {:induction false} TensorSplitPartition<T>(s: seq<T>, n: nat)
    requires n >= 1
    ensures Concat(AllSections(s, n)) == s
  {
    var cuts := seq(n + 1, k requires 0 <= k < n + 1 => SectionStart(|s|, n, k));
    forall i, j | 0 <= i <= j < |cuts| ensures cuts[i] <= cuts[j] {
      SectionStartMono(|s|, n, i, j);
    }
    SectionEnd(|s|, n);
    assert IsCuts(cuts, |s|);
    assert Slices(s, cuts) == AllSections(s, n);
    ConcatSlices(s, cuts);
    assert cuts[0] == 0 && cuts[n] == |s|;
    assert s[0..|s|] == s;
  }

  /** Earlier sections are never smaller, and sections differ by at most one row. */
  lemma TensorSplitBalanced<T>(s: seq<T>, n: nat, i: nat, j: nat)
    requires 1 <= n && i <= j < n
    ensures |TensorSplit(s, n, j)| <= |TensorSplit(s, n, i)| <= |TensorSplit(s, n, j)| + 1
  {
  }

  /** A section is never longer than what was split, and with two or more ranks it
      is strictly shorter once there are two rows or more. */
  lemma TensorSplitShrinks<T>(s: seq<T>, n: nat, k: nat)
    requires 1 <= n && k < n
    ensures |TensorSplit(s, n, k)| <= |s|
    ensures n >= 2 && |s| >= 2 ==> |TensorSplit(s, n, k)| < |s|
  {
    var q, r := |s| / n, |s| % n;
    assert |s| == n * q + r && 0 <= r < n;
    MulMono(1, n, q);
    if n >= 2 {
      MulMono(2, n, q);
    }
  }

  /** Four rows over three ranks: sections of 2, 1 and 1 rows; no error. */
  lemma TensorSplitIndivisible<T>(s: seq<T>)
    requires |s| == 4
    ensures TensorSplit(s, 3, 0) == s[0..2]
    ensures TensorSplit(s, 3, 1) == s[2..3]
    ensures TensorSplit(s, 3, 2) == s[3..4]
  {
  }

  /** With one rank the only section is everything. */
  lemma TensorSplitWhole<T>(s: seq<T>)
    ensures TensorSplit(s, 1, 0) == s
  {
  }

  // ---------------------------------------------------------------------------
  // Batches
  // ---------------------------------------------------------------------------

  /** The contents of a batch object; `serial` tells batches of one source apart. */
  datatype BatchVal = BatchVal(
    serial: nat,
    dense: Tensor<seq<DenseRow>>,
    sparse: Tensor<SparseFeatures>,
    labels: Tensor<seq<Label>>)

  /** A batch object: put_data_in_device overwrites its fields in place. */
  class Batch {
    const serial: nat
    var dense: Tensor<seq<DenseRow>>
    var sparse: Tensor<SparseFeatures>
    var labels: Tensor<seq<Label>>

    constructor (v: BatchVal)
      ensures Value() == v
    {
      serial, dense, sparse, labels := v.serial, v.dense, v.sparse, v.labels;
    }

    function Value(): BatchVal
      reads this
    {
      BatchVal(serial, dense, sparse, labels)
    }
  }

  /** What put_data_in_device returns: the same (mutated) batch object, or a fresh
      (dense, sparse, labels) tuple. */
  datatype Placed =
    | InPlace(batch: Batch)
    | Triple(dense: Tensor<seq<DenseRow>>, sparse: Tensor<SparseFeatures>, labels: Tensor<seq<Label>>)

  /** The contents of a Placed, as a value. */
  datatype PlacedVal =
    | BatchV(batch: BatchVal)
    | TripleV(dense: Tensor<seq<DenseRow>>, sparse: Tensor<SparseFeatures>, labels: Tensor<seq<Label>>)
  {
    function Dense(): Tensor<seq<DenseRow>> { if BatchV? then batch.dense else dense }
    function Sparse(): Tensor<SparseFeatures> { if BatchV? then batch.sparse else sparse }
    function Labels(): Tensor<seq<Label>> { if BatchV? then batch.labels else labels }
  }

  function Objects(p: Placed): set<object>
  {
    if p.InPlace? then {p.batch} else {}
  }

  function ValueOf(p: Placed): PlacedVal
    reads Objects(p)
  {
    match p
    case InPlace(b) => BatchV(b.Value())
    case Triple(d, s, l) => TripleV(d, s, l)
  }

  /** put_data_in_device on the contents of a batch. */
  function Place(v: BatchVal, denseDevice: Device, sparseDevice: Device, isDist: bool, rank: nat, worldSize: nat)
    : (r: PlacedVal)
    requires !isDist ==> rank < worldSize
    // the distributed branch builds a tuple, the other keeps the batch
    ensures r.TripleV? <==> isDist
    ensures r.BatchV? ==> r.batch.serial == v.serial
    // the sparse part is moved whole in both branches, never split
    ensures r.Sparse() == To(v.sparse, sparseDevice)
    ensures r.Dense().device == denseDevice && r.Labels().device == denseDevice
    // the distributed branch does not split rows
    ensures isDist ==> r.Dense().data == v.dense.data && r.Labels().data == v.labels.data
    // otherwise this rank keeps |rows| / worldSize rows, one more when it is among the first |rows| % worldSize
    ensures !isDist ==> |r.Dense().data| == |v.dense.data| / worldSize + (if rank < |v.dense.data| % worldSize then 1 else 0)
    ensures !isDist && |v.dense.data| == |v.labels.data| ==> |r.Dense().data| == |r.Labels().data|
  {
    if isDist then
      TripleV(To(v.dense, denseDevice), To(v.sparse, sparseDevice), To(v.labels, denseDevice))
    else
      BatchV(v.(dense := Tensor(TensorSplit(v.dense.data, worldSize, rank), denseDevice),
                labels := Tensor(TensorSplit(v.labels.data, worldSize, rank), denseDevice),
                sparse := To(v.sparse, sparseDevice)))
  }

  /** The dense rows and labels every rank keeps, joined in rank order, are the
      original rows and labels: no row is lost or duplicated, whatever the row count. */
  lemma PlaceAllRanks(v: BatchVal, denseDevice: Device, sparseDevice: Device, worldSize: nat)
    requires worldSize >= 1
    ensures Concat(seq(worldSize, k requires 0 <= k < worldSize =>
                     Place(v, denseDevice, sparseDevice, false, k, worldSize).Dense().data)) == v.dense.data
    ensures Concat(seq(worldSize, k requires 0 <= k < worldSize =>
                     Place(v, denseDevice, sparseDevice, false, k, worldSize).Labels().data)) == v.labels.data
  {
    assert seq(worldSize, k requires 0 <= k < worldSize =>
                 Place(v, denseDevice, sparseDevice, false, k, worldSize).Dense().data)
        == AllSections(v.dense.data, worldSize);
    assert seq(worldSize, k requires 0 <= k < worldSize =>
                 Place(v, denseDevice, sparseDevice, false, k, worldSize).Labels().data)
        == AllSections(v.labels.data, worldSize);
    TensorSplitPartition(v.dense.data, worldSize);
    TensorSplitPartition(v.labels.data, worldSize);
  }

  /** put_data_in_device(batch, dense_device, sparse_device, is_dist, rank, world_size). */
  method PutDataInDevice(batch: Batch, denseDevice: Device, sparseDevice: Device, isDist: bool, rank: nat, worldSize: nat)
    returns (r: Placed)
    requires !isDist ==> rank < worldSize
    modifies batch
    ensures ValueOf(r) == Place(old(batch.Value()), denseDevice, sparseDevice, isDist, rank, worldSize)
    ensures isDist ==> unchanged(batch)
    ensures !isDist ==> r == InPlace(batch)
  {
    if isDist {
      r := Triple(To(batch.dense, denseDevice), To(batch.sparse, sparseDevice), To(batch.labels, denseDevice));
    } else {
      batch.dense := Tensor(TensorSplit(To(batch.dense, denseDevice).data, worldSize, rank), denseDevice);
      batch.labels := Tensor(TensorSplit(To(batch.labels, denseDevice).data, worldSize, rank), denseDevice);
      batch.sparse := To(batch.sparse, sparseDevice);
      r := InPlace(batch);
    }
  }
}
