/** What one replicated vertex record holds, and the layout of the whole
    replicated vertex buffer, as functions of the snapshot of the source
    vertex buffer and the placement list.

    A record is `vertexSize` bytes. Its first twelve bytes are the position;
    when the element mask has `MASK_NORMAL` the next twelve are the normal.
    Replication rewrites those and copies every other byte of the record
    unchanged. */
module VertexLayout {
  import opened Types
  import opened Offsets

  /** The element-mask bit of the vertex normal. */
  const MASK_NORMAL: bv32 := 0x2

  predicate HasNormal(elementMask: bv32)
  {
    elementMask & MASK_NORMAL != 0
  }

  /** The number of leading bytes of a record that replication recomputes. */
  function HeaderSize(hasNormal: bool): nat
  {
    if hasNormal then 2 * VECTOR3_SIZE else VECTOR3_SIZE
  }

  /** The position of a source record, moved by placement `p`. */
  function TransformedPosition(src: seq<Byte>, p: PRotScale, ops: FloatOps): Vector3
    requires |src| >= VECTOR3_SIZE
  {
    ops.transform(p, DecodeVector3(src[..VECTOR3_SIZE]))
  }

  /** The normal of a source record, turned by the rotation of `p`. */
  function RotatedNormal(src: seq<Byte>, p: PRotScale, ops: FloatOps): Vector3
    requires |src| >= 2 * VECTOR3_SIZE
  {
    ops.rotate(p.rot, DecodeVector3(src[VECTOR3_SIZE..2 * VECTOR3_SIZE]))
  }

  /** The record replication writes for source record `src` and placement `p`. */
  function Record(src: seq<Byte>, p: PRotScale, hasNormal: bool, ops: FloatOps): (r: seq<Byte>)
    requires |src| >= HeaderSize(hasNormal)
    ensures |r| == |src|
  {
    EncodeVector3(TransformedPosition(src, p, ops)) +
    if hasNormal then
      EncodeVector3(RotatedNormal(src, p, ops)) + src[2 * VECTOR3_SIZE..]
    else
      src[VECTOR3_SIZE..]
  }

  /** The record replication writes for the `vertexSize` bytes of `src`
      from `at` on is made of the parts the replication loop writes: the
      twelve position bytes, then (with a normal) the twelve normal bytes,
      then the rest of the source record. */
  lemma {:induction false} RecordOfParts(src: seq<Byte>, at: nat, vertexSize: nat, p: PRotScale, hasNormal: bool, ops: FloatOps,
                      pos: seq<Byte>, normal: seq<Byte>, restAt: nat, restLen: nat, rest: seq<Byte>)
    requires vertexSize >= HeaderSize(hasNormal) && at + vertexSize <= |src|
    requires pos == EncodeVector3(ops.transform(p, DecodeVector3(src[at..at + VECTOR3_SIZE])))
    requires hasNormal ==>
               var normalAt := at + VECTOR3_SIZE;
               normal == EncodeVector3(ops.rotate(p.rot, DecodeVector3(src[normalAt..normalAt + VECTOR3_SIZE])))
    requires !hasNormal ==> normal == []
    requires restAt == at + HeaderSize(hasNormal) && restLen == vertexSize - HeaderSize(hasNormal)
    requires rest == src[restAt..restAt + restLen]
    ensures pos + normal + rest == Record(src[at..at + vertexSize], p, hasNormal, ops)
  {
    var record := src[at..at + vertexSize];
    var h := HeaderSize(hasNormal);
    SliceOfSlice(src, at, vertexSize, 0, VECTOR3_SIZE);
    assert record[..VECTOR3_SIZE] == record[0..VECTOR3_SIZE];
    SliceOfSlice(src, at, vertexSize, h, vertexSize - h);
    assert record[h..] == record[h..vertexSize];
    if hasNormal {
      SliceOfSlice(src, at, vertexSize, VECTOR3_SIZE, VECTOR3_SIZE);
    }
  }

  /** The position stored in a replicated record is the transformed source position. */
  lemma {:induction false} RecordPosition(src: seq<Byte>, p: PRotScale, hasNormal: bool, ops: FloatOps)
    requires |src| >= HeaderSize(hasNormal)
    ensures DecodeVector3(Record(src, p, hasNormal, ops)[..VECTOR3_SIZE]) == TransformedPosition(src, p, ops)
  {
    var r := Record(src, p, hasNormal, ops);
    assert r[..VECTOR3_SIZE] == EncodeVector3(TransformedPosition(src, p, ops));
    Vector3RoundTrip(TransformedPosition(src, p, ops));
  }

  /** With `MASK_NORMAL`, bytes [12, 24) of a replicated record hold the rotated source normal. */
  lemma {:induction false} RecordNormal(src: seq<Byte>, p: PRotScale, ops: FloatOps)
    requires |src| >= HeaderSize(true)
    ensures DecodeVector3(Record(src, p, true, ops)[VECTOR3_SIZE..2 * VECTOR3_SIZE]) == RotatedNormal(src, p, ops)
  {
    var r := Record(src, p, true, ops);
    assert r[VECTOR3_SIZE..2 * VECTOR3_SIZE] == EncodeVector3(RotatedNormal(src, p, ops));
    Vector3RoundTrip(RotatedNormal(src, p, ops));
  }

  /** Every byte after the recomputed header is the source byte at the same
      offset; without `MASK_NORMAL` that includes bytes [12, 24). */
  lemma {:induction false} RecordVerbatim(src: seq<Byte>, p: PRotScale, hasNormal: bool, ops: FloatOps)
    requires |src| >= HeaderSize(hasNormal)
    ensures Record(src, p, hasNormal, ops)[HeaderSize(hasNormal)..] == src[HeaderSize(hasNormal)..]
    ensures !hasNormal ==> Record(src, p, hasNormal, ops)[VECTOR3_SIZE..] == src[VECTOR3_SIZE..]
  {
    var r := Record(src, p, hasNormal, ops);
    var h := HeaderSize(hasNormal);
    var head := if hasNormal
                then EncodeVector3(TransformedPosition(src, p, ops)) + EncodeVector3(RotatedNormal(src, p, ops))
                else EncodeVector3(TransformedPosition(src, p, ops));
    assert r == head + src[h..];
  }

  /** Source record `j` of a snapshot of `vertexSize`-byte records. */
  function SourceRecord(snap: seq<Byte>, vertexSize: nat, j: nat): (r: seq<Byte>)
    requires Mul(j, vertexSize) + vertexSize <= |snap|
    ensures |r| == vertexSize
  {
    snap[Mul(j, vertexSize)..Mul(j, vertexSize) + vertexSize]
  }

  /** The well-formedness the replication code relies on: records are long
      enough for the header it rewrites, and the snapshot is `numVertices`
      whole records. */
  predicate ValidSnapshot(snap: seq<Byte>, vertexSize: nat, numVertices: nat, hasNormal: bool)
  {
    vertexSize >= HeaderSize(hasNormal) && |snap| == Mul(numVertices, vertexSize)
  }

  /** The records of the replica of the first `n` source records for
      placement `p`, in source order. */
  function ReplicaRecords(snap: seq<Byte>, vertexSize: nat, n: nat, p: PRotScale, hasNormal: bool,
                          ops: FloatOps): (rs: seq<seq<Byte>>)
    requires vertexSize >= HeaderSize(hasNormal) && Mul(n, vertexSize) <= |snap|
    ensures |rs| == n && AllOfSize(rs, vertexSize)
    decreases n
  {
    if n == 0 then []
    else
      ReplicaRecords(snap, vertexSize, n - 1, p, hasNormal, ops)
      + [Record(SourceRecord(snap, vertexSize, n - 1), p, hasNormal, ops)]
  }

  /** Record `j` of the list is source record `j` replicated for `p`. */
  lemma {:induction false} ReplicaRecordsAt(snap: seq<Byte>, vertexSize: nat, n: nat, p: PRotScale,
                                            hasNormal: bool, ops: FloatOps, j: nat)
    requires vertexSize >= HeaderSize(hasNormal) && Mul(n, vertexSize) <= |snap| && j < n
    ensures Mul(j, vertexSize) + vertexSize <= |snap|
    ensures ReplicaRecords(snap, vertexSize, n, p, hasNormal, ops)[j]
         == Record(SourceRecord(snap, vertexSize, j), p, hasNormal, ops)
    decreases n
  {
    RecordInRange(j, n, vertexSize);
    if j < n - 1 {
      ReplicaRecordsAt(snap, vertexSize, n - 1, p, hasNormal, ops, j);
    }
  }

  /** The replica of the first `n` source records for placement `p`: their
      replicated records one after the other. */
  function Replica(snap: seq<Byte>, vertexSize: nat, n: nat, p: PRotScale, hasNormal: bool, ops: FloatOps)
    : (r: seq<Byte>)
    requires vertexSize >= HeaderSize(hasNormal) && Mul(n, vertexSize) <= |snap|
    ensures |r| == Mul(n, vertexSize)
  {
    Join(ReplicaRecords(snap, vertexSize, n, p, hasNormal, ops), vertexSize)
  }

  /** The replica of one more source record appends that record, replicated. */
  lemma {:induction false} ReplicaStep(snap: seq<Byte>, vertexSize: nat, n: nat, p: PRotScale, hasNormal: bool, ops: FloatOps)
    requires vertexSize >= HeaderSize(hasNormal) && Mul(n, vertexSize) + vertexSize <= |snap|
    ensures Mul(n + 1, vertexSize) <= |snap|
    ensures Replica(snap, vertexSize, n + 1, p, hasNormal, ops)
         == Replica(snap, vertexSize, n, p, hasNormal, ops) + Record(SourceRecord(snap, vertexSize, n), p, hasNormal, ops)
  {
    JoinAppend(ReplicaRecords(snap, vertexSize, n, p, hasNormal, ops),
               Record(SourceRecord(snap, vertexSize, n), p, hasNormal, ops), vertexSize);
  }

  /** Record `j` of a replica, at byte `j * vertexSize`, is source record
      `j` replicated for its placement. */
  lemma {:induction false} ReplicaAt(snap: seq<Byte>, vertexSize: nat, n: nat, p: PRotScale, hasNormal: bool, ops: FloatOps, j: nat)
    requires vertexSize >= HeaderSize(hasNormal) && Mul(n, vertexSize) <= |snap| && j < n
    ensures Mul(j, vertexSize) + vertexSize <= Mul(n, vertexSize)
    ensures var at := Mul(j, vertexSize);
              Replica(snap, vertexSize, n, p, hasNormal, ops)[at..at + vertexSize]
              == Record(SourceRecord(snap, vertexSize, j), p, hasNormal, ops)
  {
    JoinAt(ReplicaRecords(snap, vertexSize, n, p, hasNormal, ops), vertexSize, j);
    ReplicaRecordsAt(snap, vertexSize, n, p, hasNormal, ops, j);
  }

  /** The replicas for the placements of `ps`, in placement order. */
  function Replicas(snap: seq<Byte>, vertexSize: nat, numVertices: nat, ps: seq<PRotScale>,
                    hasNormal: bool, ops: FloatOps): (rs: seq<seq<Byte>>)
    requires ValidSnapshot(snap, vertexSize, numVertices, hasNormal)
    ensures |rs| == |ps| && AllOfSize(rs, Mul(numVertices, vertexSize))
    decreases |ps|
  {
    if ps == [] then []
    else
      Replicas(snap, vertexSize, numVertices, ps[..|ps| - 1], hasNormal, ops)
      + [Replica(snap, vertexSize, numVertices, ps[|ps| - 1], hasNormal, ops)]
  }

  /** Replica `i` of the list is the replica for placement `ps[i]`. */
  lemma {:induction false} ReplicasListAt(snap: seq<Byte>, vertexSize: nat, numVertices: nat, ps: seq<PRotScale>,
                                          hasNormal: bool, ops: FloatOps, i: nat)
    requires ValidSnapshot(snap, vertexSize, numVertices, hasNormal) && i < |ps|
    ensures Replicas(snap, vertexSize, numVertices, ps, hasNormal, ops)[i]
         == Replica(snap, vertexSize, numVertices, ps[i], hasNormal, ops)
    decreases |ps|
  {
    if i < |ps| - 1 {
      ReplicasListAt(snap, vertexSize, numVertices, ps[..|ps| - 1], hasNormal, ops, i);
    }
  }

  /** The replicated vertex buffer: one replica of all `numVertices` source
      records per placement, in placement order. */
  function ReplicatedVertexData(snap: seq<Byte>, vertexSize: nat, numVertices: nat, ps: seq<PRotScale>,
                                hasNormal: bool, ops: FloatOps): (r: seq<Byte>)
    requires ValidSnapshot(snap, vertexSize, numVertices, hasNormal)
    ensures |r| == Mul(|ps|, Mul(numVertices, vertexSize))
  {
    Join(Replicas(snap, vertexSize, numVertices, ps, hasNormal, ops), Mul(numVertices, vertexSize))
  }

  /** The buffer for one more placement appends its replica. */
  lemma {:induction false} ReplicatedVertexDataStep(snap: seq<Byte>, vertexSize: nat, numVertices: nat, ps: seq<PRotScale>,
                                 hasNormal: bool, ops: FloatOps, i: nat)
    requires ValidSnapshot(snap, vertexSize, numVertices, hasNormal) && i < |ps|
    ensures ReplicatedVertexData(snap, vertexSize, numVertices, ps[..i + 1], hasNormal, ops)
         == ReplicatedVertexData(snap, vertexSize, numVertices, ps[..i], hasNormal, ops)
            + Replica(snap, vertexSize, numVertices, ps[i], hasNormal, ops)
  {
    assert ps[..i + 1][..i] == ps[..i];
    JoinAppend(Replicas(snap, vertexSize, numVertices, ps[..i], hasNormal, ops),
               Replica(snap, vertexSize, numVertices, ps[i], hasNormal, ops), Mul(numVertices, vertexSize));
  }

  /** Replica `i` of the replicated buffer, at byte `i * numVertices * vertexSize`,
      is the replica for placement `i`. */
  lemma {:induction false} ReplicasAt(snap: seq<Byte>, vertexSize: nat, numVertices: nat, ps: seq<PRotScale>,
                   hasNormal: bool, ops: FloatOps, i: nat)
    requires ValidSnapshot(snap, vertexSize, numVertices, hasNormal) && i < |ps|
    ensures var blockSize := Mul(numVertices, vertexSize);
              Mul(i, blockSize) + blockSize <= Mul(|ps|, blockSize)
    ensures var blockSize := Mul(numVertices, vertexSize);
            var at := Mul(i, blockSize);
              ReplicatedVertexData(snap, vertexSize, numVertices, ps, hasNormal, ops)[at..at + blockSize]
              == Replica(snap, vertexSize, numVertices, ps[i], hasNormal, ops)
  {
    JoinAt(Replicas(snap, vertexSize, numVertices, ps, hasNormal, ops), Mul(numVertices, vertexSize), i);
    ReplicasListAt(snap, vertexSize, numVertices, ps, hasNormal, ops, i);
  }

  /** Output record `i * numVertices + j`, at byte `(i * numVertices + j) * vertexSize`,
      is written from source record `j` and placement `i`. */
  lemma {:induction false} ReplicatedVertexDataAt(snap: seq<Byte>, vertexSize: nat, numVertices: nat,
                               ps: seq<PRotScale>, hasNormal: bool, ops: FloatOps, i: nat, j: nat)
    requires ValidSnapshot(snap, vertexSize, numVertices, hasNormal) && i < |ps| && j < numVertices
    ensures Mul(j, vertexSize) + vertexSize <= |snap|
    ensures Mul(Slot(i, j, numVertices), vertexSize) + vertexSize
         <= |ReplicatedVertexData(snap, vertexSize, numVertices, ps, hasNormal, ops)|
    ensures var at := Mul(Slot(i, j, numVertices), vertexSize);
              ReplicatedVertexData(snap, vertexSize, numVertices, ps, hasNormal, ops)[at..at + vertexSize]
              == Record(SourceRecord(snap, vertexSize, j), ps[i], hasNormal, ops)
  {
    var blockSize := Mul(numVertices, vertexSize);
    var data := ReplicatedVertexData(snap, vertexSize, numVertices, ps, hasNormal, ops);
    var replica := Replica(snap, vertexSize, numVertices, ps[i], hasNormal, ops);
    ReplicasAt(snap, vertexSize, numVertices, ps, hasNormal, ops, i);
    ReplicaAt(snap, vertexSize, numVertices, ps[i], hasNormal, ops, j);
    SlotOffset(i, j, numVertices, vertexSize);
    SliceInBlock(data, Mul(i, blockSize), blockSize, replica, Mul(j, vertexSize), vertexSize,
                 Record(SourceRecord(snap, vertexSize, j), ps[i], hasNormal, ops));
  }

  /** The bounding box obtained by merging into `box`, in record order, the
      position of every whole `vertexSize`-byte record of `data`. */
  function MergedBox(ops: FloatOps, box: BoundingBox, data: seq<Byte>, vertexSize: nat): BoundingBox
    requires vertexSize >= VECTOR3_SIZE
    decreases |data|
  {
    if |data| < vertexSize then box
    else MergedBox(ops, ops.merge(box, DecodeVector3(data[..VECTOR3_SIZE])), data[vertexSize..], vertexSize)
  }

  /** Merging over two runs of whole records is merging over the first, then
      over the second. */
  lemma {:induction false} MergedBoxConcat(ops: FloatOps, box: BoundingBox, a: seq<Byte>, b: seq<Byte>,
                                           vertexSize: nat, count: nat)
    requires vertexSize >= VECTOR3_SIZE && |a| == Mul(count, vertexSize)
    ensures MergedBox(ops, box, a + b, vertexSize) == MergedBox(ops, MergedBox(ops, box, a, vertexSize), b, vertexSize)
    decreases count
  {
    if count == 0 {
      assert a + b == b;
    } else {
      assert (a + b)[..VECTOR3_SIZE] == a[..VECTOR3_SIZE];
      assert (a + b)[vertexSize..] == a[vertexSize..] + b;
      MergedBoxConcat(ops, ops.merge(box, DecodeVector3(a[..VECTOR3_SIZE])), a[vertexSize..], b, vertexSize, count - 1);
    }
  }

  /** Merging over one more record merges its position into the box of the
      records before it. */
  lemma {:induction false} MergedBoxStep(ops: FloatOps, box: BoundingBox, data: seq<Byte>, vertexSize: nat, count: nat,
                      record: seq<Byte>)
    requires vertexSize >= VECTOR3_SIZE && |data| == Mul(count, vertexSize) && |record| == vertexSize
    ensures MergedBox(ops, box, data + record, vertexSize)
         == ops.merge(MergedBox(ops, box, data, vertexSize), DecodeVector3(record[..VECTOR3_SIZE]))
  {
    MergedBoxConcat(ops, box, data, record, vertexSize, count);
    assert record[vertexSize..] == [];
  }

  /** Merging the positions of the first `n + 1` records of a replica is
      merging those of the first `n`, then the transformed position of
      source record `n`. */
  lemma {:induction false} ReplicaBoxStep(snap: seq<Byte>, vertexSize: nat, n: nat, p: PRotScale, hasNormal: bool,
                       ops: FloatOps, box: BoundingBox)
    requires vertexSize >= HeaderSize(hasNormal) && Mul(n, vertexSize) + vertexSize <= |snap|
    ensures Mul(n + 1, vertexSize) <= |snap|
    ensures MergedBox(ops, box, Replica(snap, vertexSize, n + 1, p, hasNormal, ops), vertexSize)
         == ops.merge(MergedBox(ops, box, Replica(snap, vertexSize, n, p, hasNormal, ops), vertexSize),
                      TransformedPosition(SourceRecord(snap, vertexSize, n), p, ops))
  {
    var src := SourceRecord(snap, vertexSize, n);
    var record := Record(src, p, hasNormal, ops);
    ReplicaStep(snap, vertexSize, n, p, hasNormal, ops);
    RecordPosition(src, p, hasNormal, ops);
    MergedBoxStep(ops, box, Replica(snap, vertexSize, n, p, hasNormal, ops), vertexSize, n, record);
  }
}
