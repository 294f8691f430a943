/** The replicator: expands the single geometry of a model into one copy per
    placement, in place in its vertex and index buffers. */
module Replicator {
  import opened Types
  import opened Offsets
  import opened VertexLayout
  import opened IndexRemap
  import opened Buffers
  import opened Progress

  /** `memcpy(dst + at, bytes, |bytes|)`. */
  method CopyInto(dst: array<Byte>, at: nat, bytes: seq<Byte>)
    requires at + |bytes| <= dst.Length
    modifies dst
    ensures dst[..] == old(dst[..at]) + bytes + old(dst[at + |bytes|..])
  {
    forall k | 0 <= k < |bytes| {
      dst[at + k] := bytes[k];
    }
    assert dst[..] == old(dst[..at]) + bytes + old(dst[at + |bytes|..]);
  }

  /** The body of the inner replication loop: writes output record
      `i * numVertices + j`, at byte `dstAt`, from source record `j`, at
      byte `srcAt` of the snapshot, and placement `p`, advancing a source
      and a destination cursor and counting down the bytes left in the
      record, and returns the transformed position. */
  method WriteRecord(dst: array<Byte>, dstAt: nat, src: seq<Byte>, srcAt: nat, ghost j: nat, vertexSize: nat,
                     p: PRotScale, hasNormal: bool, ops: FloatOps)
    returns (nPos: Vector3)
    requires vertexSize >= HeaderSize(hasNormal) && srcAt == Mul(j, vertexSize)
    requires dstAt + vertexSize <= dst.Length && srcAt + vertexSize <= |src|
    modifies dst
    ensures dst[..] == old(dst[..dstAt]) + Record(SourceRecord(src, vertexSize, j), p, hasNormal, ops)
                       + old(dst[dstAt + vertexSize..])
    ensures nPos == TransformedPosition(SourceRecord(src, vertexSize, j), p, ops)
  {
    ghost var s0 := dst[..];
    var pOrig, pData := srcAt, dstAt;
    var sizeRemaining := vertexSize;

    // position
    var vPos := DecodeVector3(src[pOrig..pOrig + VECTOR3_SIZE]);
    nPos := ops.transform(p, vPos);
    var posBytes := EncodeVector3(nPos);
    CopyInto(dst, pData, posBytes);
    ghost var s1 := dst[..];
    pOrig, pData, sizeRemaining := pOrig + VECTOR3_SIZE, pData + VECTOR3_SIZE, sizeRemaining - VECTOR3_SIZE;

    // normal
    ghost var normBytes: seq<Byte> := [];
    if hasNormal {
      var vNorm := DecodeVector3(src[pOrig..pOrig + VECTOR3_SIZE]);
      var norm := ops.rotate(p.rot, vNorm);
      normBytes := EncodeVector3(norm);
      CopyInto(dst, pData, EncodeVector3(norm));
      pOrig, pData, sizeRemaining := pOrig + VECTOR3_SIZE, pData + VECTOR3_SIZE, sizeRemaining - VECTOR3_SIZE;
    } else {
      WriteNothing(s1, pData);
    }

    // everything else
    ghost var s2 := dst[..];
    var rest := src[pOrig..pOrig + sizeRemaining];
    CopyInto(dst, pData, rest);
    RecordWritten(s0, s1, s2, dst[..], dstAt, src, srcAt, vertexSize, p, hasNormal, ops,
                  posBytes, normBytes, pOrig, sizeRemaining, rest);
    ghost var record := src[srcAt..srcAt + vertexSize];
    assert SourceRecord(src, vertexSize, j) == record;
    assert record[..VECTOR3_SIZE] == src[srcAt..srcAt + VECTOR3_SIZE];
  }

  /** One turn of the inner replication loop: writes output record
      `i * numVertices + j` from source record `j`, at the byte offsets the
      source computes, and merges its position into the bounding box. */
  method WriteNextRecord(dst: array<Byte>, src: seq<Byte>, i: nat, j: nat, p: PRotScale, numVertices: nat,
                         vertexSize: nat, hasNormal: bool, ops: FloatOps, ghost orig: seq<Byte>,
                         ghost box: BoundingBox, bbox: BoundingBox)
    returns (bbox': BoundingBox)
    requires j < numVertices
    requires ReplicaProgress(dst[..], orig, Mul(i, Mul(numVertices, vertexSize)), src, vertexSize, numVertices,
                             p, hasNormal, ops, j, box, bbox)
    modifies dst
    ensures ReplicaProgress(dst[..], orig, Mul(i, Mul(numVertices, vertexSize)), src, vertexSize, numVertices,
                            p, hasNormal, ops, j + 1, box, bbox')
  {
    ghost var base := Mul(i, Mul(numVertices, vertexSize));
    var dstAt := Mul(Slot(i, j, numVertices), vertexSize);
    var srcAt := Mul(j, vertexSize);
    assert dstAt == base + srcAt && srcAt + vertexSize <= Mul(numVertices, vertexSize) by {
      SlotOffset(i, j, numVertices, vertexSize);
      RecordInRange(j, numVertices, vertexSize);
    }
    ghost var pre := dst[..];
    var nPos := WriteRecord(dst, dstAt, src, srcAt, j, vertexSize, p, hasNormal, ops);
    ReplicaProgressStep(pre, dst[..], orig, base, src, vertexSize, numVertices, p, hasNormal, ops,
                        j, box, bbox, nPos);
    bbox' := ops.merge(bbox, nPos);
  }

  /** The body of the replication loop for placement `i`: for every source
      record `j`, writes output record `i * numVertices + j` and merges its
      position into the bounding box. `orig` is the buffer before the loop. */
  method WriteReplica(dst: array<Byte>, src: seq<Byte>, i: nat, p: PRotScale, numVertices: nat,
                      vertexSize: nat, hasNormal: bool, ops: FloatOps, ghost orig: seq<Byte>, box: BoundingBox)
    returns (bbox: BoundingBox)
    requires ReplicaProgress(dst[..], orig, Mul(i, Mul(numVertices, vertexSize)), src, vertexSize, numVertices,
                             p, hasNormal, ops, 0, box, box)
    modifies dst
    ensures ReplicaProgress(dst[..], orig, Mul(i, Mul(numVertices, vertexSize)), src, vertexSize, numVertices,
                            p, hasNormal, ops, numVertices, box, bbox)
  {
    bbox := box;
    for j := 0 to numVertices
      invariant ReplicaProgress(dst[..], orig, Mul(i, Mul(numVertices, vertexSize)), src, vertexSize, numVertices,
                                p, hasNormal, ops, j, box, bbox)
    {
      bbox := WriteNextRecord(dst, src, i, j, p, numVertices, vertexSize, hasNormal, ops, orig, box, bbox);
    }
  }

  /** One turn of the replication loop over the placements: writes the
      replica for placement `i` after those already written. */
  method WriteNextReplica(dst: array<Byte>, src: seq<Byte>, qplist: seq<PRotScale>, i: nat, numVertices: nat,
                          vertexSize: nat, hasNormal: bool, ops: FloatOps, ghost filled: nat, bbox: BoundingBox)
    returns (bbox': BoundingBox)
    requires i < |qplist| && dst.Length == Mul(|qplist|, Mul(numVertices, vertexSize))
    requires VerticesProgress(dst[..], src, vertexSize, numVertices, qplist, hasNormal, ops, i, filled, bbox)
    modifies dst
    ensures VerticesProgress(dst[..], src, vertexSize, numVertices, qplist, hasNormal, ops,
                             i + 1, filled + Mul(numVertices, vertexSize), bbox')
    ensures dst[filled + Mul(numVertices, vertexSize)..] == old(dst[filled + Mul(numVertices, vertexSize)..])
  {
    ghost var pre := dst[..];
    VerticesProgressReplicaStart(pre, src, vertexSize, numVertices, qplist, hasNormal, ops, i, filled, bbox);
    bbox' := WriteReplica(dst, src, i, qplist[i], numVertices, vertexSize, hasNormal, ops, pre, bbox);
    VerticesProgressStep(pre, dst[..], src, vertexSize, numVertices, qplist, hasNormal, ops, i, filled, bbox, bbox');
  }

  /** The replication loop over the placements: `dst` is the resized,
      locked vertex buffer and `src` the snapshot of the source records. */
  method ReplicateVertices(dst: array<Byte>, src: seq<Byte>, qplist: seq<PRotScale>, numVertices: nat,
                           vertexSize: nat, hasNormal: bool, ops: FloatOps)
    returns (bbox: BoundingBox)
    requires ValidSnapshot(src, vertexSize, numVertices, hasNormal)
    requires dst.Length == Mul(|qplist|, Mul(numVertices, vertexSize))
    modifies dst
    ensures dst[..] == ReplicatedVertexData(src, vertexSize, numVertices, qplist, hasNormal, ops)
    ensures bbox == MergedBox(ops, ops.emptyBox, dst[..], vertexSize)
  {
    ghost var filled: nat := 0;
    bbox := ops.emptyBox;
    for i := 0 to |qplist|
      invariant VerticesProgress(dst[..], src, vertexSize, numVertices, qplist, hasNormal, ops, i, filled, bbox)
    {
      bbox := WriteNextReplica(dst, src, qplist, i, numVertices, vertexSize, hasNormal, ops, filled, bbox);
      filled := filled + Mul(numVertices, vertexSize);
    }
    VerticesProgressDone(dst[..], src, vertexSize, numVertices, qplist, hasNormal, ops, filled, bbox);
  }

  /** The 16-bit index values of a 16-bit index buffer, as `unsigned short`. */
  function Indices16(data: seq<UInt32>): (r: seq<UInt16>)
    requires forall k :: 0 <= k < |data| ==> data[k] < 0x1_0000
    ensures |r| == |data| && forall k :: 0 <= k < |data| ==> r[k] == data[k]
  {
    seq(|data|, k requires 0 <= k < |data| => data[k] as UInt16)
  }

  /** The copy of the index buffer `ReplicateIndeces` works from: a fresh
      `unsigned short` array, uninitialised (holding `stale`), into which
      the buffer's indices are copied when the buffer could be locked. */
  method SnapshotIndices(data: array<UInt32>, lockOk: bool, stale: seq<UInt16>) returns (origIdxBuff: array<UInt16>)
    requires forall k :: 0 <= k < data.Length ==> data[k] < 0x1_0000
    requires |stale| == data.Length
    ensures fresh(origIdxBuff) && origIdxBuff.Length == data.Length
    ensures lockOk ==> forall k :: 0 <= k < data.Length ==> origIdxBuff[k] == data[k]
    ensures !lockOk ==> origIdxBuff[..] == stale
  {
    origIdxBuff := new UInt16[|stale|](k requires 0 <= k < |stale| => stale[k]);
    if lockOk {
      forall k | 0 <= k < data.Length {
        origIdxBuff[k] := data[k] as UInt16;
      }
    }
  }

  /** The copy of the vertex buffer `Replicate` works from: a fresh byte
      array, uninitialised (holding `stale`), into which the buffer's bytes
      are copied when the buffer could be locked. */
  method SnapshotVertices(data: array<Byte>, lockOk: bool, stale: seq<Byte>) returns (origVertBuff: array<Byte>)
    requires |stale| == data.Length
    ensures fresh(origVertBuff)
    ensures lockOk ==> origVertBuff[..] == data[..]
    ensures !lockOk ==> origVertBuff[..] == stale
  {
    origVertBuff := new Byte[|stale|](k requires 0 <= k < |stale| => stale[k]);
    if lockOk {
      CopyInto(origVertBuff, 0, data[..]);
      assert origVertBuff[..] == data[..];
    }
  }

  /** Replicates the indices of `idxbuffer`, a 16-bit index buffer, into
      `expandSize` copies, copy `i` shifted by `i * numVertices`, and
      stores them 32-bit exactly when there are more than 64 * 1024 of them.
      `lockOk` says whether the buffer could be locked for reading; if not,
      `stale` is what the uninitialised snapshot array held. */
  method ReplicateIndeces(idxbuffer: IndexBuffer, numVertices: nat, expandSize: nat, lockOk: bool,
                          stale: seq<UInt16>)
    returns (newIdxCount: nat)
    requires idxbuffer.Valid() && !idxbuffer.largeIndices
    requires |stale| == idxbuffer.indexCount
    requires Mul(expandSize, idxbuffer.indexCount) < 0x1_0000_0000
    modifies idxbuffer
    ensures newIdxCount == Mul(expandSize, old(idxbuffer.indexCount))
    ensures idxbuffer.Valid() && fresh(idxbuffer.data)
    ensures idxbuffer.indexCount == newIdxCount
    ensures idxbuffer.largeIndices <==> newIdxCount > LARGE_INDEX_THRESHOLD
    ensures idxbuffer.data[..]
         == ReplicatedIndexList(if lockOk then Indices16(old(idxbuffer.data[..])) else stale, numVertices,
                                expandSize, idxbuffer.largeIndices)
  {
    var numIndeces := idxbuffer.indexCount;
    newIdxCount := Mul(expandSize, numIndeces);
    var origIdxBuff := SnapshotIndices(idxbuffer.data, lockOk, stale);
    ghost var snapshot := if lockOk then Indices16(idxbuffer.data[..]) else stale;
    assert origIdxBuff[..] == snapshot;

    var large := newIdxCount > LARGE_INDEX_THRESHOLD;
    var newIndexList := BuildIndexList(origIdxBuff, numVertices, expandSize, large);
    SixteenBitListFits(snapshot, numVertices, expandSize);
    idxbuffer.SetSize(newIdxCount, large);
    idxbuffer.SetData(newIndexList[..]);
    assert newIndexList[..][..newIdxCount] == newIndexList[..];
  }

  /** The vertex half of `Replicate`: snapshots the source records, resizes
      `vbuffer` to one copy of them per placement and, when the resized
      buffer could be locked, writes the replicas and returns the box of
      their positions; otherwise returns an empty box. */
  method ReplicateVertexBuffer(vbuffer: VertexBuffer, qplist: seq<PRotScale>, ops: FloatOps, vertexLockOk: bool,
                               writeLockOk: bool, staleVertices: seq<Byte>)
    returns (bbox: BoundingBox)
    requires vbuffer.Valid() && vbuffer.vertexSize >= HeaderSize(HasNormal(vbuffer.elementMask))
    requires |staleVertices| == vbuffer.data.Length
    requires Mul(Mul(vbuffer.vertexCount, |qplist|), vbuffer.vertexSize) < 0x1_0000_0000
    modifies vbuffer
    ensures vbuffer.Valid() && fresh(vbuffer.data)
    ensures vbuffer.vertexCount == Mul(old(vbuffer.vertexCount), |qplist|)
    ensures vbuffer.elementMask == old(vbuffer.elementMask) && vbuffer.vertexSize == old(vbuffer.vertexSize)
    ensures writeLockOk ==>
              vbuffer.data[..]
              == ReplicatedVertexData(if vertexLockOk then old(vbuffer.data[..]) else staleVertices,
                                      vbuffer.vertexSize, old(vbuffer.vertexCount), qplist,
                                      HasNormal(vbuffer.elementMask), ops)
    ensures bbox == if writeLockOk then MergedBox(ops, ops.emptyBox, vbuffer.data[..], vbuffer.vertexSize)
                    else ops.emptyBox
  {
    var vertexSize := vbuffer.vertexSize;
    var numVertices := vbuffer.vertexCount;
    var hasNormal := HasNormal(vbuffer.elementMask);
    bbox := ops.emptyBox;

    // snapshot of the source records
    var snapshot := SnapshotVertices(vbuffer.data, vertexLockOk, staleVertices);
    var origVertBuff := snapshot[..];

    // replicate
    vbuffer.SetSize(Mul(numVertices, |qplist|));
    if writeLockOk {
      MulComm(numVertices, |qplist|);
      MulAssoc(|qplist|, numVertices, vertexSize);
      bbox := ReplicateVertices(vbuffer.data, origVertBuff, qplist, numVertices, vertexSize, hasNormal, ops);
    }
  }

  /** A node that draws one model replicated at many placements: the
      geometry of the model and the bounding box of the replicas. */
  class GeomReplicator {
    const geometry: Geometry
    var boundingBox: BoundingBox

    ghost predicate Valid()
      reads this, geometry, geometry.vertexBuffer, geometry.indexBuffer, geometry.indexBuffer.data
    {
      geometry.vertexBuffer.Valid() && geometry.indexBuffer.Valid()
    }

    constructor(geometry: Geometry, boundingBox: BoundingBox)
      requires geometry.vertexBuffer.Valid() && geometry.indexBuffer.Valid()
      ensures Valid()
      ensures this.geometry == geometry && this.boundingBox == boundingBox
    {
      this.geometry := geometry;
      this.boundingBox := boundingBox;
    }

    /** Replaces the model's single geometry with one copy per placement of
        `qplist`, and returns the number of copies.

        `vertexLockOk`, `writeLockOk` and `indexLockOk` say whether the
        vertex buffer could be locked for the snapshot, the resized vertex
        buffer for writing, and the index buffer for its snapshot;
        `staleVertices` and `staleIndices` are what the snapshot arrays
        held when their lock failed. */
    method Replicate(qplist: seq<PRotScale>, ops: FloatOps, vertexLockOk: bool, writeLockOk: bool,
                     indexLockOk: bool, staleVertices: seq<Byte>, staleIndices: seq<UInt16>)
      returns (count: nat)
      requires Valid()
      requires geometry.vertexBuffer.vertexSize >= HeaderSize(HasNormal(geometry.vertexBuffer.elementMask))
      requires !geometry.indexBuffer.largeIndices
      requires |staleVertices| == geometry.vertexBuffer.data.Length
      requires |staleIndices| == geometry.indexBuffer.indexCount
      requires Mul(Mul(geometry.vertexBuffer.vertexCount, |qplist|), geometry.vertexBuffer.vertexSize) < 0x1_0000_0000
      requires Mul(|qplist|, geometry.indexBuffer.indexCount) < 0x1_0000_0000
      modifies this, geometry, geometry.vertexBuffer, geometry.indexBuffer
      ensures Valid() && count == |qplist|
      // the vertex buffer: numVertices * N records of the same layout
      ensures geometry.vertexBuffer.vertexCount == Mul(old(geometry.vertexBuffer.vertexCount), |qplist|)
      ensures geometry.vertexBuffer.elementMask == old(geometry.vertexBuffer.elementMask)
      ensures geometry.vertexBuffer.vertexSize == old(geometry.vertexBuffer.vertexSize)
      ensures fresh(geometry.vertexBuffer.data)
      ensures writeLockOk ==>
                geometry.vertexBuffer.data[..]
                == ReplicatedVertexData(if vertexLockOk then old(geometry.vertexBuffer.data[..]) else staleVertices,
                                        geometry.vertexBuffer.vertexSize, old(geometry.vertexBuffer.vertexCount),
                                        qplist, HasNormal(geometry.vertexBuffer.elementMask), ops)
      // the bounding box: the box of the stored positions, or an empty one
      ensures boundingBox
           == if writeLockOk then MergedBox(ops, ops.emptyBox, geometry.vertexBuffer.data[..],
                                            geometry.vertexBuffer.vertexSize)
              else ops.emptyBox
      // the index buffer
      ensures fresh(geometry.indexBuffer.data)
      ensures geometry.indexBuffer.indexCount == Mul(|qplist|, old(geometry.indexBuffer.indexCount))
      ensures geometry.indexBuffer.largeIndices <==> geometry.indexBuffer.indexCount > LARGE_INDEX_THRESHOLD
      ensures geometry.indexBuffer.data[..]
           == ReplicatedIndexList(if indexLockOk then Indices16(old(geometry.indexBuffer.data[..])) else staleIndices,
                                  old(geometry.vertexBuffer.vertexCount), |qplist|,
                                  geometry.indexBuffer.largeIndices)
      // the draw range: every new index, as a triangle list
      ensures geometry.primitiveType == TriangleList && geometry.indexStart == 0
      ensures geometry.drawIndexCount == geometry.indexBuffer.indexCount
    {
      var vbuffer := geometry.vertexBuffer;
      var ibuffer := geometry.indexBuffer;
      var numVertices := vbuffer.vertexCount;

      var bbox := ReplicateVertexBuffer(vbuffer, qplist, ops, vertexLockOk, writeLockOk, staleVertices);

      // replicate indices
      var newIdxCount := ReplicateIndeces(ibuffer, numVertices, |qplist|, indexLockOk, staleIndices);

      // set draw range and bounding box
      geometry.SetDrawRange(TriangleList, 0, newIdxCount);
      boundingBox := bbox;

      count := |qplist|;
    }
  }
}
