/** Loop states of the vertex replication: what the output buffer holds
    after some turns of each loop of `Replicator`, and one lemma per loop
    turn that advances it. */
module Progress {
  import opened Types
  import opened Offsets
  import opened VertexLayout

  /** The twelve position bytes, then (with a normal) the twelve normal
      bytes, then the rest of the source record, written one after the
      other from `dstAt` on, write the replicated record. */
  lemma {:induction false} RecordWritten(s0: seq<Byte>, s1: seq<Byte>, s2: seq<Byte>, s3: seq<Byte>, dstAt: nat,
                      src: seq<Byte>, srcAt: nat, vertexSize: nat, p: PRotScale, hasNormal: bool, ops: FloatOps,
                      pos: seq<Byte>, normal: seq<Byte>, restAt: nat, restLen: nat, rest: seq<Byte>)
    requires vertexSize >= HeaderSize(hasNormal) && srcAt + vertexSize <= |src| && dstAt + vertexSize <= |s0|
    requires pos == EncodeVector3(ops.transform(p, DecodeVector3(src[srcAt..srcAt + VECTOR3_SIZE])))
    requires hasNormal ==>
               var normalAt := srcAt + VECTOR3_SIZE;
               normal == EncodeVector3(ops.rotate(p.rot, DecodeVector3(src[normalAt..normalAt + VECTOR3_SIZE])))
    requires !hasNormal ==> normal == []
    requires restAt == srcAt + HeaderSize(hasNormal) && restLen == vertexSize - HeaderSize(hasNormal)
    requires rest == src[restAt..restAt + restLen]
    requires s1 == s0[..dstAt] + pos + s0[dstAt + |pos|..]
    requires s2 == s1[..dstAt + |pos|] + normal + s1[dstAt + |pos| + |normal|..]
    requires s3 == s2[..dstAt + |pos| + |normal|] + rest + s2[dstAt + |pos| + |normal| + |rest|..]
    ensures s3 == s0[..dstAt] + Record(src[srcAt..srcAt + vertexSize], p, hasNormal, ops) + s0[dstAt + vertexSize..]
  {
    WriteParts(s0, s1, s2, s3, dstAt, pos, normal, rest);
    RecordOfParts(src, srcAt, vertexSize, p, hasNormal, ops, pos, normal, restAt, restLen, rest);
  }

  /** The state of `WriteReplica` after `j` turns: `cur` is `orig` with
      the first `j` records of the replica written from byte `base` on, and
      `bbox` is `box` with their positions merged in. */
  ghost predicate ReplicaProgress(cur: seq<Byte>, orig: seq<Byte>, base: nat, src: seq<Byte>, vertexSize: nat,
                                  numVertices: nat, p: PRotScale, hasNormal: bool, ops: FloatOps,
                                  j: nat, box: BoundingBox, bbox: BoundingBox)
  {
    ValidSnapshot(src, vertexSize, numVertices, hasNormal) &&
    Mul(j, vertexSize) <= Mul(numVertices, vertexSize) &&
    base + Mul(numVertices, vertexSize) <= |orig| &&
    cur == orig[..base] + Replica(src, vertexSize, j, p, hasNormal, ops) + orig[base + Mul(j, vertexSize)..] &&
    bbox == MergedBox(ops, box, Replica(src, vertexSize, j, p, hasNormal, ops), vertexSize)
  }

  /** Before the first turn of `WriteReplica`, nothing is written yet. */
  lemma {:induction false} ReplicaProgressStart(orig: seq<Byte>, base: nat, src: seq<Byte>, vertexSize: nat,
                                                numVertices: nat, p: PRotScale, hasNormal: bool, ops: FloatOps,
                                                box: BoundingBox)
    requires ValidSnapshot(src, vertexSize, numVertices, hasNormal)
    requires base + Mul(numVertices, vertexSize) <= |orig|
    ensures ReplicaProgress(orig, orig, base, src, vertexSize, numVertices, p, hasNormal, ops, 0, box, box)
  {
    assert Replica(src, vertexSize, 0, p, hasNormal, ops) == [];
    assert orig == orig[..base] + orig[base..];
  }

  /** After the last turn of `WriteReplica`, the whole replica is written. */
  lemma {:induction false} ReplicaProgressDone(cur: seq<Byte>, orig: seq<Byte>, base: nat, src: seq<Byte>,
                                               vertexSize: nat, numVertices: nat, p: PRotScale, hasNormal: bool,
                                               ops: FloatOps, box: BoundingBox, bbox: BoundingBox)
    requires ReplicaProgress(cur, orig, base, src, vertexSize, numVertices, p, hasNormal, ops, numVertices,
                             box, bbox)
    ensures base + Mul(numVertices, vertexSize) <= |orig|
    ensures cur == orig[..base] + Replica(src, vertexSize, numVertices, p, hasNormal, ops)
                   + orig[base + Mul(numVertices, vertexSize)..]
    ensures bbox == MergedBox(ops, box, Replica(src, vertexSize, numVertices, p, hasNormal, ops), vertexSize)
  {
  }

  /** One turn of the loop of `WriteReplica`. */
  lemma {:induction false} ReplicaProgressStep(cur: seq<Byte>, next: seq<Byte>, orig: seq<Byte>, base: nat, src: seq<Byte>,
                            vertexSize: nat, numVertices: nat, p: PRotScale, hasNormal: bool, ops: FloatOps,
                            j: nat, box: BoundingBox, bbox: BoundingBox, nPos: Vector3)
    requires ReplicaProgress(cur, orig, base, src, vertexSize, numVertices, p, hasNormal, ops, j, box, bbox)
    requires j < numVertices && Mul(j, vertexSize) + vertexSize <= Mul(numVertices, vertexSize)
    requires next == cur[..base + Mul(j, vertexSize)] + Record(SourceRecord(src, vertexSize, j), p, hasNormal, ops)
                     + cur[base + Mul(j, vertexSize) + vertexSize..]
    requires nPos == TransformedPosition(SourceRecord(src, vertexSize, j), p, ops)
    ensures ReplicaProgress(next, orig, base, src, vertexSize, numVertices, p, hasNormal, ops,
                            j + 1, box, ops.merge(bbox, nPos))
  {
    ReplicaWritten(cur, next, orig, base, src, vertexSize, p, hasNormal, ops, j);
    ReplicaBoxStep(src, vertexSize, j, p, hasNormal, ops, box);
  }

  /** Writing source record `j`, replicated, just after the first `j`
      records of the replica extends the written replica by one record. */
  lemma {:induction false} ReplicaWritten(cur: seq<Byte>, next: seq<Byte>, orig: seq<Byte>, base: nat, src: seq<Byte>,
                                          vertexSize: nat, p: PRotScale, hasNormal: bool, ops: FloatOps, j: nat)
    requires vertexSize >= HeaderSize(hasNormal) && Mul(j, vertexSize) + vertexSize <= |src|
    requires base + Mul(j, vertexSize) + vertexSize <= |orig|
    requires cur == orig[..base] + Replica(src, vertexSize, j, p, hasNormal, ops) + orig[base + Mul(j, vertexSize)..]
    requires next == cur[..base + Mul(j, vertexSize)] + Record(SourceRecord(src, vertexSize, j), p, hasNormal, ops)
                     + cur[base + Mul(j, vertexSize) + vertexSize..]
    ensures Mul(j + 1, vertexSize) <= |src|
    ensures next == orig[..base] + Replica(src, vertexSize, j + 1, p, hasNormal, ops)
                    + orig[base + Mul(j + 1, vertexSize)..]
  {
    ReplicaStep(src, vertexSize, j, p, hasNormal, ops);
    Overwrite(orig, base, Replica(src, vertexSize, j, p, hasNormal, ops),
              Record(SourceRecord(src, vertexSize, j), p, hasNormal, ops), cur, next);
  }

  /** The state of `ReplicateVertices` after `i` turns: `cur` starts with
      the replicas for the first `i` placements, and `bbox` is the box of
      their positions. */
  ghost predicate VerticesProgress(cur: seq<Byte>, src: seq<Byte>, vertexSize: nat, numVertices: nat,
                                   qplist: seq<PRotScale>, hasNormal: bool, ops: FloatOps,
                                   i: nat, filled: nat, bbox: BoundingBox)
  {
    ValidSnapshot(src, vertexSize, numVertices, hasNormal) &&
    i <= |qplist| && filled == Mul(i, Mul(numVertices, vertexSize)) && filled <= |cur| &&
    cur[..filled] == ReplicatedVertexData(src, vertexSize, numVertices, qplist[..i], hasNormal, ops) &&
    bbox == MergedBox(ops, ops.emptyBox, ReplicatedVertexData(src, vertexSize, numVertices, qplist[..i], hasNormal, ops),
                      vertexSize)
  }

  /** After the last turn of `ReplicateVertices`, the whole buffer is written. */
  lemma {:induction false} VerticesProgressDone(cur: seq<Byte>, src: seq<Byte>, vertexSize: nat, numVertices: nat,
                                                qplist: seq<PRotScale>, hasNormal: bool, ops: FloatOps,
                                                filled: nat, bbox: BoundingBox)
    requires VerticesProgress(cur, src, vertexSize, numVertices, qplist, hasNormal, ops, |qplist|, filled, bbox)
    requires |cur| == Mul(|qplist|, Mul(numVertices, vertexSize))
    ensures cur == ReplicatedVertexData(src, vertexSize, numVertices, qplist, hasNormal, ops)
    ensures bbox == MergedBox(ops, ops.emptyBox, ReplicatedVertexData(src, vertexSize, numVertices, qplist, hasNormal, ops),
                              vertexSize)
  {
    assert qplist[..|qplist|] == qplist;
    assert cur == cur[..filled];
  }

  /** At the start of turn `i` of `ReplicateVertices`, nothing of replica
      `i` is written yet. */
  lemma {:induction false} VerticesProgressReplicaStart(cur: seq<Byte>, src: seq<Byte>, vertexSize: nat,
                                                        numVertices: nat, qplist: seq<PRotScale>, hasNormal: bool,
                                                        ops: FloatOps, i: nat, filled: nat, bbox: BoundingBox)
    requires VerticesProgress(cur, src, vertexSize, numVertices, qplist, hasNormal, ops, i, filled, bbox)
    requires i < |qplist| && |cur| == Mul(|qplist|, Mul(numVertices, vertexSize))
    ensures ReplicaProgress(cur, cur, Mul(i, Mul(numVertices, vertexSize)), src, vertexSize, numVertices,
                            qplist[i], hasNormal, ops, 0, bbox, bbox)
  {
    RecordInRange(i, |qplist|, Mul(numVertices, vertexSize));
    ReplicaProgressStart(cur, filled, src, vertexSize, numVertices, qplist[i], hasNormal, ops, bbox);
  }

  /** One turn of the loop of `ReplicateVertices`. */
  lemma {:induction false} VerticesProgressStep(cur: seq<Byte>, next: seq<Byte>, src: seq<Byte>, vertexSize: nat,
                                                numVertices: nat, qplist: seq<PRotScale>, hasNormal: bool, ops: FloatOps,
                                                i: nat, filled: nat, bbox: BoundingBox, bbox': BoundingBox)
    requires VerticesProgress(cur, src, vertexSize, numVertices, qplist, hasNormal, ops, i, filled, bbox)
    requires i < |qplist|
    requires ReplicaProgress(next, cur, Mul(i, Mul(numVertices, vertexSize)), src, vertexSize, numVertices,
                             qplist[i], hasNormal, ops, numVertices, bbox, bbox')
    ensures VerticesProgress(next, src, vertexSize, numVertices, qplist, hasNormal, ops,
                             i + 1, filled + Mul(numVertices, vertexSize), bbox')
  {
    ReplicaProgressDone(next, cur, filled, src, vertexSize, numVertices, qplist[i], hasNormal, ops, bbox, bbox');
    var done := ReplicatedVertexData(src, vertexSize, numVertices, qplist[..i], hasNormal, ops);
    var replica := Replica(src, vertexSize, numVertices, qplist[i], hasNormal, ops);
    ReplicatedVertexDataStep(src, vertexSize, numVertices, qplist, hasNormal, ops, i);
    assert next[..filled + |replica|] == done + replica;
    MulAssoc(i, numVertices, vertexSize);
    MergedBoxConcat(ops, ops.emptyBox, done, replica, vertexSize, Mul(i, numVertices));
  }
}
