# GeomReplicator: replicating a mesh into N placed copies

`GeomReplicator` is a static model component of the Urho3D geometry
replication sample. `Replicate(qplist)` takes the model's single geometry
and expands it in place into one copy per placement. The geometry has a
vertex buffer of `numVertices` records of `vertexSize` bytes and a 16-bit
index buffer. A placement is a `PRotScale` (Source/Samples/62_GeomReplicator/StaticScene.h:35-40),
modelled as the datatype `Types.PRotScale`: position, rotation and uniform
scale.

**Vertex buffer.** `Replicate` snapshots the source records and resizes the
buffer to `numVertices * N` records of the same layout. It then writes
output record `i * numVertices + j` from source record `j` and placement
`i`:
- the first 12 bytes get the transformed position;
- when the element mask has `MASK_NORMAL`, the next 12 bytes get the normal,
  turned by the rotation;
- every other byte of the record is copied unchanged.

Each transformed position is merged into a bounding box.

**Index buffer.** `ReplicateIndeces` builds `expandSize * numIndeces` indices.
Slot `i * numIndeces + j` holds `i * numVertices + orig[j]`. The indices are
stored 32-bit only when there are more than `64 * 1024` of them. Otherwise
each is stored in an `unsigned short`, which keeps it modulo 2^16.

**Finishing.** Finally `Replicate` sets the draw range to every new index as
a triangle list, stores the bounding box and returns `N`.

The model is in seven modules:
- `Types`: the value types. `PRotScale` is a datatype. A float is its four
  bytes. `Vector3` is stored as 12 bytes, with round-trip lemmas.
- `Offsets`: block and slot addressing, with multiplication written as
  `Mul`. Also the `Join` of equally sized blocks.
- `VertexLayout`: the replicated record and the replicated vertex buffer,
  as functions of the snapshot and the placements. Also the bounding box,
  as a fold of the merge over the stored positions.
- `Progress`: the loop states of the vertex replication and one lemma per
  loop turn.
- `IndexRemap`: the replicated index list, its per-slot properties, and
  the method with the two nested loops that fills it.
- `Buffers`: the engine objects the replicator changes. These are vertex
  buffer, index buffer and geometry, as classes.
- `Replicator`: the replication methods over arrays, `ReplicateIndeces`,
  and the class `GeomReplicator` with `Replicate`.

Outside inputs are parameters:
- The engine's floating-point routines are supplied as a `FloatOps` value:
  the matrix transform, the quaternion rotation, `BoundingBox::Merge` and
  the empty box.
- Each buffer lock's outcome is a boolean parameter.
- When a snapshot lock fails, the uninitialised snapshot array is read
  anyway. What it held is a parameter (`staleVertices`, `staleIndices`).

This follows the code. The code does not skip the replication when a
snapshot lock fails: it still resizes and then works from the uninitialised
copy. Only a failed write lock skips the vertex loop. The index list,
the draw range and the bounding box (then empty) are still set.

The index format is chosen by index count, not by vertex count. With fewer
indices than vertices, the 16-bit path can therefore wrap an index into
another copy's vertices (`IndexRemap.SixteenBitTruncationExample`). When
the vertex count is at most the index count and every source index names a
source vertex, it cannot
(`IndexRemap.SixteenBitExactWhenIndicesCoverVertices`).

## Model

| member | source | states |
|---|---|---|
| Types.EncodeVector3 | Source/Samples/62_GeomReplicator/StaticScene.cpp:97-98 | a `Vector3` is stored as its three floats in order, 12 bytes |
| Types.DecodeVector3 | Source/Samples/62_GeomReplicator/StaticScene.cpp:96 | 12 bytes are read as the `Vector3` of the three floats they hold |
| Types.Vector3RoundTrip | Source/Samples/62_GeomReplicator/StaticScene.cpp:96-98 | reading back the 12 bytes a `Vector3` was stored as gives that vector |
| Types.Vector3BytesRoundTrip | Source/Samples/62_GeomReplicator/StaticScene.cpp:96-98 | storing a `Vector3` read from 12 bytes writes those same 12 bytes |
| Offsets.SlotInRange | Source/Samples/62_GeomReplicator/StaticScene.cpp:92 | slot `i * m + j` with `i < count`, `j < m` lies inside a buffer of `count * m` slots |
| Offsets.RecordInRange | Source/Samples/62_GeomReplicator/StaticScene.cpp:91 | source record `r < count` of `size` bytes ends inside `count * size` bytes |
| Offsets.SlotUnique | Source/Samples/62_GeomReplicator/StaticScene.cpp:92 | two pairs `(i, j)`, `(i', j')` with `j, j' < m` name the same slot only if they are equal |
| Offsets.SlotDecomposition | Source/Samples/62_GeomReplicator/StaticScene.cpp:92 | every slot `s < count * m` is slot `s % m` of block `s / m`, and `s / m < count` |
| Offsets.SlotsCoverExactlyOnce | Source/Samples/62_GeomReplicator/StaticScene.cpp:84-92 | every slot below `count * m` is named by exactly one pair `(i, j)` with `i < count`, `j < m` |
| Offsets.SlotOffset | Source/Samples/62_GeomReplicator/StaticScene.cpp:92 | the byte offset `(i * numVertices + j) * vertexSize` is `i` whole replicas then `j` records |
| VertexLayout.HasNormal | Source/Samples/62_GeomReplicator/StaticScene.cpp:108 | a record carries a normal exactly when the element mask has the `MASK_NORMAL` bit |
| VertexLayout.TransformedPosition | Source/Samples/62_GeomReplicator/StaticScene.cpp:96-98 | the position of a record is its first 12 bytes, moved by the placement's transform |
| VertexLayout.RotatedNormal | Source/Samples/62_GeomReplicator/StaticScene.cpp:110-112 | the normal of a record is its bytes [12, 24), turned by the placement's rotation |
| VertexLayout.Record | Source/Samples/62_GeomReplicator/StaticScene.cpp:93-122 | a replicated record is exactly as long as its source record |
| VertexLayout.RecordOfParts | Source/Samples/62_GeomReplicator/StaticScene.cpp:93-122 | position bytes, then normal bytes when the mask has one, then the remaining `sizeRemaining` source bytes form the replicated record |
| VertexLayout.RecordPosition | Source/Samples/62_GeomReplicator/StaticScene.cpp:96-98 | bytes [0, 12) of a replicated record decode to the source position moved by the placement |
| VertexLayout.RecordNormal | Source/Samples/62_GeomReplicator/StaticScene.cpp:108-117 | with `MASK_NORMAL`, bytes [12, 24) decode to the source normal turned by the placement's rotation |
| VertexLayout.RecordVerbatim | Source/Samples/62_GeomReplicator/StaticScene.cpp:108-122 | every byte after the rewritten header equals the source byte at the same offset; without `MASK_NORMAL` that includes bytes [12, 24) |
| VertexLayout.SourceRecord | Source/Samples/62_GeomReplicator/StaticScene.cpp:91 | source record `j` is the `vertexSize` bytes at `j * vertexSize` |
| VertexLayout.ReplicaRecords | Source/Samples/62_GeomReplicator/StaticScene.cpp:89-123 | the first `n` source records replicated for one placement: `n` records, each `vertexSize` bytes |
| VertexLayout.ReplicaRecordsAt | Source/Samples/62_GeomReplicator/StaticScene.cpp:89-123 | record `j` of a placement's replica is source record `j` replicated |
| VertexLayout.Replica | Source/Samples/62_GeomReplicator/StaticScene.cpp:89-123 | the bytes the inner loop writes for one placement: `numVertices * vertexSize` of them |
| VertexLayout.ReplicaStep | Source/Samples/62_GeomReplicator/StaticScene.cpp:89-123 | one more turn of the inner loop appends the replicated record of the next source record |
| VertexLayout.ReplicaAt | Source/Samples/62_GeomReplicator/StaticScene.cpp:89-123 | the bytes at `j * vertexSize` of a replica are source record `j` replicated |
| VertexLayout.Replicas | Source/Samples/62_GeomReplicator/StaticScene.cpp:84-124 | one replica per placement, each `numVertices * vertexSize` bytes |
| VertexLayout.ReplicasListAt | Source/Samples/62_GeomReplicator/StaticScene.cpp:84-87 | replica `i` of the list is built from placement `qplist[i]` |
| VertexLayout.ReplicatedVertexData | Source/Samples/62_GeomReplicator/StaticScene.cpp:79-124 | the replicated buffer holds `N * numVertices * vertexSize` bytes |
| VertexLayout.ReplicatedVertexDataStep | Source/Samples/62_GeomReplicator/StaticScene.cpp:84-124 | one more turn of the outer loop appends the replica for the next placement |
| VertexLayout.ReplicasAt | Source/Samples/62_GeomReplicator/StaticScene.cpp:84-124 | replica `i` starts at byte `i * numVertices * vertexSize` and is built from placement `i` |
| VertexLayout.ReplicatedVertexDataAt | Source/Samples/62_GeomReplicator/StaticScene.cpp:84-122 | output record `i * numVertices + j` is source record `j` replicated for placement `i` |
| VertexLayout.MergedBox | Source/Samples/62_GeomReplicator/StaticScene.cpp:98-105 | the box the loop accumulates: the start box merged, in record order, with the position stored in each whole record |
| VertexLayout.MergedBoxConcat | Source/Samples/62_GeomReplicator/StaticScene.cpp:105 | merging the positions of two runs of records is merging the first run, then the second |
| VertexLayout.MergedBoxStep | Source/Samples/62_GeomReplicator/StaticScene.cpp:105 | merging over one more record merges its stored position last |
| VertexLayout.ReplicaBoxStep | Source/Samples/62_GeomReplicator/StaticScene.cpp:98-105 | the box after record `n` is the box before it merged with the transformed position of source record `n` |
| Progress.RecordWritten | Source/Samples/62_GeomReplicator/StaticScene.cpp:93-122 | the three writes at advancing cursors (position, optional normal, `memcpy` of the rest) write exactly the replicated record |
| Progress.ReplicaProgressStart | Source/Samples/62_GeomReplicator/StaticScene.cpp:89 | before the inner loop nothing of the replica is written and the box is unchanged |
| Progress.ReplicaProgressDone | Source/Samples/62_GeomReplicator/StaticScene.cpp:89-123 | after the inner loop the replica's bytes are written and nothing outside them changed |
| Progress.ReplicaProgressStep | Source/Samples/62_GeomReplicator/StaticScene.cpp:89-123 | one inner turn keeps the loop state: the replica is one record longer and the box merged one more position |
| Progress.ReplicaWritten | Source/Samples/62_GeomReplicator/StaticScene.cpp:89-123 | writing the next record just after the written ones extends the written replica by that record |
| Progress.VerticesProgressReplicaStart | Source/Samples/62_GeomReplicator/StaticScene.cpp:84-89 | at the start of outer turn `i`, the inner loop starts with nothing of replica `i` written at byte `i * numVertices * vertexSize` and the box so far |
| Progress.VerticesProgressDone | Source/Samples/62_GeomReplicator/StaticScene.cpp:84-124 | after the outer loop the whole buffer is the replicated vertex data and the box is its box |
| Progress.VerticesProgressStep | Source/Samples/62_GeomReplicator/StaticScene.cpp:84-124 | once the inner loop has finished replica `i` after the first `i` replicas, the outer loop state holds for `i + 1`: one more replica written, its positions merged |
| IndexRemap.StoredIndex | Source/Samples/62_GeomReplicator/StaticScene.cpp:165-180 | a 16-bit slot holds a value below 65536; a value that fits its slot is stored exactly |
| IndexRemap.IndexCopy | Source/Samples/62_GeomReplicator/StaticScene.cpp:163-165 | one shifted copy of the source indices, as many as there are source indices |
| IndexRemap.IndexCopyAt | Source/Samples/62_GeomReplicator/StaticScene.cpp:163-165 | index `j` of a copy is `offset + orig[j]` as its slot stores it |
| IndexRemap.IndexCopyStep | Source/Samples/62_GeomReplicator/StaticScene.cpp:163-166 | one more inner turn appends `offset + orig[j]` as its slot stores it |
| IndexRemap.IndexCopies | Source/Samples/62_GeomReplicator/StaticScene.cpp:161-166 | the first `n` shifted copies, each as long as the source index list |
| IndexRemap.IndexCopiesAt | Source/Samples/62_GeomReplicator/StaticScene.cpp:161-165 | copy `i` is shifted by `i * numVertices` |
| IndexRemap.ReplicatedIndexList | Source/Samples/62_GeomReplicator/StaticScene.cpp:144-159 | the new list has `expandSize * numIndeces` indices |
| IndexRemap.ReplicatedIndexListStep | Source/Samples/62_GeomReplicator/StaticScene.cpp:161-167 | one more outer turn appends the next shifted copy |
| IndexRemap.ReplicatedIndexListAt | Source/Samples/62_GeomReplicator/StaticScene.cpp:161-182 | slot `i * numIndeces + j` holds `i * numVertices + orig[j]` as stored, for every `i < expandSize`, `j < numIndeces` |
| IndexRemap.ReplicatedIndexListEverySlot | Source/Samples/62_GeomReplicator/StaticScene.cpp:161-182 | every slot `s` of the new list holds `(s / numIndeces) * numVertices + orig[s % numIndeces]` as stored |
| IndexRemap.SixteenBitListFits | Source/Samples/62_GeomReplicator/StaticScene.cpp:174-185 | every index of the 16-bit list fits an `unsigned short` |
| IndexRemap.IndexAddressesOwnCopy | Source/Samples/62_GeomReplicator/StaticScene.cpp:165-180 | when all replicated vertices fit the chosen format, index `j` of copy `i` names vertex `orig[j]` of copy `i` |
| IndexRemap.LargeIndexNoWrap | Source/Samples/62_GeomReplicator/StaticScene.cpp:157-165 | on the 32-bit path with a replicated vertex buffer whose byte size is an `unsigned`, no index wraps |
| IndexRemap.SixteenBitExactWhenIndicesCoverVertices | Source/Samples/62_GeomReplicator/StaticScene.cpp:157-180 | at or below the threshold, with `numVertices <= numIndeces` and in-range source indices, 16-bit indices are exact |
| IndexRemap.SixteenBitTruncationExample | Source/Samples/62_GeomReplicator/StaticScene.cpp:157-180 | 2 copies of 40000 vertices with indices 0, 1, 39999 take the 16-bit path and store 79999 as 14463 |
| IndexRemap.FillIndexCopy | Source/Samples/62_GeomReplicator/StaticScene.cpp:163-166 | the inner loop fills copy `i` after the copies before it, and every slot after copy `i` keeps its value |
| IndexRemap.BuildIndexList | Source/Samples/62_GeomReplicator/StaticScene.cpp:159-167 | the nested loops (either element type, also :174-182) fill a new array with exactly the replicated index list |
| Buffers.VertexBuffer.SetSize | Source/Samples/62_GeomReplicator/StaticScene.cpp:79 | the resized buffer has the new record count, the same mask and record size, fresh storage |
| Buffers.IndexBuffer.SetSize | Source/Samples/62_GeomReplicator/StaticScene.cpp:169 | the resized buffer has the new count and width, fresh storage |
| Buffers.IndexBuffer.SetData | Source/Samples/62_GeomReplicator/StaticScene.cpp:170 | the buffer holds the first `indexCount` given indices |
| Buffers.Geometry.SetDrawRange | Source/Samples/62_GeomReplicator/StaticScene.cpp:134 | the geometry draws the given index range as the given primitive type |
| Replicator.CopyInto | Source/Samples/62_GeomReplicator/StaticScene.cpp:122 | `memcpy` replaces exactly the bytes from `at` on by the given bytes |
| Replicator.WriteRecord | Source/Samples/62_GeomReplicator/StaticScene.cpp:91-122 | one record write replaces exactly the `vertexSize` bytes at the destination by the replicated record, and yields the transformed position |
| Replicator.WriteNextRecord | Source/Samples/62_GeomReplicator/StaticScene.cpp:89-123 | one inner turn advances the loop state, merging the record's position into the box |
| Replicator.WriteReplica | Source/Samples/62_GeomReplicator/StaticScene.cpp:89-123 | from the state where nothing of replica `i` is written, the inner loop reaches the state where all `numVertices` records of placement `i`'s replica are written at byte `i * numVertices * vertexSize`, every other byte is unchanged and the box has merged their positions |
| Replicator.WriteNextReplica | Source/Samples/62_GeomReplicator/StaticScene.cpp:84-124 | one outer turn advances the loop state by replica `i`, and every byte after replica `i` keeps its value |
| Replicator.ReplicateVertices | Source/Samples/62_GeomReplicator/StaticScene.cpp:82-128 | the buffer becomes exactly the replicated vertex data; the box is the merge of every stored position in record order |
| Replicator.SnapshotVertices | Source/Samples/62_GeomReplicator/StaticScene.cpp:67-76 | the snapshot is a fresh array; it holds the vertex buffer's bytes when the lock succeeds, otherwise what the uninitialised array held |
| Replicator.SnapshotIndices | Source/Samples/62_GeomReplicator/StaticScene.cpp:145-154 | the snapshot is a fresh array of as many `unsigned short`s as there are indices; it holds the buffer's indices when the lock succeeds, otherwise what the uninitialised array held |
| Replicator.ReplicateVertexBuffer | Source/Samples/62_GeomReplicator/StaticScene.cpp:57-128 | the vertex buffer is resized to `numVertices * N` records of the same layout; when the write lock succeeds its bytes are the replicated vertex data of the snapshot and the box is the merge of their positions, otherwise the box is empty |
| Replicator.ReplicateIndeces | Source/Samples/62_GeomReplicator/StaticScene.cpp:140-189 | returns `expandSize * numIndeces`; the buffer holds that many indices, is 32-bit iff the count exceeds 65536, and holds the replicated index list |
| Replicator.GeomReplicator.Replicate | Source/Samples/62_GeomReplicator/StaticScene.cpp:55-138 | returns N; the vertex buffer has `numVertices * N` records of the same layout; when the write lock succeeds they are the replicated records and the box is their positions' box, otherwise the box is empty; indices and draw range as above |

## Left out

- Floating-point geometry is not modelled. The `Matrix3x4` built from a placement, `mat * vPos`, `rot * vNorm` and `BoundingBox::Merge` are the `FloatOps` functions. No geometric fact is claimed, for example that the box contains the positions.
- `Matrix3x4` and `Quaternion` are built once per placement in the source. The model applies `transform(p, ...)` per record, which gives the same values.
- Engine buffer internals are not modelled: `Lock`, `Unlock`, `SetSize`, `SetData` and `GetModel()->GetGeometry(0, 0)`. Lock outcomes are parameters, and the geometry is a field of `GeomReplicator`.
- Unsigned 32-bit overflow of the sizes and offsets is excluded by preconditions of `Replicate` and `ReplicateIndeces`. This covers `numVertices * N`, the byte offsets and `expandSize * numIndeces`. The index values themselves wrap as the source's do.
- Replicator.GeomReplicator.Replicate: when the write lock fails, the model says nothing about the resized buffer's contents. The engine leaves them undefined.
- Replicator.GeomReplicator.Replicate: requires `vertexSize` to cover the position, and the normal when the mask has one. The source does not check this: with smaller records `sizeRemaining` wraps below zero and the final `memcpy` overruns both records.
- Replicator.ReplicateIndeces: requires a 16-bit index buffer. The source copies `numIndeces * 2` bytes as `unsigned short`, and on a 32-bit buffer would read each 32-bit index as two halves.
- With zero new indices, the source takes `&newIndexList[0]` of an empty vector. The model stores an empty list instead.
- The vertex snapshot is an immutable sequence, because it is never written after the copy. The index snapshot is an array. The memory management of `SharedArrayPtr` and `PODVector` is not modelled.
- A float is kept as its four bytes. The model never looks inside one, as the replicator does not.
- Positions and normals are written through `reinterpret_cast` in the source. The model writes their 12 bytes, so alignment is not modelled.
- The rest of the sample is not part of this model: scene setup, random placement generation, camera and HUD.
