/** The replicated index list: `expandSize` copies of the source indices,
    copy `i` shifted by `i * numVertices`, stored either as 32-bit or as
    16-bit values. */
module IndexRemap {
  import opened Types
  import opened Offsets

  /** Above this many replicated indices the 32-bit index format is used. */
  const LARGE_INDEX_THRESHOLD: nat := 1024 * 64

  /** The value a slot of the new index list holds when the remapped index
      is `value`: the `unsigned` sum wraps at 2^32, and an `unsigned short`
      slot keeps its low sixteen bits. */
  function StoredIndex(value: nat, large: bool): (r: UInt32)
    ensures !large ==> r < 0x1_0000
    ensures value < (if large then 0x1_0000_0000 else 0x1_0000) ==> r == value
  {
    if large then value % 0x1_0000_0000 else value % 0x1_0000
  }

  /** The source indices shifted by `offset`, as stored. */
  function IndexCopy(orig: seq<UInt16>, offset: nat, large: bool): (r: seq<UInt32>)
    ensures |r| == |orig|
    decreases |orig|
  {
    if orig == [] then []
    else IndexCopy(orig[..|orig| - 1], offset, large) + [StoredIndex(offset + orig[|orig| - 1], large)]
  }

  /** Index `j` of a copy is source index `j` shifted by `offset`, as stored. */
  lemma {:induction false} IndexCopyAt(orig: seq<UInt16>, offset: nat, large: bool, j: nat)
    requires j < |orig|
    ensures IndexCopy(orig, offset, large)[j] == StoredIndex(offset + orig[j], large)
    decreases |orig|
  {
    if j < |orig| - 1 {
      IndexCopyAt(orig[..|orig| - 1], offset, large, j);
    }
  }

  /** Copying one more source index appends it, shifted and stored. */
  lemma {:induction false} IndexCopyStep(orig: seq<UInt16>, offset: nat, large: bool, j: nat)
    requires j < |orig|
    ensures IndexCopy(orig[..j + 1], offset, large)
         == IndexCopy(orig[..j], offset, large) + [StoredIndex(offset + orig[j], large)]
  {
    assert orig[..j + 1][..j] == orig[..j];
  }

  /** The first `n` copies of the source indices, copy `i` shifted by
      `i * numVertices`. */
  function IndexCopies(orig: seq<UInt16>, numVertices: nat, n: nat, large: bool): (cs: seq<seq<UInt32>>)
    ensures |cs| == n && AllOfSize(cs, |orig|)
    decreases n
  {
    if n == 0 then []
    else IndexCopies(orig, numVertices, n - 1, large) + [IndexCopy(orig, Mul(n - 1, numVertices), large)]
  }

  /** Copy `i` is shifted by `i * numVertices`. */
  lemma {:induction false} IndexCopiesAt(orig: seq<UInt16>, numVertices: nat, n: nat, large: bool, i: nat)
    requires i < n
    ensures IndexCopies(orig, numVertices, n, large)[i] == IndexCopy(orig, Mul(i, numVertices), large)
    decreases n
  {
    if i < n - 1 {
      IndexCopiesAt(orig, numVertices, n - 1, large, i);
    }
  }

  /** The new index list: `expandSize` copies one after the other. */
  function ReplicatedIndexList(orig: seq<UInt16>, numVertices: nat, expandSize: nat, large: bool): (r: seq<UInt32>)
    ensures |r| == Mul(expandSize, |orig|)
  {
    Join(IndexCopies(orig, numVertices, expandSize, large), |orig|)
  }

  /** The list for one more copy appends that copy. */
  lemma {:induction false} ReplicatedIndexListStep(orig: seq<UInt16>, numVertices: nat, n: nat, large: bool)
    ensures ReplicatedIndexList(orig, numVertices, n + 1, large)
         == ReplicatedIndexList(orig, numVertices, n, large) + IndexCopy(orig, Mul(n, numVertices), large)
  {
    JoinAppend(IndexCopies(orig, numVertices, n, large), IndexCopy(orig, Mul(n, numVertices), large), |orig|);
  }

  /** Slot `i * |orig| + j` holds index `j` of copy `i`: `i * numVertices + orig[j]`,
      as its storage format keeps it. */
  lemma {:induction false} ReplicatedIndexListAt(orig: seq<UInt16>, numVertices: nat, expandSize: nat, large: bool, i: nat, j: nat)
    requires i < expandSize && j < |orig|
    ensures Slot(i, j, |orig|) < Mul(expandSize, |orig|)
    ensures ReplicatedIndexList(orig, numVertices, expandSize, large)[Slot(i, j, |orig|)]
         == StoredIndex(Mul(i, numVertices) + orig[j], large)
  {
    var copies := IndexCopies(orig, numVertices, expandSize, large);
    var at := Mul(i, |orig|);
    JoinAt(copies, |orig|, i);
    IndexCopiesAt(orig, numVertices, expandSize, large, i);
    IndexCopyAt(orig, Mul(i, numVertices), large, j);
    assert Join(copies, |orig|)[at..at + |orig|][j] == Join(copies, |orig|)[at + j];
  }

  /** Every slot of the new list is slot `s % |orig|` of copy `s / |orig|`:
      it holds `(s / |orig|) * numVertices + orig[s % |orig|]` as its
      storage format keeps it. */
  lemma {:induction false} ReplicatedIndexListEverySlot(orig: seq<UInt16>, numVertices: nat, expandSize: nat, large: bool, s: nat)
    requires s < Mul(expandSize, |orig|)
    ensures |orig| > 0 && s / |orig| < expandSize && s % |orig| < |orig|
    ensures ReplicatedIndexList(orig, numVertices, expandSize, large)[s]
         == StoredIndex(Mul(s / |orig|, numVertices) + orig[s % |orig|], large)
  {
    SlotDecomposition(s, expandSize, |orig|);
    ReplicatedIndexListAt(orig, numVertices, expandSize, large, s / |orig|, s % |orig|);
  }

  /** The 16-bit list fits an `unsigned short` buffer. */
  lemma {:induction false} SixteenBitListFits(orig: seq<UInt16>, numVertices: nat, expandSize: nat)
    ensures var r := ReplicatedIndexList(orig, numVertices, expandSize, false);
              forall s :: 0 <= s < |r| ==> r[s] < 0x1_0000
  {
    var r := ReplicatedIndexList(orig, numVertices, expandSize, false);
    forall s | 0 <= s < |r|
      ensures r[s] < 0x1_0000
    {
      ReplicatedIndexListEverySlot(orig, numVertices, expandSize, false, s);
    }
  }

  /** When the replicated vertex count fits the chosen index format and the
      source index is a vertex of the source mesh, the stored index names
      vertex `orig[j]` of copy `i` and nothing else. */
  lemma {:induction false} IndexAddressesOwnCopy(orig: seq<UInt16>, numVertices: nat, expandSize: nat, large: bool, i: nat, j: nat)
    requires i < expandSize && j < |orig| && orig[j] < numVertices
    requires Mul(expandSize, numVertices) <= (if large then 0x1_0000_0000 else 0x1_0000)
    ensures Slot(i, j, |orig|) < Mul(expandSize, |orig|)
    ensures var v := ReplicatedIndexList(orig, numVertices, expandSize, large)[Slot(i, j, |orig|)];
              v / numVertices == i && v % numVertices == orig[j]
  {
    ReplicatedIndexListAt(orig, numVertices, expandSize, large, i, j);
    var v := Slot(i, orig[j], numVertices);
    SlotInRange(i, orig[j], expandSize, numVertices);
    assert StoredIndex(v, large) == v;
    SlotDecomposition(v, expandSize, numVertices);
    SlotUnique(v / numVertices, v % numVertices, i, orig[j], numVertices);
  }

  /** The 32-bit path never wraps for a vertex buffer whose byte size is an
      `unsigned`: every remapped index is below 2^32. */
  lemma {:induction false} LargeIndexNoWrap(orig: seq<UInt16>, numVertices: nat, expandSize: nat, vertexSize: nat, i: nat, j: nat)
    requires vertexSize >= VECTOR3_SIZE
    requires Mul(Mul(expandSize, numVertices), vertexSize) < 0x1_0000_0000
    requires i < expandSize && j < |orig|
    ensures Slot(i, j, |orig|) < Mul(expandSize, |orig|)
    ensures ReplicatedIndexList(orig, numVertices, expandSize, true)[Slot(i, j, |orig|)]
         == Mul(i, numVertices) + orig[j]
  {
    ReplicatedIndexListAt(orig, numVertices, expandSize, true, i, j);
    MulMonotone(i, expandSize, numVertices);
    MulComm(Mul(expandSize, numVertices), vertexSize);
    MulMonotone(1, vertexSize, Mul(expandSize, numVertices));
  }

  /** The threshold counts indices, not vertices. When every source vertex
      is referenced at least as often as there are vertices
      (`numVertices <= |orig|`), staying at or below the threshold keeps
      every 16-bit index exact. */
  lemma {:induction false} SixteenBitExactWhenIndicesCoverVertices(orig: seq<UInt16>, numVertices: nat, expandSize: nat, i: nat, j: nat)
    requires numVertices <= |orig| && Mul(expandSize, |orig|) <= LARGE_INDEX_THRESHOLD
    requires forall k :: 0 <= k < |orig| ==> orig[k] < numVertices
    requires i < expandSize && j < |orig|
    ensures Slot(i, j, |orig|) < Mul(expandSize, |orig|)
    ensures ReplicatedIndexList(orig, numVertices, expandSize, false)[Slot(i, j, |orig|)]
         == Mul(i, numVertices) + orig[j]
  {
    ReplicatedIndexListAt(orig, numVertices, expandSize, false, i, j);
    SlotInRange(i, orig[j], expandSize, numVertices);
    MulComm(expandSize, numVertices);
    MulComm(expandSize, |orig|);
    MulMonotone(numVertices, |orig|, expandSize);
  }

  /** With fewer indices than vertices the 16-bit path can truncate: two
      copies of a 40000-vertex mesh with the three indices 0, 1, 39999 make
      only six indices, but copy 1's last index, 79999, is stored as 14463,
      a vertex of copy 0. */
  lemma {:induction false} SixteenBitTruncationExample()
    ensures !(Mul(2, 3) > LARGE_INDEX_THRESHOLD)
    ensures ReplicatedIndexList([0, 1, 39999], 40000, 2, false)[5] == 14463
    ensures Mul(1, 40000) + 39999 == 79999
  {
    ReplicatedIndexListAt([0, 1, 39999], 40000, 2, false, 1, 2);
  }

  /** The inner loop of the index replication: fills copy `i` of the new
      index list, after the copies before it. */
  method FillIndexCopy(newIndexList: array<UInt32>, origIdxBuff: array<UInt16>, numVertices: nat,
                       expandSize: nat, large: bool, i: nat)
    requires i < expandSize && newIndexList.Length == Mul(expandSize, origIdxBuff.Length)
    requires Mul(i + 1, origIdxBuff.Length) <= newIndexList.Length
    requires newIndexList[..Mul(i, origIdxBuff.Length)]
          == ReplicatedIndexList(origIdxBuff[..], numVertices, i, large)
    modifies newIndexList
    ensures newIndexList[..Mul(i + 1, origIdxBuff.Length)]
         == ReplicatedIndexList(origIdxBuff[..], numVertices, i + 1, large)
    ensures newIndexList[Mul(i + 1, origIdxBuff.Length)..] == old(newIndexList[Mul(i + 1, origIdxBuff.Length)..])
  {
    var numIndeces := origIdxBuff.Length;
    ghost var orig := origIdxBuff[..];
    ghost var offset := Mul(i, numVertices);
    ghost var filled: nat := Mul(i, numIndeces);
    for j := 0 to numIndeces
      invariant filled == Mul(i, numIndeces) + j
      invariant newIndexList[Mul(i + 1, numIndeces)..] == old(newIndexList[Mul(i + 1, numIndeces)..])
      invariant newIndexList[..filled] == ReplicatedIndexList(orig, numVertices, i, large) + IndexCopy(orig[..j], offset, large)
    {
      newIndexList[Slot(i, j, numIndeces)] := StoredIndex(Mul(i, numVertices) + origIdxBuff[j], large);
      IndexCopyStep(orig, offset, large, j);
      assert newIndexList[..filled + 1] == newIndexList[..filled] + [newIndexList[filled]];
      filled := filled + 1;
    }
    assert orig[..numIndeces] == orig;
    ReplicatedIndexListStep(orig, numVertices, i, large);
  }

  /** Fills the new index list copy by copy, as the two nested loops of the
      source do for either element type. */
  method BuildIndexList(origIdxBuff: array<UInt16>, numVertices: nat, expandSize: nat, large: bool)
    returns (newIndexList: array<UInt32>)
    ensures fresh(newIndexList)
    ensures newIndexList[..] == ReplicatedIndexList(origIdxBuff[..], numVertices, expandSize, large)
  {
    var numIndeces := origIdxBuff.Length;
    newIndexList := new UInt32[Mul(expandSize, numIndeces)];
    for i := 0 to expandSize
      invariant Mul(i, numIndeces) <= newIndexList.Length
      invariant newIndexList[..Mul(i, numIndeces)] == ReplicatedIndexList(origIdxBuff[..], numVertices, i, large)
    {
      RecordInRange(i, expandSize, numIndeces);
      FillIndexCopy(newIndexList, origIdxBuff, numVertices, expandSize, large, i);
    }
    assert newIndexList[..] == newIndexList[..Mul(expandSize, numIndeces)];
  }
}
