/** Block addressing shared by the vertex and the index buffers: the
    replicated buffer is `count` blocks of `m` slots, and slot `j` of block
    `i` is slot `i * m + j` of the whole buffer. */
module Offsets {

  /** `a * b` on naturals, as `b` added `a` times. Offsets and lengths of
      the replicated buffers are stated with `Mul`: one step of it is a
      linear fact, so the proofs about offsets stay linear.
      `MulIsProduct` shows that it is `*`. */
  function Mul(a: nat, b: nat): nat
  {
    if a == 0 then 0 else Mul(a - 1, b) + b
  }

  lemma {:induction false} MulIsProduct(a: nat, b: nat)
    ensures Mul(a, b) == a * b
  {
    if a > 0 {
      MulIsProduct(a - 1, b);
    }
  }

  lemma {:induction false} MulMonotone(a: nat, b: nat, c: nat)
    requires a <= b
    ensures Mul(a, c) <= Mul(b, c)
    decreases b
  {
    if a < b {
      MulMonotone(a, b - 1, c);
    }
  }

  lemma {:induction false} MulAddLeft(a: nat, b: nat, c: nat)
    ensures Mul(a + b, c) == Mul(a, c) + Mul(b, c)
    decreases a
  {
    if a > 0 {
      MulAddLeft(a - 1, b, c);
    }
  }

  lemma {:induction false} MulAssoc(a: nat, b: nat, c: nat)
    ensures Mul(Mul(a, b), c) == Mul(a, Mul(b, c))
    decreases a
  {
    if a > 0 {
      MulAddLeft(Mul(a - 1, b), b, c);
      MulAssoc(a - 1, b, c);
    }
  }

  lemma {:induction false} MulComm(a: nat, b: nat)
    ensures Mul(a, b) == Mul(b, a)
  {
    MulIsProduct(a, b);
    MulIsProduct(b, a);
  }

  /** The flat slot of slot `j` of block `i`. */
  function Slot(i: nat, j: nat, m: nat): nat
  {
    Mul(i, m) + j
  }

  /** Slot `j` of block `i` lies inside a buffer of `count` blocks. */
  lemma {:induction false} SlotInRange(i: nat, j: nat, count: nat, m: nat)
    requires i < count && j < m
    ensures Slot(i, j, m) + 1 <= Mul(count, m)
  {
    MulMonotone(i + 1, count, m);
  }

  /** Record `r` of `size` elements ends inside a buffer of `count` records. */
  lemma {:induction false} RecordInRange(r: nat, count: nat, size: nat)
    requires r < count
    ensures Mul(r, size) + size <= Mul(count, size)
  {
    MulMonotone(r + 1, count, size);
  }

  /** Two addresses name the same slot only if they name the same block and
      the same position inside it. */
  lemma {:induction false} SlotUnique(i: nat, j: nat, i': nat, j': nat, m: nat)
    requires j < m && j' < m
    requires Slot(i, j, m) == Slot(i', j', m)
    ensures i == i' && j == j'
  {
    if i < i' {
      MulMonotone(i + 1, i', m);
      assert false;
    } else if i' < i {
      MulMonotone(i' + 1, i, m);
      assert false;
    }
  }

  /** Adding nothing any number of times gives nothing. */
  lemma {:induction false} MulZero(a: nat)
    ensures Mul(a, 0) == 0
  {
    if a > 0 {
      MulZero(a - 1);
    }
  }

  /** Every slot of a buffer of `count` blocks is slot `s % m` of block
      `s / m`, and that block exists. */
  lemma {:induction false} SlotDecomposition(s: nat, count: nat, m: nat)
    requires s < Mul(count, m)
    ensures m > 0 && s / m < count && s % m < m
    ensures Slot(s / m, s % m, m) == s
  {
    if m == 0 {
      MulZero(count);
      assert false;
    }
    DivMod(s, m);
    if s / m >= count {
      MulMonotone(count, s / m, m);
      assert false;
    }
  }

  /** Euclidean division, stated with `Mul`. */
  lemma {:induction false} DivMod(s: nat, m: nat)
    requires m > 0
    ensures Mul(s / m, m) + s % m == s && s % m < m
  {
    MulIsProduct(s / m, m);
  }

  /** Together, `SlotInRange`, `SlotUnique` and `SlotDecomposition` say that
      the pairs `(i, j)` with `i < count` and `j < m` address the slots of
      the buffer one to one. */
  lemma {:induction false} SlotsCoverExactlyOnce(count: nat, m: nat, s: nat)
    requires s < Mul(count, m)
    ensures exists i: nat, j: nat :: i < count && j < m && Slot(i, j, m) == s
    ensures forall i: nat, j: nat, i': nat, j': nat ::
              (i < count && j < m && i' < count && j' < m &&
               Slot(i, j, m) == s && Slot(i', j', m) == s) ==> i == i' && j == j'
  {
    SlotDecomposition(s, count, m);
    var i, j := s / m, s % m;
    assert i < count && j < m && Slot(i, j, m) == s;
    forall i: nat, j: nat, i': nat, j': nat |
      i < count && j < m && i' < count && j' < m &&
      Slot(i, j, m) == s && Slot(i', j', m) == s
      ensures i == i' && j == j'
    {
      SlotUnique(i, j, i', j', m);
    }
  }

  /** The offset of slot `j` of block `i`, for slots of `size` elements:
      `i` whole blocks, then `j` slots. */
  lemma {:induction false} SlotOffset(i: nat, j: nat, m: nat, size: nat)
    ensures Mul(Slot(i, j, m), size) == Mul(i, Mul(m, size)) + Mul(j, size)
  {
    MulAddLeft(Mul(i, m), j, size);
    MulAssoc(i, m, size);
  }

  /** A slice of a slice is a slice of the whole. */
  lemma {:induction false} SliceOfSlice<T>(a: seq<T>, base: nat, len: nat, off: nat, len': nat)
    requires base + len <= |a| && off + len' <= len
    ensures a[base..base + len][off..off + len'] == a[base + off..base + off + len']
  {
    var t := a[base..base + len][off..off + len'];
    assert |t| == len';
    assert forall k :: 0 <= k < len' ==> t[k] == a[base + off + k];
  }

  /** A slice of a block, found at `x` in `data`, is found at `x + y` in `data`. */
  lemma {:induction false} SliceInBlock<T>(data: seq<T>, x: nat, blockSize: nat, block: seq<T>, y: nat, len: nat, part: seq<T>)
    requires x + blockSize <= |data| && data[x..x + blockSize] == block
    requires y + len <= blockSize && block[y..y + len] == part
    ensures data[x + y..x + y + len] == part
  {
    SliceOfSlice(data, x, blockSize, y, len);
  }

  /** Writing `r` just after the `f` already written over `orig` from
      `base` on extends the written run to `f + r`. */
  lemma {:induction false} Overwrite<T>(orig: seq<T>, base: nat, f: seq<T>, r: seq<T>, cur: seq<T>, next: seq<T>)
    requires base + |f| + |r| <= |orig|
    requires cur == orig[..base] + f + orig[base + |f|..]
    requires next == cur[..base + |f|] + r + cur[base + |f| + |r|..]
    ensures next == orig[..base] + (f + r) + orig[base + |f| + |r|..]
  {
    assert cur[..base + |f|] == orig[..base] + f;
    assert cur[base + |f| + |r|..] == orig[base + |f| + |r|..];
  }

  /** Three writes one after the other from `at` on, the second and the
      third each just after the one before, write their concatenation. */
  lemma {:induction false} WriteParts<T>(s0: seq<T>, s1: seq<T>, s2: seq<T>, s3: seq<T>, at: nat, a: seq<T>, b: seq<T>, c: seq<T>)
    requires at + |a| + |b| + |c| <= |s0|
    requires s1 == s0[..at] + a + s0[at + |a|..]
    requires s2 == s1[..at + |a|] + b + s1[at + |a| + |b|..]
    requires s3 == s2[..at + |a| + |b|] + c + s2[at + |a| + |b| + |c|..]
    ensures s3 == s0[..at] + (a + b + c) + s0[at + |a| + |b| + |c|..]
  {
    Overwrite(s0, at, [], a, s0, s1);
    Overwrite(s0, at, a, b, s1, s2);
    Overwrite(s0, at, a + b, c, s2, s3);
  }

  /** Not writing is writing nothing. */
  lemma {:induction false} WriteNothing<T>(s: seq<T>, at: nat)
    requires at <= |s|
    ensures s == s[..at] + [] + s[at..]
  {
  }

  /** A slice that ends where a prefix of `s` ends is a slice of that prefix. */
  lemma {:induction false} SliceOfPrefix<T>(s: seq<T>, t: seq<T>, at: nat, end: nat)
    requires end <= |s| && at <= end && s[..end] == t
    ensures s[at..end] == t[at..]
  {
  }

  /** Sequences all `size` long. */
  predicate AllOfSize<T>(rs: seq<seq<T>>, size: nat)
  {
    forall k :: 0 <= k < |rs| ==> |rs[k]| == size
  }

  /** Blocks of `size` elements laid out one after the other. */
  function Join<T>(rs: seq<seq<T>>, size: nat): (r: seq<T>)
    requires AllOfSize(rs, size)
    ensures |r| == Mul(|rs|, size)
    decreases |rs|
  {
    if rs == [] then [] else Join(rs[..|rs| - 1], size) + rs[|rs| - 1]
  }

  /** Joining one more block appends its elements. */
  lemma {:induction false} JoinAppend<T>(rs: seq<seq<T>>, b: seq<T>, size: nat)
    requires AllOfSize(rs, size) && |b| == size
    ensures AllOfSize(rs + [b], size)
    ensures Join(rs + [b], size) == Join(rs, size) + b
  {
    assert (rs + [b])[..|rs|] == rs;
  }

  /** The first `m` blocks of a join are the join of the first `m` blocks. */
  lemma {:induction false} JoinPrefix<T>(rs: seq<seq<T>>, size: nat, m: nat)
    requires AllOfSize(rs, size) && m <= |rs|
    ensures Mul(m, size) <= Mul(|rs|, size)
    ensures Join(rs, size)[..Mul(m, size)] == Join(rs[..m], size)
    decreases |rs|
  {
    MulMonotone(m, |rs|, size);
    if m < |rs| {
      var n := |rs|;
      MulMonotone(m, n - 1, size);
      assert Join(rs, size)[..Mul(m, size)] == Join(rs[..n - 1], size)[..Mul(m, size)];
      JoinPrefix(rs[..n - 1], size, m);
      assert rs[..n - 1][..m] == rs[..m];
    } else {
      assert rs[..m] == rs;
    }
  }

  /** Block `k` of a join starts at element `k * size`. */
  lemma {:induction false} JoinAt<T>(rs: seq<seq<T>>, size: nat, k: nat)
    requires AllOfSize(rs, size) && k < |rs|
    ensures Mul(k, size) + size <= Mul(|rs|, size)
    ensures Join(rs, size)[Mul(k, size)..Mul(k, size) + size] == rs[k]
  {
    var at := Mul(k, size);
    JoinPrefix(rs, size, k + 1);
    var upto := rs[..k + 1];
    assert upto == rs[..k] + [rs[k]];
    JoinAppend(rs[..k], rs[k], size);
    SliceOfPrefix(Join(rs, size), Join(upto, size), at, at + size);
  }
}
