/** Value types of the replicator: the placement record, the engine's vector,
    quaternion and bounding-box values, and the byte layout a `Vector3` has
    inside a vertex record.

    Floats are kept as their four in-memory bytes: the replicator never
    computes with them itself, it only moves them between the vertex buffer
    and the engine's math routines, which are supplied as `FloatOps`. */
module Types {

  /** An `unsigned char`: one byte of a buffer. */
  datatype Byte = Byte(bits: bv8)

  /** An `unsigned short` index value. */
  type UInt16 = x: int | 0 <= x < 0x1_0000

  /** An `unsigned` (32-bit) value. */
  type UInt32 = x: int | 0 <= x < 0x1_0000_0000

  /** Size in bytes of a `float`. */
  const FLOAT_SIZE: nat := 4

  /** A `float`, by the four bytes it occupies in memory. The replicator
      never looks inside a float. */
  type Float = b: seq<Byte> | |b| == FLOAT_SIZE witness [Byte(0), Byte(0), Byte(0), Byte(0)]

  datatype Vector3 = Vector3(x: Float, y: Float, z: Float)

  datatype Quaternion = Quaternion(w: Float, x: Float, y: Float, z: Float)

  /** One placement of a replica: position, rotation and uniform scale. */
  datatype PRotScale = PRotScale(pos: Vector3, rot: Quaternion, scale: Float)

  datatype BoundingBox = BoundingBox(min: Vector3, max: Vector3)

  /** The floating-point routines of the engine the replicator calls:
      `transform(p, v)` is `Matrix3x4(p.pos, p.rot, p.scale) * v`,
      `rotate(q, v)` is `q * v`, `merge(b, v)` is `b.Merge(v)` and
      `emptyBox` is a default-constructed `BoundingBox`. */
  datatype FloatOps = FloatOps(
    transform: (PRotScale, Vector3) -> Vector3,
    rotate: (Quaternion, Vector3) -> Vector3,
    merge: (BoundingBox, Vector3) -> BoundingBox,
    emptyBox: BoundingBox)

  /** Size in bytes of a `Vector3` (three floats). */
  const VECTOR3_SIZE: nat := 3 * FLOAT_SIZE

  /** The twelve bytes a `Vector3` occupies in a vertex record. */
  function EncodeVector3(v: Vector3): (r: seq<Byte>)
    ensures |r| == VECTOR3_SIZE
  {
    v.x + v.y + v.z
  }

  /** The `Vector3` a `reinterpret_cast` reads from twelve bytes. */
  function DecodeVector3(b: seq<Byte>): Vector3
    requires |b| == VECTOR3_SIZE
  {
    Vector3(b[..FLOAT_SIZE], b[FLOAT_SIZE..2 * FLOAT_SIZE], b[2 * FLOAT_SIZE..])
  }

  /** Reading back a stored vector gives the vector that was stored. */
  lemma {:induction false} Vector3RoundTrip(v: Vector3)
    ensures DecodeVector3(EncodeVector3(v)) == v
  {
    var e := EncodeVector3(v);
    assert e[..FLOAT_SIZE] == v.x;
    assert e[FLOAT_SIZE..2 * FLOAT_SIZE] == v.y;
    assert e[2 * FLOAT_SIZE..] == v.z;
  }

  /** Storing a vector that was read gives back the same twelve bytes. */
  lemma {:induction false} Vector3BytesRoundTrip(b: seq<Byte>)
    requires |b| == VECTOR3_SIZE
    ensures EncodeVector3(DecodeVector3(b)) == b
  {
    assert b == b[..FLOAT_SIZE] + b[FLOAT_SIZE..2 * FLOAT_SIZE] + b[2 * FLOAT_SIZE..];
  }
}
