/** The engine objects the replicator works on, reduced to the state it
    reads and writes: a vertex buffer of fixed-size byte records, an index
    buffer of 16- or 32-bit indices, and the geometry that draws them. */
module Buffers {
  import opened Types
  import opened Offsets

  /** A vertex buffer: `vertexCount` records of `vertexSize` bytes each,
      laid out as the element mask says. */
  class VertexBuffer {
    var elementMask: bv32
    var vertexSize: nat
    var vertexCount: nat
    var data: array<Byte>

    ghost predicate Valid()
      reads this
    {
      data.Length == Mul(vertexCount, vertexSize)
    }

    constructor(elementMask: bv32, vertexSize: nat, vertexCount: nat, contents: seq<Byte>)
      requires |contents| == Mul(vertexCount, vertexSize)
      ensures Valid()
      ensures this.elementMask == elementMask && this.vertexSize == vertexSize
      ensures this.vertexCount == vertexCount && data[..] == contents
    {
      this.elementMask := elementMask;
      this.vertexSize := vertexSize;
      this.vertexCount := vertexCount;
      data := new Byte[|contents|](k requires 0 <= k < |contents| => contents[k]);
    }

    /** Resizes the buffer to `vertexCount` records of the layout it already
        has. The new storage is fresh and its contents are undefined. */
    method SetSize(vertexCount: nat)
      modifies this
      ensures Valid()
      ensures this.vertexCount == vertexCount
      ensures elementMask == old(elementMask) && vertexSize == old(vertexSize)
      ensures fresh(data)
    {
      this.vertexCount := vertexCount;
      data := new Byte[Mul(vertexCount, vertexSize)];
    }
  }

  /** An index buffer: `indexCount` indices, 32-bit when `largeIndices`,
      otherwise 16-bit. */
  class IndexBuffer {
    var largeIndices: bool
    var indexCount: nat
    var data: array<UInt32>

    ghost predicate Valid()
      reads this, data
    {
      data.Length == indexCount &&
      (!largeIndices ==> forall k :: 0 <= k < data.Length ==> data[k] < 0x1_0000)
    }

    constructor(largeIndices: bool, contents: seq<UInt32>)
      requires !largeIndices ==> forall k :: 0 <= k < |contents| ==> contents[k] < 0x1_0000
      ensures Valid()
      ensures this.largeIndices == largeIndices && indexCount == |contents| && data[..] == contents
      ensures fresh(data)
    {
      this.largeIndices := largeIndices;
      indexCount := |contents|;
      data := new UInt32[|contents|](k requires 0 <= k < |contents| => contents[k]);
    }

    /** Resizes the buffer to `indexCount` indices of the given width. The
        new storage is fresh; it holds zeros until `SetData` fills it. */
    method SetSize(indexCount: nat, largeIndices: bool)
      modifies this
      ensures Valid()
      ensures this.indexCount == indexCount && this.largeIndices == largeIndices
      ensures fresh(data)
    {
      this.indexCount := indexCount;
      this.largeIndices := largeIndices;
      data := new UInt32[indexCount](_ => 0);
    }

    /** Copies the first `indexCount` of `values` into the buffer; for a
        16-bit buffer they are `unsigned short` values. */
    method SetData(values: seq<UInt32>)
      requires Valid() && |values| >= indexCount
      requires !largeIndices ==> forall k :: 0 <= k < indexCount ==> values[k] < 0x1_0000
      modifies data
      ensures Valid()
      ensures data[..] == values[..indexCount]
    {
      forall k | 0 <= k < indexCount {
        data[k] := values[k];
      }
    }
  }

  /** The primitive types a geometry can draw. */
  datatype PrimitiveType = TriangleList | LineList | PointList | TriangleStrip | LineStrip | TriangleFan

  /** A geometry: one vertex buffer, one index buffer and the range of
      indices it draws. */
  class Geometry {
    const vertexBuffer: VertexBuffer
    const indexBuffer: IndexBuffer
    var primitiveType: PrimitiveType
    var indexStart: nat
    var drawIndexCount: nat

    constructor(vertexBuffer: VertexBuffer, indexBuffer: IndexBuffer)
      ensures this.vertexBuffer == vertexBuffer && this.indexBuffer == indexBuffer
      ensures primitiveType == TriangleList && indexStart == 0 && drawIndexCount == 0
    {
      this.vertexBuffer := vertexBuffer;
      this.indexBuffer := indexBuffer;
      primitiveType := TriangleList;
      indexStart := 0;
      drawIndexCount := 0;
    }

    /** Draws `indexCount` indices from `indexStart` as `primitiveType`. */
    method SetDrawRange(primitiveType: PrimitiveType, indexStart: nat, indexCount: nat)
      modifies this
      ensures this.primitiveType == primitiveType
      ensures this.indexStart == indexStart && drawIndexCount == indexCount
    {
      this.primitiveType := primitiveType;
      this.indexStart := indexStart;
      drawIndexCount := indexCount;
    }
  }
}
