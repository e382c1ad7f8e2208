/**
 * Interleaved vertex layout: attribute descriptors, the stride and
 * items-per-vertex folds over an ordered attribute list, the byte offset each
 * attribute gets, and the buffer wrapper that configures the attribute pointers
 * and issues the draw call.
 */
module VertexBuffers {
  import opened Gl

  /**
   * One vertex attribute: its location, the GL type of its items, how many items
   * it has (vec2 -> 2), the byte size of one item, and whether to normalize.
   * Set once when constructed and never changed.
   */
  datatype VertexAttribute = VertexAttribute(
    attribute: AttribLocation,
    componentType: GlEnum,
    itemCount: nat,
    itemSize: nat,
    normalize: bool)
  {
    /** Bytes this attribute occupies within one vertex. */
    function ByteLength(): nat
    {
      itemCount * itemSize
    }
  }

  /** Sum of the byte lengths of the attributes, folded in list order. */
  function StrideSum(attrs: seq<VertexAttribute>): nat
  {
    if attrs == [] then 0
    else StrideSum(attrs[..|attrs| - 1]) + attrs[|attrs| - 1].ByteLength()
  }

  /** Sum of the item counts of the attributes, folded in list order. */
  function ItemsSum(attrs: seq<VertexAttribute>): nat
  {
    if attrs == [] then 0
    else ItemsSum(attrs[..|attrs| - 1]) + attrs[|attrs| - 1].itemCount
  }

  /** Byte offset of attribute i within a vertex: the byte lengths of the attributes before it. */
  function Offset(attrs: seq<VertexAttribute>, i: nat): nat
    requires i <= |attrs|
  {
    StrideSum(attrs[..i])
  }

  /** The stride of a concatenated list is the sum of the strides of its parts. */
  lemma {:induction false} StrideSumAppend(a: seq<VertexAttribute>, b: seq<VertexAttribute>)
    ensures StrideSum(a + b) == StrideSum(a) + StrideSum(b)
    decreases |b|
  {
    if b == [] {
      assert a + b == a;
    } else {
      var n := |b| - 1;
      assert (a + b)[..|a + b| - 1] == a + b[..n];
      StrideSumAppend(a, b[..n]);
    }
  }

  /** Moving from attribute i to attribute j adds exactly the byte lengths in between. */
  lemma OffsetStep(attrs: seq<VertexAttribute>, i: nat, j: nat)
    requires i <= j <= |attrs|
    ensures Offset(attrs, j) == Offset(attrs, i) + StrideSum(attrs[i..j])
  {
    assert attrs[..j] == attrs[..i] + attrs[i..j];
    StrideSumAppend(attrs[..i], attrs[i..j]);
  }

  /**
   * The offsets start at 0, do not decrease, each attribute ends where the next
   * begins or earlier, no attribute reaches past the stride, and the offset after
   * the last attribute is the stride itself.
   */
  lemma OffsetsLayout(attrs: seq<VertexAttribute>, i: nat, j: nat)
    requires i < j <= |attrs|
    ensures Offset(attrs, 0) == 0
    ensures Offset(attrs, i) + attrs[i].ByteLength() <= Offset(attrs, j)
    ensures Offset(attrs, j) <= StrideSum(attrs) == Offset(attrs, |attrs|)
  {
    assert attrs[..0] == [];
    assert attrs[..|attrs|] == attrs;
    OffsetStep(attrs, i, i + 1);
    OffsetStep(attrs, i + 1, j);
    OffsetStep(attrs, j, |attrs|);
    assert attrs[i..i + 1] == [attrs[i]];
    assert attrs[i..i + 1][..0] == [];
  }

  /** When every attribute takes up at least one byte the offsets strictly increase. */
  lemma OffsetsStrictlyIncrease(attrs: seq<VertexAttribute>, i: nat, j: nat)
    requires forall a :: a in attrs ==> a.ByteLength() > 0
    requires i < j <= |attrs|
    ensures Offset(attrs, i) < Offset(attrs, j)
  {
    OffsetsLayout(attrs, i, j);
    assert attrs[i] in attrs;
  }

  /** When all items have the same byte width, the stride is that width times the items per vertex. */
  lemma {:induction false} UniformWidthStride(attrs: seq<VertexAttribute>, width: nat)
    requires forall a :: a in attrs ==> a.itemSize == width
    ensures StrideSum(attrs) == width * ItemsSum(attrs)
    decreases |attrs|
  {
    if attrs != [] {
      var init := attrs[..|attrs| - 1];
      assert forall a :: a in init ==> a in attrs;
      UniformWidthStride(init, width);
      assert attrs[|attrs| - 1] in attrs;
    }
  }

  /** The pointer configuration for one attribute at a given stride and offset. */
  function PointerCall(a: VertexAttribute, stride: nat, offset: nat): GlCall
  {
    VertexAttribPointer(a.attribute, a.itemCount, a.componentType, a.normalize, stride, offset)
  }

  /**
   * The calls that configure `attrs` in list order at a shared stride: for each
   * attribute a pointer at its offset, then its enable.
   */
  function ConfigureCalls(attrs: seq<VertexAttribute>, stride: nat): seq<GlCall>
  {
    if attrs == [] then []
    else
      var init, last := attrs[..|attrs| - 1], attrs[|attrs| - 1];
      ConfigureCalls(init, stride) + [PointerCall(last, stride, StrideSum(init)), EnableVertexAttribArray(last.attribute)]
  }

  /** Call 2i sets attribute i's pointer at its prefix-sum offset, and call 2i + 1 enables it. */
  lemma {:induction false} ConfigureCallsAt(attrs: seq<VertexAttribute>, stride: nat)
    ensures |ConfigureCalls(attrs, stride)| == 2 * |attrs|
    ensures forall i :: 0 <= i < |attrs| ==>
              ConfigureCalls(attrs, stride)[2 * i] == PointerCall(attrs[i], stride, Offset(attrs, i)) &&
              ConfigureCalls(attrs, stride)[2 * i + 1] == EnableVertexAttribArray(attrs[i].attribute)
    decreases |attrs|
  {
    if attrs != [] {
      var n := |attrs| - 1;
      var init := attrs[..n];
      var calls, prior := ConfigureCalls(attrs, stride), ConfigureCalls(init, stride);
      ConfigureCallsAt(init, stride);
      assert calls == prior + [PointerCall(attrs[n], stride, Offset(attrs, n)), EnableVertexAttribArray(attrs[n].attribute)];
      forall i | 0 <= i < |attrs|
        ensures calls[2 * i] == PointerCall(attrs[i], stride, Offset(attrs, i))
        ensures calls[2 * i + 1] == EnableVertexAttribArray(attrs[i].attribute)
      {
        if i < n {
          assert init[..i] == attrs[..i];
          assert calls[2 * i] == prior[2 * i] && calls[2 * i + 1] == prior[2 * i + 1];
        }
      }
    }
  }

  /**
   * A packed vertex buffer with the ordered attribute layout of its vertices.
   * Everything is fixed by the constructor.
   */
  class AttributedVertexBuffer {
    const vertexBuffer: BufferHandle
    /** What was uploaded into the buffer; a static buffer, never rewritten. */
    const contents: seq<real>
    const attributes: seq<VertexAttribute>
    const totalStride: nat
    const itemsPerVertex: nat
    const vertexCount: nat

    /** The derived fields agree with the attribute list. */
    ghost predicate Valid()
    {
      totalStride == StrideSum(attributes) &&
      itemsPerVertex == ItemsSum(attributes) &&
      itemsPerVertex > 0 &&
      vertexCount * itemsPerVertex == |contents|
    }

    /**
     * Wraps `data` (already uploaded into the buffer `handle`) with its layout,
     * folding the attribute list into the stride and the items per vertex. The
     * vertex count is a whole number only when the length is a multiple of the
     * items per vertex, which the caller guarantees.
     */
    constructor (handle: BufferHandle, data: seq<real>, attrs: seq<VertexAttribute>)
      requires ItemsSum(attrs) > 0 && |data| % ItemsSum(attrs) == 0
      ensures Valid()
      ensures vertexBuffer == handle && contents == data && attributes == attrs
      ensures vertexCount == |data| / ItemsSum(attrs)
    {
      var stride, items := 0, 0;
      var i := 0;
      while i < |attrs|
        invariant i <= |attrs|
        invariant stride == StrideSum(attrs[..i])
        invariant items == ItemsSum(attrs[..i])
      {
        assert attrs[..i + 1][..i] == attrs[..i];
        stride := stride + attrs[i].ByteLength();
        items := items + attrs[i].itemCount;
        i := i + 1;
      }
      assert attrs[..|attrs|] == attrs;
      vertexBuffer := handle;
      contents := data;
      attributes := attrs;
      totalStride := stride;
      itemsPerVertex := items;
      vertexCount := |data| / items;
    }

    /**
     * Configures the attributes in list order: each gets a pointer with the
     * shared stride and its own offset, then is enabled.
     */
    method ApplyAttributes() returns (calls: seq<GlCall>)
      ensures calls == ConfigureCalls(attributes, totalStride)
      ensures |calls| == 2 * |attributes|
      ensures forall i :: 0 <= i < |attributes| ==>
                calls[2 * i] == PointerCall(attributes[i], totalStride, Offset(attributes, i)) &&
                calls[2 * i + 1] == EnableVertexAttribArray(attributes[i].attribute)
    {
      var stride := totalStride;
      var currentOffset := 0;
      calls := [];
      var i := 0;
      while i < |attributes|
        invariant i <= |attributes|
        invariant currentOffset == StrideSum(attributes[..i])
        invariant calls == ConfigureCalls(attributes[..i], stride)
      {
        var a := attributes[i];
        var size := a.ByteLength();
        calls := calls + [VertexAttribPointer(a.attribute, a.itemCount, a.componentType, a.normalize, stride, currentOffset),
                          EnableVertexAttribArray(a.attribute)];
        assert attributes[..i + 1][..i] == attributes[..i];
        currentOffset := currentOffset + size;
        i := i + 1;
      }
      assert attributes[..i] == attributes;
      ConfigureCallsAt(attributes, stride);
    }

    /**
     * Binds the buffer and draws all of its vertices, from index 0, as one
     * triangle fan: the vertices drawn use up exactly the uploaded data.
     */
    method Draw() returns (calls: seq<GlCall>)
      requires Valid()
      ensures |calls| == 2 && calls[0] == BindBuffer(ARRAY_BUFFER, vertexBuffer)
      ensures calls[1].DrawArrays? && calls[1].mode == TRIANGLE_FAN && calls[1].first == 0
      ensures calls[1].count * ItemsSum(attributes) == |contents|
    {
      calls := [BindBuffer(ARRAY_BUFFER, vertexBuffer)];
      calls := calls + [DrawArrays(TRIANGLE_FAN, 0, vertexCount)];
    }
  }

  /** A unit square around the origin: per vertex a position (x, y) then a texture coordinate (u, v). */
  const CENTERED_TEXTURED_SQUARE_BUFFER: seq<real> := [
    -0.5, 0.5, 0.0, 0.0,
    -0.5, -0.5, 0.0, 1.0,
    0.5, -0.5, 1.0, 1.0,
    0.5, 0.5, 1.0, 0.0
  ]

  /**
   * The demo's buffer: two vec2 float attributes over the square. The layout is
   * 16 bytes per vertex, 4 floats per vertex, 4 vertices; the texture coordinate
   * starts 8 bytes in.
   */
  method SetupSquareBuffer(handle: BufferHandle, aVertexPosition: AttribLocation, aTexturePosition: AttribLocation)
    returns (buffer: AttributedVertexBuffer, calls: seq<GlCall>)
    ensures buffer.Valid()
    ensures buffer.totalStride == 16 && buffer.itemsPerVertex == 4 && buffer.vertexCount == 4
    ensures calls == [VertexAttribPointer(aVertexPosition, 2, FLOAT, false, 16, 0),
                      EnableVertexAttribArray(aVertexPosition),
                      VertexAttribPointer(aTexturePosition, 2, FLOAT, true, 16, 8),
                      EnableVertexAttribArray(aTexturePosition)]
  {
    var posAttr := VertexAttribute(aVertexPosition, FLOAT, 2, 4, false);
    var texAttr := VertexAttribute(aTexturePosition, FLOAT, 2, 4, true);
    var attrs := [posAttr, texAttr];
    assert attrs[..1] == [posAttr] && attrs[..2] == attrs;
    assert [posAttr][..0] == [];
    assert ItemsSum([posAttr]) == 2;
    assert ItemsSum(attrs) == 4 && |CENTERED_TEXTURED_SQUARE_BUFFER| == 16;
    buffer := new AttributedVertexBuffer(handle, CENTERED_TEXTURED_SQUARE_BUFFER, attrs);
    calls := buffer.ApplyAttributes();
    assert Offset(attrs, 0) == 0 && Offset(attrs, 1) == 8;
  }
}
