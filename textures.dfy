/**
 * The decision logic of the demo's texture wrapper: the power-of-two test run
 * when the image arrives, the filtering and wrapping parameters chosen from it,
 * and the fixed table of eight texture units that `bind` selects from.
 */
module Textures {
  import opened Gl

  const TWO_POW_32: int := 0x1_0000_0000

  /** The 32-bit two's complement pattern JavaScript's bitwise operators see for an integer. */
  function Low32(x: int): (r: nat)
    ensures r < TWO_POW_32
    ensures 0 <= x < TWO_POW_32 ==> r == x
    ensures x == -1 ==> r == TWO_POW_32 - 1
  {
    x % TWO_POW_32
  }

  /** Bitwise AND of two bit patterns, one bit at a time from the least significant. */
  function BitAnd(a: nat, b: nat): nat
    decreases a
  {
    if a == 0 || b == 0 then 0
    else 2 * BitAnd(a / 2, b / 2) + (if a % 2 == 1 && b % 2 == 1 then 1 else 0)
  }

  /** The demo's test `(value & (value - 1)) == 0`, on the 32-bit patterns JavaScript uses. */
  predicate IsPowerOf2(value: int)
  {
    BitAnd(Low32(value), Low32(value - 1)) == 0
  }

  /** 2 raised to the k-th power. */
  function Pow2(k: nat): (p: nat)
    ensures p >= 1
  {
    if k == 0 then 1 else 2 * Pow2(k - 1)
  }

  /** Powers of two, described by halving. */
  ghost predicate Halves(v: nat)
    decreases v
  {
    v == 1 || (v > 1 && v % 2 == 0 && Halves(v / 2))
  }

  lemma {:induction false} BitAndSelf(m: nat)
    ensures BitAnd(m, m) == m
    decreases m
  {
    if m != 0 {
      BitAndSelf(m / 2);
    }
  }

  /** A positive v shares no set bit with v - 1 exactly when v is a power of two. */
  lemma {:induction false} BitAndPredecessor(v: nat)
    requires v >= 1
    ensures BitAnd(v, v - 1) == 0 <==> Halves(v)
    decreases v
  {
    if v == 1 {
    } else if v % 2 == 1 {
      assert (v - 1) / 2 == v / 2;
      BitAndSelf(v / 2);
    } else {
      assert (v - 1) / 2 == v / 2 - 1;
      BitAndPredecessor(v / 2);
    }
  }

  lemma {:induction false} HalvesIsPow2(v: nat) returns (k: nat)
    requires Halves(v)
    ensures v == Pow2(k)
    decreases v
  {
    if v == 1 {
      k := 0;
    } else {
      var j := HalvesIsPow2(v / 2);
      k := j + 1;
    }
  }

  lemma {:induction false} Pow2Halves(k: nat)
    ensures Halves(Pow2(k))
  {
    if k > 0 {
      Pow2Halves(k - 1);
    }
  }

  /**
   * For every value a 32-bit pattern can hold, the demo's test accepts exactly 0
   * and the powers of two; it does accept 0.
   */
  lemma IsPowerOf2Exactly(value: int)
    requires 0 <= value < TWO_POW_32
    ensures IsPowerOf2(value) <==> value == 0 || exists k: nat :: value == Pow2(k)
  {
    if value == 0 {
      assert IsPowerOf2(value);
    } else {
      BitAndPredecessor(value);
      if IsPowerOf2(value) {
        var k := HalvesIsPow2(value);
      }
      if exists k: nat :: value == Pow2(k) {
        var k: nat :| value == Pow2(k);
        Pow2Halves(k);
      }
    }
  }

  /**
   * The texture parameters set once the image has arrived (after the image data
   * upload): mipmaps only when both dimensions pass the test, otherwise a LINEAR
   * minification filter; edge-clamped wrapping and LINEAR magnification always.
   */
  function ImageFilterCalls(width: int, height: int): (calls: seq<GlCall>)
    ensures |calls| == 4
    ensures GenerateMipmap(TEXTURE_2D) in calls <==> IsPowerOf2(width) && IsPowerOf2(height)
    ensures TexParameteri(TEXTURE_2D, TEXTURE_MIN_FILTER, LINEAR) in calls
            <==> !(IsPowerOf2(width) && IsPowerOf2(height))
    ensures calls[1..] == [TexParameteri(TEXTURE_2D, TEXTURE_WRAP_S, CLAMP_TO_EDGE),
                           TexParameteri(TEXTURE_2D, TEXTURE_WRAP_T, CLAMP_TO_EDGE),
                           TexParameteri(TEXTURE_2D, TEXTURE_MAG_FILTER, LINEAR)]
  {
    var mips :=
      if IsPowerOf2(width) && IsPowerOf2(height) then GenerateMipmap(TEXTURE_2D)
      else TexParameteri(TEXTURE_2D, TEXTURE_MIN_FILTER, LINEAR);
    [mips,
     TexParameteri(TEXTURE_2D, TEXTURE_WRAP_S, CLAMP_TO_EDGE),
     TexParameteri(TEXTURE_2D, TEXTURE_WRAP_T, CLAMP_TO_EDGE),
     TexParameteri(TEXTURE_2D, TEXTURE_MAG_FILTER, LINEAR)]
  }

  /** For image sizes a 32-bit pattern can hold, mipmaps are generated exactly when each side is 0 or a power of two. */
  lemma MipmapsExactlyForPowerOfTwoSides(width: int, height: int)
    requires 0 <= width < TWO_POW_32 && 0 <= height < TWO_POW_32
    ensures GenerateMipmap(TEXTURE_2D) in ImageFilterCalls(width, height)
            <==> ((width == 0 || exists k: nat :: width == Pow2(k)) &&
                 (height == 0 || exists k: nat :: height == Pow2(k)))
  {
    IsPowerOf2Exactly(width);
    IsPowerOf2Exactly(height);
  }

  /** The eight-entry table `bind` indexes. */
  const TEXTURE_UNITS: seq<GlEnum> :=
    [TEXTURE0, TEXTURE1, TEXTURE2, TEXTURE3, TEXTURE4, TEXTURE5, TEXTURE6, TEXTURE7]

  /**
   * `bind(unit)`: activate the unit's entry of the table, then bind the texture
   * handle. The handle bound is the one stored globally by the last texture
   * created, so it is a parameter here rather than state of a texture object.
   */
  function BindCalls(unit: int, bound: TextureHandle): (calls: seq<GlCall>)
    requires 0 <= unit < |TEXTURE_UNITS|
    ensures calls == [ActiveTexture(TEXTURE0 + unit), BindTexture(TEXTURE_2D, bound)]
  {
    [ActiveTexture(TEXTURE_UNITS[unit]), BindTexture(TEXTURE_2D, bound)]
  }
}
