/** The pick-colour encoding of an instance identifier: four RGBA bytes written
    by encodeIdInRGBA, of which decodeRgbId reads back the first three. */
module ColorId {
  /** The bytes encodeIdInRGBA stores in m_colorId for identifier `uid`: byte i
      holds bits [8i, 8i+8) (see ColorReassembles). */
  function ColorOf(uid: bv32): (c: seq<bv8>)
    ensures |c| == 4
  {
    [ (uid & 0xFF) as bv8,
      ((uid >> 8) & 0xFF) as bv8,
      ((uid >> 16) & 0xFF) as bv8,
      ((uid >> 24) & 0xFF) as bv8 ]
  }

  /** The four colour bytes, read as base-256 digits with byte 0 lowest, give back the
      whole identifier: no bit is lost by the encoding. */
  lemma ColorReassembles(uid: bv32)
    ensures var c := ColorOf(uid);
      ((c[3] as bv32) << 24) | ((c[2] as bv32) << 16) | ((c[1] as bv32) << 8) | (c[0] as bv32) == uid
  {
  }

  /** Different identifiers get different colours. */
  lemma ColorOfInjective(a: bv32, b: bv32)
    requires ColorOf(a) == ColorOf(b)
    ensures a == b
  {
  }

  /** decodeRgbId: the identifier read from a colour sample, built from its
      first three bytes only; the alpha byte never contributes. */
  function DecodeRgbId(c: seq<bv8>): (r: bv32)
    requires |c| >= 3
    ensures r >> 24 == 0
    ensures (r & 0xFF) as bv8 == c[0]
    ensures ((r >> 8) & 0xFF) as bv8 == c[1]
    ensures ((r >> 16) & 0xFF) as bv8 == c[2]
  {
    (c[0] as bv32) | ((c[1] as bv32) << 8) | ((c[2] as bv32) << 16)
  }

  /** Decoding the colour of `uid` gives back its low 24 bits. */
  lemma DecodeEncode(uid: bv32)
    ensures DecodeRgbId(ColorOf(uid)) == uid & 0xFF_FFFF
  {
  }

  /** The fourth (alpha) byte of a sample never changes the decoded identifier. */
  lemma DecodeIgnoresAlpha(c: seq<bv8>, alpha: bv8)
    requires |c| >= 4
    ensures DecodeRgbId(c[3 := alpha]) == DecodeRgbId(c)
  {
  }

  /** Two identifiers get pick colours with the same first three bytes exactly
      when they agree on their low 24 bits. */
  lemma PickColorsCollide(a: bv32, b: bv32)
    ensures ColorOf(a)[..3] == ColorOf(b)[..3] <==> a & 0xFF_FFFF == b & 0xFF_FFFF
  {
    if ColorOf(a)[..3] == ColorOf(b)[..3] {
      SameBytesSameLowBits(a, b);
    }
    if a & 0xFF_FFFF == b & 0xFF_FFFF {
      SameLowBitsSameBytes(a, b);
    }
  }

  lemma SameBytesSameLowBits(a: bv32, b: bv32)
    requires ColorOf(a)[..3] == ColorOf(b)[..3]
    ensures a & 0xFF_FFFF == b & 0xFF_FFFF
  {
    var ca, cb := ColorOf(a), ColorOf(b);
    assert ca[0] == cb[0] && ca[1] == cb[1] && ca[2] == cb[2] by {
      assert ca[..3][0] == cb[..3][0] && ca[..3][1] == cb[..3][1] && ca[..3][2] == cb[..3][2];
    }
    LowBitsFromBytes(a, b);
  }

  /** The low 24 bits are fixed by the three low bytes. */
  lemma LowBitsFromBytes(a: bv32, b: bv32)
    requires (a & 0xFF) as bv8 == (b & 0xFF) as bv8
    requires ((a >> 8) & 0xFF) as bv8 == ((b >> 8) & 0xFF) as bv8
    requires ((a >> 16) & 0xFF) as bv8 == ((b >> 16) & 0xFF) as bv8
    ensures a & 0xFF_FFFF == b & 0xFF_FFFF
  {
  }

  lemma SameLowBitsSameBytes(a: bv32, b: bv32)
    requires a & 0xFF_FFFF == b & 0xFF_FFFF
    ensures ColorOf(a)[..3] == ColorOf(b)[..3]
  {
  }
}
