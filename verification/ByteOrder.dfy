/** Unsigned integers in little- and big-endian byte order: `struct`'s `<Q` and `!I` fields. */
module ByteOrder {
  type byte = x: int | 0 <= x < 256

  type bytes = seq<byte>

  /** 256 to the power `width`. */
  function Range(width: nat): nat
    ensures Range(width) >= 1
  {
    if width == 0 then 1 else 256 * Range(width - 1)
  }

  function PackLittle(n: nat, width: nat): (b: bytes)
    ensures |b| == width
    decreases width, n
  {
    if width == 0 then [] else [n % 256] + PackLittle(n / 256, width - 1)
  }

  function UnpackLittle(b: bytes): nat {
    if b == [] then 0 else b[0] + 256 * UnpackLittle(b[1..])
  }

  function PackBig(n: nat, width: nat): (b: bytes)
    ensures |b| == width
    decreases width, n
  {
    if width == 0 then [] else PackBig(n / 256, width - 1) + [n % 256]
  }

  function UnpackBig(b: bytes): nat {
    if b == [] then 0 else 256 * UnpackBig(b[..|b| - 1]) + b[|b| - 1]
  }

  lemma QuotientInRange(n: nat, width: nat)
    requires width > 0 && n < Range(width)
    ensures n / 256 < Range(width - 1)
  {
  }

  /** Packing a value that fits and unpacking it are inverse, in both orders and both directions. */
  lemma {:induction false} LittleRoundTrip(n: nat, width: nat)
    requires n < Range(width)
    ensures UnpackLittle(PackLittle(n, width)) == n
    decreases width
  {
    if width > 0 {
      QuotientInRange(n, width);
      LittleRoundTrip(n / 256, width - 1);
      assert PackLittle(n, width)[1..] == PackLittle(n / 256, width - 1);
    }
  }

  lemma {:induction false} LittleRoundTripBack(b: bytes)
    ensures UnpackLittle(b) < Range(|b|)
    ensures PackLittle(UnpackLittle(b), |b|) == b
  {
    if b != [] {
      LittleRoundTripBack(b[1..]);
      assert b == [b[0]] + b[1..];
      var rest := UnpackLittle(b[1..]);
      assert (b[0] + 256 * rest) % 256 == b[0] && (b[0] + 256 * rest) / 256 == rest;
    }
  }

  lemma {:induction false} BigRoundTrip(n: nat, width: nat)
    requires n < Range(width)
    ensures UnpackBig(PackBig(n, width)) == n
    decreases width
  {
    if width > 0 {
      QuotientInRange(n, width);
      BigRoundTrip(n / 256, width - 1);
      assert PackBig(n, width)[..width - 1] == PackBig(n / 256, width - 1);
    }
  }

  lemma {:induction false} BigRoundTripBack(b: bytes)
    ensures UnpackBig(b) < Range(|b|)
    ensures PackBig(UnpackBig(b), |b|) == b
  {
    if b != [] {
      var init, last := b[..|b| - 1], b[|b| - 1];
      BigRoundTripBack(init);
      assert b == init + [last];
      var rest := UnpackBig(init);
      assert (256 * rest + last) % 256 == last && (256 * rest + last) / 256 == rest;
    }
  }

  /** An unsigned integer field of a table. */
  datatype Field = Field(little: bool, width: nat) {
    /** Bytes of `n` fields. */
    function Size(n: nat): nat {
      if n == 0 then 0 else width + Size(n - 1)
    }

    /** The first value that does not fit, where struct.pack raises. */
    function Limit(): nat {
      Range(width)
    }

    function Pack(n: nat): (b: bytes)
      ensures |b| == width
    {
      if little then PackLittle(n, width) else PackBig(n, width)
    }

    function Unpack(b: bytes): nat {
      if little then UnpackLittle(b) else UnpackBig(b)
    }

    lemma RoundTrip(n: nat)
      requires n < Limit()
      ensures Unpack(Pack(n)) == n
    {
      if little { LittleRoundTrip(n, width); } else { BigRoundTrip(n, width); }
    }

    lemma RoundTripBack(b: bytes)
      requires |b| == width
      ensures Unpack(b) < Limit() && Pack(Unpack(b)) == b
    {
      if little { LittleRoundTripBack(b); } else { BigRoundTripBack(b); }
    }

    lemma {:induction false} SizeIsProduct(n: nat)
      ensures Size(n) == n * width
    {
      if n > 0 {
        SizeIsProduct(n - 1);
        assert n * width == (n - 1) * width + width;
      }
    }
  }

  /** `<Q`. */
  const LITTLE_U64 := Field(true, 8)

  /** `!I`. */
  const BIG_U32 := Field(false, 4)
}
