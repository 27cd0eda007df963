/** Extraction of integers from ASN.1 bit strings: bytes in big-endian order of which the lowest `unused` bits
    do not belong to the string. Integers are unbounded here; widths are written out. */
module BitString {
  import opened Wrappers

  // ----- Shifts and bitwise or

  function Shl(n: nat, k: nat): nat {
    if k == 0 then n else 2 * Shl(n, k - 1)
  }

  function Shr(n: nat, k: nat): nat
    decreases k
  {
    if k == 0 then n else Shr(n / 2, k - 1)
  }

  function Or(a: nat, b: nat): nat {
    if a == 0 && b == 0 then 0 else (if a % 2 == 1 || b % 2 == 1 then 1 else 0) + 2 * Or(a / 2, b / 2)
  }

  /** A left shift multiplies by a power of two, */
  lemma {:induction false} ShlMultiplies(n: nat, k: nat)
    ensures Shl(n, k) == n * Shl(1, k)
  {
    if k > 0 {
      ShlMultiplies(n, k - 1);
    }
  }

  /** and a right shift divides by it. */
  lemma {:induction false} ShrDivides(n: nat, k: nat)
    ensures Shl(Shr(n, k), k) <= n < Shl(Shr(n, k), k) + Shl(1, k)
    decreases k
  {
    if k > 0 {
      ShrDivides(n / 2, k - 1);
    }
  }

  lemma Shl8(n: nat)
    ensures Shl(n, 8) == 256 * n
  {
    assert Shl(n, 1) == 2 * n;
    assert Shl(n, 2) == 4 * n;
    assert Shl(n, 3) == 8 * n;
    assert Shl(n, 4) == 16 * n;
    assert Shl(n, 5) == 32 * n;
    assert Shl(n, 6) == 64 * n;
  }

  lemma Shl16(n: nat)
    ensures Shl(n, 16) == 0x1_0000 * n
  {
    Shl8(n);
    Shl8(256 * n);
    ShlTwice(n, 8, 8);
  }

  lemma Shl32(n: nat)
    ensures Shl(n, 32) == 0x1_0000_0000 * n
  {
    Shl16(n);
    Shl16(0x1_0000 * n);
    ShlTwice(n, 16, 16);
  }

  /** The largest byte, shifted to the top of 31 and of 39 bits. */
  lemma LargestBytes()
    ensures Shl(255, 23) == 0x7f80_0000 && Shl(255, 31) == 0x7f_8000_0000
  {
    Shl32(255);
    Shl16(255);
    Shl8(255 * 0x1_0000);
    ShlTwice(255, 16, 8);
    assert Shl(255, 32) == 2 * Shl(255, 31);
    assert Shl(255, 24) == 2 * Shl(255, 23);
  }

  lemma {:induction false} ShlTwice(n: nat, j: nat, k: nat)
    ensures Shl(n, j + k) == Shl(Shl(n, j), k)
    decreases k
  {
    if k > 0 {
      ShlTwice(n, j, k - 1);
    }
  }

  lemma {:induction false} ShlAdds(a: nat, b: nat, k: nat)
    ensures Shl(a + b, k) == Shl(a, k) + Shl(b, k)
  {
    if k > 0 {
      ShlAdds(a, b, k - 1);
    }
  }

  lemma {:induction false} ShlGrows(a: nat, b: nat, j: nat, k: nat)
    requires a <= b && j <= k
    ensures Shl(a, j) <= Shl(b, k)
    decreases k
  {
    if j > 0 {
      ShlGrows(a, b, j - 1, k - 1);
    } else if k > 0 {
      ShlGrows(a, b, 0, k - 1);
    }
  }

  lemma {:induction false} ShlZero(k: nat)
    ensures Shl(0, k) == 0
  {
    if k > 0 {
      ShlZero(k - 1);
    }
  }

  lemma {:induction false} OrZero(a: nat)
    ensures Or(a, 0) == a && Or(0, a) == a
  {
    if a > 0 {
      OrZero(a / 2);
    }
  }

  /** On disjoint bits, or is addition. */
  lemma {:induction false} OrIsSum(q: nat, b: nat, k: nat)
    requires b < Shl(1, k)
    ensures Or(Shl(q, k), b) == Shl(q, k) + b
  {
    if k == 0 {
      OrZero(q);
    } else {
      OrIsSum(q, b / 2, k - 1);
    }
  }

  lemma {:induction false} OrShifted(a: nat, b: nat, s: nat)
    ensures Or(Shl(a, s), Shl(b, s)) == Shl(Or(a, b), s)
  {
    if s > 0 {
      OrShifted(a, b, s - 1);
    }
  }

  lemma {:induction false} ShrSum(h: nat, b: nat, w: nat, k: nat)
    requires k <= w && b < Shl(1, w)
    ensures Shr(Shl(h, w) + b, k) == Shl(h, w - k) + Shr(b, k) && Shr(b, k) < Shl(1, w - k)
    decreases k
  {
    if k > 0 {
      ShrSum(h, b / 2, w - 1, k - 1);
    }
  }

  // ----- The value of a bit string

  ghost predicate Bytes(buf: seq<nat>) {
    forall i :: 0 <= i < |buf| ==> buf[i] < 256
  }

  /** The bytes in big-endian order. */
  function BigEndian(buf: seq<nat>): nat {
    if buf == [] then 0 else BigEndian(buf[..|buf| - 1]) * 256 + buf[|buf| - 1]
  }

  /** What every extraction is meant to give. */
  function Value(buf: seq<nat>, unused: nat): nat {
    Shr(BigEndian(buf), unused)
  }

  lemma Prefix(buf: seq<nat>, i: nat)
    requires i < |buf|
    ensures BigEndian(buf[..i + 1]) == BigEndian(buf[..i]) * 256 + buf[i]
  {
    assert buf[..i + 1][..i] == buf[..i];
  }

  /** A byte appended below. */
  lemma ByteBelow(h: nat, b: nat, k: nat)
    ensures Shl(h * 256 + b, k) == Shl(h, k + 8) + Shl(b, k)
  {
    ShlAdds(h * 256, b, k);
    Shl8(h);
    ShlTwice(h, 8, k);
  }

  lemma ShiftOut(high: nat, last: nat, unused: nat)
    requires last < 256 && unused <= 7
    ensures Shr(last, unused) < Shl(1, 8 - unused)
    ensures Shr(high * 256 + last, unused) == Shl(high, 8 - unused) + Shr(last, unused)
  {
    Shl8(high);
    Shl8(1);
    ShrSum(high, last, 8, unused);
  }

  /** The value, split at the last byte. */
  lemma LastByte(buf: seq<nat>, unused: nat)
    requires Bytes(buf) && buf != [] && unused <= 7
    ensures var last := buf[|buf| - 1];
      && Shr(last, unused) < Shl(1, 8 - unused)
      && Value(buf, unused) == Shl(BigEndian(buf[..|buf| - 1]), 8 - unused) + Shr(last, unused)
  {
    ShiftOut(BigEndian(buf[..|buf| - 1]), buf[|buf| - 1], unused);
  }

  /** The value fits the width of its bytes. */
  lemma {:induction false} Bounded(buf: seq<nat>)
    requires Bytes(buf)
    ensures BigEndian(buf) < Shl(1, 8 * |buf|)
  {
    if buf != [] {
      Bounded(buf[..|buf| - 1]);
      ShlTwice(1, 8 * (|buf| - 1), 8);
      Shl8(Shl(1, 8 * (|buf| - 1)));
    }
  }

  // ----- The extractions

  /** One step of the accumulation: a byte is or-ed below the bytes before it. */
  lemma AppendByte(high: nat, b: nat, s: nat)
    requires b < 256
    ensures Or(Shl(high, s + 8), Shl(b, s)) == Shl(high * 256 + b, s)
  {
    Shl8(high);
    Shl8(1);
    ShlTwice(high, 8, s);
    OrShifted(high * 256, b, s);
    OrIsSum(high, b, 8);
  }

  /** The last byte is or-ed in after its unused bits are shifted out. */
  lemma AppendLast(buf: seq<nat>, unused: nat)
    requires Bytes(buf) && buf != [] && unused <= 7
    ensures Or(Shl(BigEndian(buf[..|buf| - 1]), 8 - unused), Shr(buf[|buf| - 1], unused)) == Value(buf, unused)
  {
    LastByte(buf, unused);
    OrIsSum(BigEndian(buf[..|buf| - 1]), Shr(buf[|buf| - 1], unused), 8 - unused);
  }

  /** `BIT_STRING_to_uint8`; a wrong size is a fatal error. */
  method ToUint8(buf: seq<nat>, unused: nat) returns (r: Option<nat>)
    requires Bytes(buf) && unused <= 7
    ensures r == if |buf| == 1 then Some(Value(buf, unused)) else None
  {
    if |buf| != 1 {
      return None;
    }
    assert BigEndian(buf[..0]) == 0;
    r := Some(Shr(buf[0], unused));
  }

  /** `BIT_STRING_to_uint16`: two bytes fall through to the case of one. */
  method ToUint16(buf: seq<nat>, unused: nat) returns (r: Option<nat>)
    requires Bytes(buf) && unused <= 7
    ensures r == if 1 <= |buf| <= 2 then Some(Value(buf, unused)) else None
  {
    if !(1 <= |buf| <= 2) {
      return None;
    }
    var result, index := 0, 0;
    Prefix(buf, 0);
    ShlZero(8 - unused);
    if |buf| == 2 {
      result := Or(result, Shl(buf[index], 8 - unused));
      OrZero(Shl(buf[0], 8 - unused));
      index := index + 1;
    }
    AppendLast(buf, unused);
    result := Or(result, Shr(buf[index], unused));
    r := Some(result);
  }

  /** `BIT_STRING_to_uint32`. */
  method ToUint32(buf: seq<nat>, unused: nat) returns (r: Option<nat>)
    requires Bytes(buf) && unused <= 7
    ensures r == if 1 <= |buf| <= 4 then Some(Value(buf, unused)) else None
  {
    if !(1 <= |buf| <= 4) {
      return None;
    }
    var result, shift, index := 0, 8 * (|buf| - 1) - unused, 0;
    ShlZero(shift + 8);
    while index < |buf| - 1
      invariant 0 <= index <= |buf| - 1 && shift == 8 * (|buf| - 1 - index) - unused
      invariant result == Shl(BigEndian(buf[..index]), shift + 8)
    {
      AppendByte(BigEndian(buf[..index]), buf[index], shift);
      Prefix(buf, index);
      result := Or(result, Shl(buf[index], shift));
      shift := shift - 8;
      index := index + 1;
    }
    AppendLast(buf, unused);
    result := Or(result, Shr(buf[index], unused));
    r := Some(result);
  }

  // ----- 64 bits

  type Wide = (nat, nat) -> nat

  /** A byte shifted left as a C `int` and then widened to 64 bits: 32 bits are kept, and bit 31 is copied into
      the upper half. C defines no result for shifts of 32 or more; `wide` is what they happen to give. */
  function IntShl(wide: Wide, b: nat, s: nat): nat {
    var w := Shl(b, s) % 0x1_0000_0000;
    if s >= 32 then wide(b, s) else if w < 0x8000_0000 then w else w + 0xffff_ffff_0000_0000
  }

  /** The bytes of `buf` from position `index` on, accumulated into `result` by the 64-bit version. */
  function Accumulate64(wide: Wide, buf: seq<nat>, unused: nat, index: nat, result: nat): nat
    requires index < |buf| && unused <= 7
    decreases |buf| - index
  {
    if index == |buf| - 1 then Or(result, Shr(buf[index], unused))
    else Accumulate64(wide, buf, unused, index + 1, Or(result, IntShl(wide, buf[index], 8 * (|buf| - 1 - index) - unused)))
  }

  /** `BIT_STRING_to_uint64`. */
  method ToUint64(wide: Wide, buf: seq<nat>, unused: nat) returns (r: Option<nat>)
    requires Bytes(buf) && unused <= 7
    ensures r == if 1 <= |buf| <= 8 then Some(Accumulate64(wide, buf, unused, 0, 0)) else None
  {
    if !(1 <= |buf| <= 8) {
      return None;
    }
    var result, shift, index := 0, 8 * (|buf| - 1) - unused, 0;
    while index < |buf| - 1
      invariant 0 <= index <= |buf| - 1 && shift == 8 * (|buf| - 1 - index) - unused
      invariant Accumulate64(wide, buf, unused, 0, 0) == Accumulate64(wide, buf, unused, index, result)
    {
      result := Or(result, IntShl(wide, buf[index], shift));
      shift := shift - 8;
      index := index + 1;
    }
    result := Or(result, Shr(buf[index], unused));
    r := Some(result);
  }

  /** Shifts up to 23 lose nothing. */
  lemma SmallShlExact(wide: Wide, b: nat, s: nat)
    requires b < 256 && s <= 23
    ensures IntShl(wide, b, s) == Shl(b, s)
  {
    ShlGrows(b, 255, s, 23);
    LargestBytes();
  }

  /** The last of the remaining bytes. */
  lemma LastSplits(b: nat, q: nat, unused: nat)
    requires b < 256 && unused <= 7
    ensures Or(Shl(q, 8 - unused), Shr(b, unused)) == Shl(q, 8 - unused) + Or(0, Shr(b, unused))
  {
    Shl8(1);
    Shl8(0);
    ShrSum(0, b, 8, unused);
    OrIsSum(q, Shr(b, unused), 8 - unused);
    OrZero(Shr(b, unused));
  }

  /** What the remaining bytes add does not depend on the bytes before them. */
  lemma {:induction false} AccumulateSplits(wide: Wide, buf: seq<nat>, unused: nat, index: nat, q: nat)
    requires Bytes(buf) && 0 < index < |buf| && 8 * |buf| - unused <= 39 && unused <= 7
    ensures var n := 8 * (|buf| - index) - unused;
      Accumulate64(wide, buf, unused, index, Shl(q, n)) == Shl(q, n) + Accumulate64(wide, buf, unused, index, 0)
    decreases |buf| - index
  {
    var b := buf[index];
    if index == |buf| - 1 {
      LastSplits(b, q, unused);
    } else {
      var s := 8 * (|buf| - 1 - index) - unused;
      SmallShlExact(wide, b, s);
      AppendByte(q, b, s);
      OrZero(Shl(b, s));
      AccumulateSplits(wide, buf, unused, index + 1, q * 256 + b);
      AccumulateSplits(wide, buf, unused, index + 1, b);
      ByteBelow(q, b, s);
    }
  }

  lemma {:induction false} ShlStrict(a: nat, b: nat, k: nat)
    requires a < b
    ensures Shl(a, k) < Shl(b, k)
  {
    if k > 0 {
      ShlStrict(a, b, k - 1);
    }
  }

  /** Of a shifted byte, 32 bits are kept: those of its lower part. */
  lemma KeptBits(b: nat, s: nat) returns (low: nat)
    requires s <= 32
    ensures Shl(b, s) % 0x1_0000_0000 == Shl(low, s)
  {
    var j := 32 - s;
    var high := Shr(b, j);
    ShrDivides(b, j);
    low := b - Shl(high, j);
    ShlAdds(Shl(high, j), low, s);
    ShlTwice(high, j, s);
    Shl32(high);
    ShlStrict(low, Shl(1, j), s);
    ShlTwice(1, j, s);
    Shl32(1);
  }

  /** The shifted first byte is a multiple of the shift, also after 32 bits were kept and bit 31 was copied. */
  lemma IntShlIsMultiple(wide: Wide, b: nat, s: nat) returns (q: nat)
    requires b < 256 && s < 32
    ensures IntShl(wide, b, s) == Shl(q, s)
  {
    q := KeptBits(b, s);
    if Shl(q, s) >= 0x8000_0000 {
      ShlAdds(q, Shl(0xffff_ffff, 32 - s), s);
      ShlTwice(0xffff_ffff, 32 - s, s);
      Shl32(0xffff_ffff);
      q := q + Shl(0xffff_ffff, 32 - s);
    }
  }

  lemma IntShlExactIff(wide: Wide, b: nat, s: nat)
    requires b < 256 && s < 32
    ensures IntShl(wide, b, s) == Shl(b, s) <==> Shl(b, s) < 0x8000_0000
  {
    ShlGrows(b, 255, s, 31);
    LargestBytes();
  }

  lemma {:induction false} ExactFrom(wide: Wide, buf: seq<nat>, unused: nat, index: nat)
    requires Bytes(buf) && 0 < index < |buf| && 8 * |buf| - unused <= 39 && unused <= 7
    ensures Accumulate64(wide, buf, unused, index, Shl(BigEndian(buf[..index]), 8 * (|buf| - index) - unused)) == Value(buf, unused)
    decreases |buf| - index
  {
    if index == |buf| - 1 {
      AppendLast(buf, unused);
    } else {
      var s := 8 * (|buf| - 1 - index) - unused;
      SmallShlExact(wide, buf[index], s);
      AppendByte(BigEndian(buf[..index]), buf[index], s);
      Prefix(buf, index);
      ExactFrom(wide, buf, unused, index + 1);
    }
  }

  /** As long as its shifts are defined, the 64-bit version is right exactly when the first byte, shifted to its
      place, does not reach bit 31 of a C `int`; so for every string of at most 31 bits. */
  lemma Uint64ExactIff(wide: Wide, buf: seq<nat>, unused: nat)
    requires Bytes(buf) && |buf| > 0 && 8 * |buf| - unused <= 39 && unused <= 7
    ensures Accumulate64(wide, buf, unused, 0, 0) == Value(buf, unused)
       <==> |buf| == 1 || Shl(buf[0], 8 * (|buf| - 1) - unused) < 0x8000_0000
    ensures 8 * |buf| - unused <= 31 ==> Accumulate64(wide, buf, unused, 0, 0) == Value(buf, unused)
  {
    if |buf| == 1 {
      AppendLast(buf, unused);
      ShlZero(8 - unused);
    } else {
      var s := 8 * (|buf| - 1) - unused;
      var q := IntShlIsMultiple(wide, buf[0], s);
      OrZero(Shl(q, s));
      AccumulateSplits(wide, buf, unused, 1, q);
      AccumulateSplits(wide, buf, unused, 1, buf[0]);
      Prefix(buf, 0);
      ExactFrom(wide, buf, unused, 1);
      IntShlExactIff(wide, buf[0], s);
      if s <= 23 {
        SmallShlExact(wide, buf[0], s);
      }
    }
  }

  // ----- The cell identity

  lemma ThreeBytes(buf: seq<nat>, k: nat)
    requires |buf| == 4
    ensures Shl(BigEndian(buf[..3]), k) == Shl(buf[0], k + 16) + Shl(buf[1], k + 8) + Shl(buf[2], k)
  {
    Prefix(buf, 0);
    Prefix(buf, 1);
    Prefix(buf, 2);
    ByteBelow(BigEndian(buf[..2]), buf[2], k);
    ByteBelow(buf[0], buf[1], k + 8);
  }

  /** The cell identity computed byte by byte from a measurement report is the four-byte string with four unused
      bits. */
  lemma CellIdentity(buf: seq<nat>)
    requires Bytes(buf) && |buf| == 4
    ensures Value(buf, 4) == Shl(buf[0], 20) + Shl(buf[1], 12) + Shl(buf[2], 4) + Shr(buf[3], 4)
  {
    LastByte(buf, 4);
    ThreeBytes(buf, 4);
  }
}
