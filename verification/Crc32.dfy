/**
 CRC-32: the byte-wise table of the archive writer against the bit-serial shift register.

 Word operations are named functions, so that the proofs above the word level can treat them as such.
 */
module Crc32 {
  import opened Bytes

  const POLYNOMIAL: bv32 := 0xedb8_8320
  const INITIAL: bv32 := 0xffff_ffff

  function Xor(a: bv32, b: bv32): bv32 { a ^ b }

  function LowByte(v: bv32): bv32 { v & 0xff }

  function HighBytes(v: bv32): bv32 { v & 0xffff_ff00 }

  function DropByte(v: bv32): bv32 { v >> 8 }

  // ---------------------------------------------------------------- the shift register

  predicate Odd(v: bv32) { v & 1 != 0 }

  function Half(v: bv32): bv32 { v >> 1 }

  /** Shift one bit out; feed back the polynomial if it was set. */
  function Shift(v: bv32): bv32 {
    if Odd(v) then Xor(POLYNOMIAL, Half(v)) else Half(v)
  }

  function Shifts(v: bv32, n: nat): bv32 {
    if n == 0 then v else Shift(Shifts(v, n - 1))
  }

  /** The low `n` bits of a byte enter the register one by one, least significant first. */
  function ClockedBits(crc: bv32, b: byte, n: nat): bv32
    requires n <= 8
  {
    if n == 0 then crc else Shift(Xor(ClockedBits(crc, b, n - 1), if Bit(b, n - 1) then 1 else 0))
  }

  /** The register after a whole message. */
  function Register(crc: bv32, data: seq<byte>): bv32 {
    if data == [] then crc else ClockedBits(Register(crc, data[..|data| - 1]), data[|data| - 1], 8)
  }

  /** The CRC-32 of a message. */
  function Checksum(data: seq<byte>): bv32 { Xor(Register(INITIAL, data), INITIAL) }

  // ---------------------------------------------------------------- the table

  function Mask(k: nat): bv32
    requires k < 8
  {
    [1, 2, 4, 8, 16, 32, 64, 128][k]
  }

  /** The low `n` bits of a byte as a word; the masks are disjoint, so xor assembles them. */
  function Word(b: byte, n: nat): bv32
    requires n <= 8
  {
    if n == 0 then 0 else Xor(Word(b, n - 1), if Bit(b, n - 1) then Mask(n - 1) else 0)
  }

  /** Entry `index` of the table. */
  function TableEntry(index: bv32): bv32 { Shifts(index, 8) }

  function Looked(crc: bv32, b: byte): bv32 {
    Xor(TableEntry(LowByte(Xor(crc, Word(b, 8)))), DropByte(crc))
  }

  /** One table entry, as the initializer computes it. */
  method ComputeEntry(index: bv32) returns (value: bv32)
    ensures value == TableEntry(index)
  {
    hide Odd, Half, Xor;
    value := index;
    for bit := 0 to 8
      invariant value == Shifts(index, bit)
    {
      value := if Odd(value) then Xor(POLYNOMIAL, Half(value)) else Half(value);
    }
  }

  /** The running CRC over one chunk. */
  method UpdateCrc32(crc: bv32, data: seq<byte>) returns (next: bv32)
    ensures next == Register(crc, data)
  {
    hide Xor, LowByte, DropByte, ClockedBits, Word, TableEntry;
    next := crc;
    for i := 0 to |data|
      invariant next == Register(crc, data[..i])
    {
      assert data[..i + 1][..i] == data[..i];
      LookupIsSerial(next, data[i]);
      var entry := ComputeEntry(LowByte(Xor(next, Word(data[i], 8))));
      next := Xor(entry, DropByte(next));
    }
    assert data[..|data|] == data;
  }

  // ---------------------------------------------------------------- words

  lemma HalfLinear(x: bv32, y: bv32)
    ensures Half(Xor(x, y)) == Xor(Half(x), Half(y))
  {
  }

  lemma OddXor(x: bv32, y: bv32)
    ensures Odd(Xor(x, y)) == (Odd(x) != Odd(y))
  {
  }

  lemma XorCommutes(a: bv32, b: bv32)
    ensures Xor(a, b) == Xor(b, a)
  {
  }

  lemma XorCancels(a: bv32, b: bv32)
    ensures Xor(a, Xor(a, b)) == b
  {
  }

  lemma XorAssociates(a: bv32, b: bv32, c: bv32)
    ensures Xor(a, Xor(b, c)) == Xor(Xor(a, b), c)
  {
  }

  lemma XorZero(a: bv32)
    ensures Xor(a, 0) == a
  {
  }

  lemma MaskMovesDown(k: nat)
    requires 0 < k < 8
    ensures Shift(Mask(k)) == Mask(k - 1)
  {
  }

  lemma MaskIsLow(k: nat)
    requires k < 8
    ensures HighBytes(Mask(k)) == 0
  {
  }

  lemma XorIsLow(x: bv32, y: bv32)
    requires HighBytes(x) == 0 && HighBytes(y) == 0
    ensures HighBytes(Xor(x, y)) == 0
  {
  }

  lemma SplitBits(x: bv32)
    ensures x == (x & 0xff) ^ (x & 0xffff_ff00) && (x & 0xffff_ff00) & 0xff == 0
  {
  }

  lemma LowBitsVanish(crc: bv32, w: bv32)
    requires w & 0xffff_ff00 == 0
    ensures ((crc ^ w) & 0xffff_ff00) >> 8 == crc >> 8
  {
  }

  lemma SplitWord(crc: bv32, w: bv32)
    requires HighBytes(w) == 0
    ensures
      var x := Xor(crc, w);
      x == Xor(LowByte(x), HighBytes(x)) && DropByte(HighBytes(x)) == DropByte(crc) && LowByte(HighBytes(x)) == 0
  {
    SplitBits(crc ^ w);
    LowBitsVanish(crc, w);
  }

  function Halves(v: bv32, n: nat): bv32 {
    if n == 0 then v else Halves(Half(v), n - 1)
  }

  /** The low `n` bits are zero. */
  predicate ZeroBits(v: bv32, n: nat) {
    n == 0 || (!Odd(v) && ZeroBits(Half(v), n - 1))
  }

  lemma ClearBits(v: bv32, mask: bv32)
    requires mask <= 0x7f && v & ((mask << 1) | 1) == 0
    ensures !Odd(v) && Half(v) & mask == 0
  {
  }

  lemma NestedHalves(v: bv32)
    ensures (((((((v >> 1) >> 1) >> 1) >> 1) >> 1) >> 1) >> 1) >> 1 == v >> 8
  {
  }

  lemma EightHalves(v: bv32)
    ensures Halves(v, 8) == DropByte(v)
  {
    NestedHalves(v);
    var a := Half(Half(Half(Half(v))));
    assert Half(Half(Half(Half(a)))) == DropByte(v);
    hide Half, DropByte;
    assert Halves(v, 8) == Halves(Half(Half(v)), 6) == Halves(a, 4);
    var b := Half(Half(a));
    assert Halves(a, 4) == Halves(b, 2);
    assert Halves(b, 2) == Halves(Half(b), 1) == Halves(Half(Half(b)), 0);
  }

  lemma LowByteIsZero(v: bv32)
    requires LowByte(v) == 0
    ensures ZeroBits(v, 8)
  {
    var (a, b) := (Half(v), Half(Half(v)));
    var (c, d) := (Half(b), Half(Half(b)));
    var (e, f) := (Half(d), Half(Half(d)));
    var g := Half(f);
    ClearBits(v, 0x7f);
    ClearBits(a, 0x3f);
    ClearBits(b, 0x1f);
    ClearBits(c, 0xf);
    ClearBits(d, 7);
    ClearBits(e, 3);
    ClearBits(f, 1);
    ClearBits(g, 0);
    hide Half, Odd;
    assert ZeroBits(Half(g), 0) && ZeroBits(g, 1);
    assert ZeroBits(f, 2);
    assert ZeroBits(d, 4);
    assert ZeroBits(b, 6);
  }

  lemma ZeroIsEven()
    ensures !Odd(0) && Half(0) == 0
  {
  }

  // ---------------------------------------------------------------- why the table works

  lemma ShiftLinear(x: bv32, y: bv32)
    ensures Shift(Xor(x, y)) == Xor(Shift(x), Shift(y))
  {
    hide Xor, Odd, Half;
    HalfLinear(x, y);
    OddXor(x, y);
    var (p, a, b) := (POLYNOMIAL, Half(x), Half(y));
    XorAssociates(p, a, b);
    XorAssociates(a, p, b);
    XorAssociates(p, a, Xor(p, b));
    XorCommutes(a, p);
    XorCancels(p, Xor(a, b));
  }

  lemma {:induction false} ShiftsLinear(x: bv32, y: bv32, n: nat)
    ensures Shifts(Xor(x, y), n) == Xor(Shifts(x, n), Shifts(y, n))
  {
    hide Shift, Xor;
    if n > 0 {
      ShiftsLinear(x, y, n - 1);
      ShiftLinear(Shifts(x, n - 1), Shifts(y, n - 1));
    }
  }

  lemma {:induction false} ShiftFirst(v: bv32, n: nat)
    requires n > 0
    ensures Shifts(v, n) == Shifts(Shift(v), n - 1)
  {
    hide Shift;
    if n > 1 {
      ShiftFirst(v, n - 1);
    }
  }

  lemma {:induction false} MaskReachesOne(k: nat)
    requires k < 8
    ensures Shifts(Mask(k), k) == 1 && Shifts(0, k) == 0
  {
    if k > 0 {
      ShiftFirst(Mask(k), k);
      ShiftFirst(0, k);
      MaskMovesDown(k);
      ZeroIsEven();
      hide Shift, Mask;
      MaskReachesOne(k - 1);
    }
  }

  /** Entering bits one at a time is entering them all and then shifting. */
  lemma {:induction false} BitsEnterAtOnce(crc: bv32, b: byte, n: nat)
    requires n <= 8
    ensures ClockedBits(crc, b, n) == Shifts(Xor(crc, Word(b, n)), n)
  {
    hide Shift, Mask, Xor;
    if n == 0 {
      XorZero(crc);
    } else {
      var (w, m) := (Word(b, n - 1), if Bit(b, n - 1) then Mask(n - 1) else 0);
      BitsEnterAtOnce(crc, b, n - 1);
      XorAssociates(crc, w, m);
      ShiftsLinear(Xor(crc, w), m, n - 1);
      MaskReachesOne(n - 1);
    }
  }

  lemma {:induction false} WordIsLow(b: byte, n: nat)
    requires n <= 8
    ensures HighBytes(Word(b, n)) == 0
  {
    if n > 0 {
      WordIsLow(b, n - 1);
      MaskIsLow(n - 1);
      hide HighBytes, Mask, Xor;
      ZeroIsLow();
      XorIsLow(Word(b, n - 1), if Bit(b, n - 1) then Mask(n - 1) else 0);
    }
  }

  lemma ZeroIsLow()
    ensures HighBytes(0) == 0
  {
  }

  lemma {:induction false} ZeroBitsOnlyMove(v: bv32, n: nat)
    requires ZeroBits(v, n)
    ensures Shifts(v, n) == Halves(v, n)
    decreases n
  {
    hide Xor, Odd, Half;
    if n > 0 {
      ShiftFirst(v, n);
      ZeroBitsOnlyMove(Half(v), n - 1);
    }
  }

  lemma HighPartShifts(v: bv32)
    requires LowByte(v) == 0
    ensures Shifts(v, 8) == DropByte(v)
  {
    hide LowByte, DropByte, ZeroBits, Shifts, Halves;
    LowByteIsZero(v);
    ZeroBitsOnlyMove(v, 8);
    EightHalves(v);
  }

  /** One table lookup does what eight clocks of the register do. */
  lemma LookupIsSerial(crc: bv32, b: byte)
    ensures Looked(crc, b) == ClockedBits(crc, b, 8)
  {
    hide Shift, Mask, Shifts, Xor, HighBytes, LowByte, DropByte, Word, ClockedBits;
    var x := Xor(crc, Word(b, 8));
    WordIsLow(b, 8);
    SplitWord(crc, Word(b, 8));
    ShiftsLinear(LowByte(x), HighBytes(x), 8);
    HighPartShifts(HighBytes(x));
    BitsEnterAtOnce(crc, b, 8);
  }

  /** The CRC may be computed chunk by chunk. */
  lemma {:induction false} RegisterAppend(crc: bv32, a: seq<byte>, b: seq<byte>)
    ensures Register(crc, a + b) == Register(Register(crc, a), b)
    decreases |b|
  {
    hide ClockedBits;
    if b == [] {
      assert a + b == a;
    } else {
      RegisterAppend(crc, a, b[..|b| - 1]);
      assert (a + b)[..|a + b| - 1] == a + b[..|b| - 1];
    }
  }
}
