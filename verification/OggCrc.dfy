/**
 * The checksum of an Ogg page: generator 0x04c11db7, zero start, no reflection (section 6 of
 * RFC 3533). A 32-bit word is a natural below 2^32, and every shift says what falls off.
 */
module OggCrc {
  import opened Bytes

  const WORD: nat := 0x1_0000_0000
  const TOP_BIT: nat := 0x8000_0000
  const GENERATOR: nat := 0x04c1_1db7

  type Word = w: nat | w < WORD

  lemma ByteShift(x: nat)
    ensures Shl(x, 7) == 128 * x && Shl(x, 8) == 256 * x
  {
    assert Shl(x, 1) == 2 * x;
    assert Shl(x, 2) == 4 * x;
    assert Shl(x, 4) == 16 * x;
    assert Shl(x, 6) == 64 * x;
  }

  /** What the shifts of the source come to. */
  lemma Shifts(x: nat)
    ensures Shl(x, 8) == 256 * x && Shl(x, 24) == 0x100_0000 * x && Shl(x, 31) == TOP_BIT * x && Shl(x, 32) == WORD * x
  {
    ByteShift(x);
    ShlAdd(x, 8, 8);
    ByteShift(256 * x);
    ShlAdd(x, 16, 8);
    ByteShift(0x1_0000 * x);
    ShlAdd(x, 24, 8);
    ShlAdd(x, 24, 7);
    ByteShift(0x100_0000 * x);
  }

  lemma XorIsWord(a: Word, b: Word)
    ensures Xor(a, b) < WORD
  {
    Shifts(1);
    XorParts(a, b, 0, 0, 32);
  }

  function WordXor(a: Word, b: Word): Word {
    XorIsWord(a, b);
    Xor(a, b)
  }

  /** One turn of the shift register: the bit that falls off the top brings the generator in. */
  function Step(crc: Word): Word {
    if crc >= TOP_BIT then WordXor(2 * crc - WORD, GENERATOR) else 2 * crc
  }

  function Steps(crc: Word, n: nat): Word {
    if n == 0 then crc else Step(Steps(crc, n - 1))
  }

  // ---- The table ----

  /** `CRC_TABLE`: entry i is what eight turns make of the byte i at the top of the register. */
  method BuildTable() returns (table: seq<Word>)
    ensures |table| == 256
    ensures forall i :: 0 <= i < 256 ==> table[i] == Steps(i * 0x100_0000, 8)
  {
    table := [];
    for i := 0 to 256
      invariant |table| == i
      invariant forall k :: 0 <= k < i ==> table[k] == Steps(k * 0x100_0000, 8)
    {
      var crc: Word := i * 0x100_0000;
      for bit := 0 to 8
        invariant crc == Steps(i * 0x100_0000, bit)
      {
        crc := if crc >= TOP_BIT then WordXor(2 * crc - WORD, GENERATOR) else 2 * crc;
      }
      table := table + [crc];
    }
  }

  /** One byte of the table-driven loop. */
  function TableStep(crc: Word, byte: Byte): Word {
    var index := Xor(crc / 0x100_0000, byte) % 256;
    WordXor((crc % 0x100_0000) * 256, Steps(index * 0x100_0000, 8))
  }

  function Crc(bytes: seq<Byte>): Word {
    if bytes == [] then 0 else TableStep(Crc(bytes[..|bytes| - 1]), bytes[|bytes| - 1])
  }

  /** `oggCrc`, over the table as built. */
  method TableCrc(table: seq<Word>, bytes: seq<Byte>) returns (crc: Word)
    requires |table| == 256 && forall i :: 0 <= i < 256 ==> table[i] == Steps(i * 0x100_0000, 8)
    ensures crc == Crc(bytes)
    ensures crc == Division(MessageBits(bytes) + Zeros(32))
  {
    crc := 0;
    for i := 0 to |bytes|
      invariant crc == Crc(bytes[..i])
    {
      assert bytes[..i + 1][..i] == bytes[..i];
      crc := WordXor((crc % 0x100_0000) * 256, table[Xor(crc / 0x100_0000, bytes[i]) % 256]);
    }
    assert bytes[..|bytes|] == bytes;
    CrcIsDivision(bytes);
  }

  // ---- The reference: long division of the message by the generator ----

  type Bit = b: nat | b < 2

  /** The bits of a byte, the highest first. */
  function ByteBits(byte: nat, n: nat): (r: seq<Bit>)
    ensures |r| == n
  {
    if n == 0 then [] else ByteBits(byte / 2, n - 1) + [byte % 2]
  }

  function MessageBits(bytes: seq<Byte>): seq<Bit> {
    if bytes == [] then [] else MessageBits(bytes[..|bytes| - 1]) + ByteBits(bytes[|bytes| - 1], 8)
  }

  function Zeros(n: nat): seq<Bit> {
    if n == 0 then [] else Zeros(n - 1) + [0]
  }

  /** Bring down the next bit; when the remainder reaches degree 32, take the generator away. */
  function BringDown(remainder: Word, bit: Bit): Word {
    var longer := 2 * remainder + bit;
    if longer >= WORD then WordXor(longer - WORD, GENERATOR) else longer
  }

  /** The remainder of the polynomial with these coefficients. */
  function Division(bits: seq<Bit>): Word {
    if bits == [] then 0 else BringDown(Division(bits[..|bits| - 1]), bits[|bits| - 1])
  }

  // ---- The register is linear ----

  lemma XorFour(a: nat, b: nat, c: nat, d: nat)
    ensures Xor(Xor(a, b), Xor(c, d)) == Xor(Xor(a, c), Xor(b, d))
  {
    hide Xor;
    XorAssoc(a, b, Xor(c, d));
    XorAssoc(b, c, d);
    XorComm(b, c);
    XorAssoc(c, b, d);
    XorAssoc(a, c, Xor(b, d));
  }

  /** A turn is a shift, then the generator or nothing. */
  function TopPart(x: Word): Word {
    if x >= TOP_BIT then GENERATOR else 0
  }

  function Shifted(x: Word): Word {
    if x >= TOP_BIT then 2 * x - WORD else 2 * x
  }

  lemma StepParts(x: Word)
    ensures Step(x) == Xor(Shifted(x), TopPart(x))
  {
    XorZero(2 * x);
  }

  /** Exclusive or of two words, the top bit apart from the rest. */
  lemma XorTop(a: nat, b: nat, s: Bit, t: Bit)
    requires a < TOP_BIT && b < TOP_BIT
    ensures Xor(a, b) < TOP_BIT
    ensures Xor(a + TOP_BIT * s, b + TOP_BIT * t) == Xor(a, b) + (if s == t then 0 else TOP_BIT)
  {
    hide Xor;
    Shifts(s);
    Shifts(t);
    Shifts(1);
    Shifts(Xor(s, t));
    XorParts(a, b, s, t, 31);
    XorZero(s);
    XorZero(t);
  }

  lemma XorSelect(g: nat, s: bool, t: bool)
    ensures Xor(if s then g else 0, if t then g else 0) == if s == t then 0 else g
  {
    XorZero(g);
    XorZero(0);
  }

  lemma TopLinear(x: Word, y: Word)
    ensures WordXor(x, y) >= TOP_BIT <==> (x >= TOP_BIT) != (y >= TOP_BIT)
    ensures Shifted(WordXor(x, y)) == Xor(Shifted(x), Shifted(y))
  {
    hide Xor;
    var s, t := if x >= TOP_BIT then 1 else 0, if y >= TOP_BIT then 1 else 0;
    var a, b := x - TOP_BIT * s, y - TOP_BIT * t;
    XorTop(a, b, s, t);
    XorDoubles(a, b, 0, 0);
  }

  lemma StepParity(x: Word, y: Word, g: Word)
    requires g == GENERATOR
    ensures TopPart(WordXor(x, y)) == Xor(TopPart(x), TopPart(y))
  {
    hide Xor;
    TopLinear(x, y);
    XorSelect(g, x >= TOP_BIT, y >= TOP_BIT);
  }

  lemma StepLinear(x: Word, y: Word)
    ensures Step(WordXor(x, y)) == WordXor(Step(x), Step(y))
  {
    hide Xor;
    StepParts(x);
    StepParts(y);
    StepParts(WordXor(x, y));
    TopLinear(x, y);
    StepParity(x, y, GENERATOR);
    XorFour(Shifted(x), Shifted(y), TopPart(x), TopPart(y));
  }

  lemma {:induction false} StepsLinear(x: Word, y: Word, n: nat)
    ensures Steps(WordXor(x, y), n) == WordXor(Steps(x, n), Steps(y, n))
  {
    hide Xor;
    if n > 0 {
      StepsLinear(x, y, n - 1);
      StepLinear(Steps(x, n - 1), Steps(y, n - 1));
    }
  }

  /** Nothing falls off while the word is small. */
  lemma {:induction false} StepsShift(x: Word, n: nat)
    requires Shl(x, n) < WORD
    ensures Steps(x, n) == Shl(x, n)
  {
    if n > 0 { StepsShift(x, n - 1); }
  }

  lemma {:induction false} StepsAdd(x: Word, m: nat, n: nat)
    ensures Steps(x, m + n) == Steps(Steps(x, m), n)
  {
    if n > 0 { StepsAdd(x, m, n - 1); }
  }

  // ---- The table is eight bits of division ----

  /** Feeding a bit in at the top, as the register does. */
  function Feed(crc: Word, bit: Bit): Word {
    Step(WordXor(crc, bit * TOP_BIT))
  }

  function FeedAll(crc: Word, bits: seq<Bit>): Word {
    if bits == [] then crc else Feed(FeedAll(crc, bits[..|bits| - 1]), bits[|bits| - 1])
  }

  /** Turning a word is turning its lower part and its top byte apart. */
  lemma TurnParts(lo: nat, top: Byte, n: nat)
    requires n <= 8 && lo < 0x100_0000
    ensures Shl(lo, n) < WORD
    ensures Steps(lo + top * 0x100_0000, n) == WordXor(Shl(lo, n), Steps(top * 0x100_0000, n))
  {
    hide Xor;
    LowAndTop(lo, top);
    StepsLinear(lo, top * 0x100_0000, n);
    ShlMonotone(lo, 0x100_0000, n);
    ShlBelow(0x100_0000, n, 8);
    ByteShift(0x100_0000);
    StepsShift(lo, n);
  }

  lemma {:induction false} ShlBelow(x: nat, m: nat, n: nat)
    requires m <= n
    ensures Shl(x, m) <= Shl(x, n)
  {
    if m < n { ShlBelow(x, m, n - 1); }
  }

  /** The table step is eight turns with the byte brought in at the top. */
  lemma TableStepIsSteps(crc: Word, byte: Byte, n: nat)
    requires n == 8
    ensures TableStep(crc, byte) == Steps(WordXor(crc, byte * 0x100_0000), n)
  {
    var hi, lo := crc / 0x100_0000, crc % 0x100_0000;
    ByteXor(hi, byte);
    XorUpper(hi, lo, byte);
    TurnParts(lo, Xor(hi, byte), n);
    ByteShift(lo);
  }

  lemma ByteXor(a: Byte, b: Byte)
    ensures Xor(a, b) < 256
  {
    hide Xor;
    ByteShift(1);
    XorParts(a, b, 0, 0, 8);
  }

  lemma XorUpper(hi: Byte, lo: nat, byte: Byte)
    requires lo < 0x100_0000
    ensures Xor(hi * 0x100_0000 + lo, byte * 0x100_0000) == lo + Xor(hi, byte) * 0x100_0000
  {
    hide Xor;
    Shifts(1); Shifts(hi); Shifts(byte); Shifts(Xor(hi, byte));
    XorParts(lo, 0, hi, byte, 24);
    XorZero(lo);
  }

  lemma LowAndTop(lo: nat, hi: nat)
    requires lo < 0x100_0000
    ensures Xor(lo, hi * 0x100_0000) == lo + hi * 0x100_0000
  {
    hide Xor;
    Shifts(1); Shifts(hi); ShlZero(24);
    XorParts(lo, 0, 0, hi, 24);
    XorZero(lo);
    XorZero(hi);
  }

  lemma TopOfWord(byte: nat, n: nat)
    requires n <= 8 && byte < Shl(1, n)
    ensures Shl(byte, 32 - n) < WORD
  {
    ShlMonotone(byte, Shl(1, n), 32 - n);
    ShlAdd(1, n, 32 - n);
    Shifts(1);
  }

  lemma BitsGrow(crc: Word, byte: nat, n: nat)
    requires n > 0
    ensures FeedAll(crc, ByteBits(byte, n)) == Feed(FeedAll(crc, ByteBits(byte / 2, n - 1)), byte % 2)
  {
    assert ByteBits(byte, n)[..n - 1] == ByteBits(byte / 2, n - 1);
  }

  /** Feeding the bits of a byte one by one is bringing the whole byte in and turning. */
  lemma {:induction false} FeedByte(crc: Word, byte: nat, n: nat)
    requires n <= 8 && byte < Shl(1, n)
    ensures Shl(byte, 32 - n) < WORD
    ensures FeedAll(crc, ByteBits(byte, n)) == Steps(WordXor(crc, Shl(byte, 32 - n)), n)
  {
    hide Xor, Step, Feed;
    TopOfWord(byte, n);
    if n == 0 {
      ShlZero(32);
      XorZero(crc);
    } else {
      var half, bit := byte / 2, byte % 2;
      FeedByte(crc, half, n - 1);
      BitsGrow(crc, byte, n);
      HighAndBit(half, bit, 32 - n);
      FeedLast(crc, Shl(half, 33 - n), bit, n - 1);
    }
  }

  lemma {:induction false} ShlSum(x: nat, y: nat, k: nat)
    ensures Shl(x + y, k) == Shl(x, k) + Shl(y, k)
  {
    if k > 0 { ShlSum(x, y, k - 1); }
  }

  /** A low bit next to higher ones: adding and exclusive or agree. */
  lemma HighAndBit(half: nat, bit: Bit, k: nat)
    ensures Shl(2 * half + bit, k) == Xor(Shl(half, k + 1), Shl(bit, k))
    ensures Shl(half, k + 1) <= Shl(2 * half + bit, k) && Shl(bit, k) <= Shl(2 * half + bit, k)
  {
    ShlAdd(half, 1, k);
    ShlSum(2 * half, bit, k);
    ShlZero(k);
    ShlMonotone(0, 1, k);
    XorParts(0, 0, 2 * half, bit, k);
    XorZero(0);
    XorDoubles(half, 0, 0, bit);
    XorZero(half);
  }

  lemma FeedLast(crc: Word, high: Word, bit: Bit, n: nat)
    requires n < 32 && Shl(bit, 31 - n) < WORD
    ensures Feed(Steps(WordXor(crc, high), n), bit) == Steps(WordXor(crc, WordXor(high, Shl(bit, 31 - n))), n + 1)
  {
    hide Xor;
    ShlAdd(bit, 31 - n, n);
    Shifts(bit);
    StepsShift(Shl(bit, 31 - n), n);
    StepsLinear(WordXor(crc, high), Shl(bit, 31 - n), n);
    XorAssoc(crc, high, Shl(bit, 31 - n));
  }

  lemma {:induction false} FeedConcat(crc: Word, a: seq<Bit>, b: seq<Bit>)
    ensures FeedAll(crc, a + b) == FeedAll(FeedAll(crc, a), b)
  {
    if b == [] {
      assert a + b == a;
    } else {
      assert (a + b)[..|a + b| - 1] == a + b[..|b| - 1];
      FeedConcat(crc, a, b[..|b| - 1]);
    }
  }

  lemma {:induction false} CrcFeedsBits(bytes: seq<Byte>)
    ensures Crc(bytes) == FeedAll(0, MessageBits(bytes))
  {
    hide Xor;
    if bytes != [] {
      var front, last := bytes[..|bytes| - 1], bytes[|bytes| - 1];
      CrcFeedsBits(front);
      FeedConcat(0, MessageBits(front), ByteBits(last, 8));
      TableStepIsSteps(Crc(front), last, 8);
      Shifts(1); Shifts(last);
      FeedByte(Crc(front), last, 8);
    }
  }

  // ---- The register against long division ----

  lemma XorEven(half: nat, bit: Bit)
    ensures Xor(2 * half, bit) == 2 * half + bit
  {
    XorDoubles(half, 0, 0, bit);
    XorZero(half);
  }

  lemma XorSwap(low: nat, top: nat, bit: nat)
    ensures Xor(Xor(low, top), bit) == Xor(Xor(low, bit), top)
  {
    hide Xor;
    XorAssoc(low, top, bit);
    XorComm(top, bit);
    XorAssoc(low, bit, top);
  }

  lemma BringDownIsStep(r: Word, bit: Bit)
    ensures BringDown(r, bit) == WordXor(Step(r), bit)
  {
    hide Xor;
    XorEven(Shifted(r) / 2, bit);
    if r >= TOP_BIT {
      XorSwap(Shifted(r), GENERATOR, bit);
    }
  }

  /** x^32 leaves the generator. */
  lemma OneTurnedRound()
    ensures Steps(1, 32) == Step(TOP_BIT) == GENERATOR
  {
    hide Xor;
    Shifts(1);
    StepsShift(1, 31);
    XorZero(GENERATOR);
  }

  lemma StepsBit(bit: Bit)
    ensures Steps(bit, 32) == Step(bit * TOP_BIT)
  {
    hide Xor;
    if bit == 0 {
      ShlZero(32);
      StepsShift(0, 32);
    } else {
      OneTurnedRound();
    }
  }

  /** The register holds the division's remainder, thirty-two zero bits ahead. */
  lemma {:induction false} RegisterIsAhead(bits: seq<Bit>)
    ensures FeedAll(0, bits) == Steps(Division(bits), 32)
  {
    hide Xor;
    if bits == [] {
      ShlZero(32);
      StepsShift(0, 32);
    } else {
      var front, bit := bits[..|bits| - 1], bits[|bits| - 1];
      var r := Division(front);
      RegisterIsAhead(front);
      BringDownIsStep(r, bit);
      StepsLinear(Step(r), bit, 32);
      StepsAdd(r, 1, 32);
      StepsAdd(r, 32, 1);
      assert Steps(r, 1) == Step(r) && Steps(Steps(r, 32), 1) == Step(Steps(r, 32));
      StepsBit(bit);
      StepLinear(Steps(r, 32), bit * TOP_BIT);
    }
  }

  lemma {:induction false} DivideZeros(bits: seq<Bit>, n: nat)
    ensures Division(bits + Zeros(n)) == Steps(Division(bits), n)
  {
    hide Xor;
    if n == 0 {
      assert bits + Zeros(0) == bits;
    } else {
      assert (bits + Zeros(n))[..|bits + Zeros(n)| - 1] == bits + Zeros(n - 1);
      DivideZeros(bits, n - 1);
    }
  }

  /** The table-driven checksum is the remainder of the message, shifted by x^32, by the generator. */
  lemma CrcIsDivision(bytes: seq<Byte>)
    ensures Crc(bytes) == Division(MessageBits(bytes) + Zeros(32))
  {
    CrcFeedsBits(bytes);
    RegisterIsAhead(MessageBits(bytes));
    DivideZeros(MessageBits(bytes), 32);
  }
}
