// The checksum as polynomial arithmetic over the field of two elements: register steps are steps of
// schoolbook long division of the message by the generator polynomial.
module Crc32Division {
  import opened Crc32

  /** Coefficients, highest power first. */
  type Polynomial = seq<bool>

  // ---------------------------------------------------------------- long division

  function Add(a: Polynomial, b: Polynomial): (sum: Polynomial)
    requires |a| == |b|
    ensures |sum| == |a|
  {
    seq(|a|, i requires 0 <= i < |a| => a[i] != b[i])
  }

  function Zeros(n: nat): Polynomial {
    seq(n, i => false)
  }

  function Complement(a: Polynomial): Polynomial {
    seq(|a|, i requires 0 <= i < |a| => !a[i])
  }

  /** The powers below 32 that occur in the generator; its leading term is the power 32. */
  predicate InGenerator(power: nat) {
    power in {26, 23, 22, 16, 12, 11, 10, 8, 7, 5, 4, 2, 1, 0}
  }

  /** The generator without its leading term. */
  function Generator(): Polynomial {
    seq(32, i requires 0 <= i < 32 => InGenerator(31 - i))
  }

  /** The remainder of dividing by the generator: the leading term is cancelled, or is zero already. */
  function Remainder(dividend: Polynomial): Polynomial
    requires |dividend| >= 32
    decreases |dividend|
  {
    if |dividend| == 32 then dividend
    else
      var rest := dividend[1..];
      Remainder(if dividend[0] then Add(rest, Generator() + Zeros(|rest| - 32)) else rest)
  }

  /** The bits of a register or byte, least significant first: the highest power of the reflected code. */
  function Bits(x: Register, n: nat): (bits: Polynomial)
    ensures |bits| == n
    decreases n
  {
    if n == 0 then [] else [!Even(x)] + Bits(Halve(x), n - 1)
  }

  function MessageBits(payload: seq<bv8>): Polynomial {
    if |payload| == 0 then [] else Bits(Widen(payload[0]), 8) + MessageBits(payload[1..])
  }

  /** The message times the 32nd power, with its first 32 coefficients complemented. */
  function Dividend(payload: seq<bv8>): Polynomial {
    var message := MessageBits(payload);
    Add(message + Zeros(32), Complement(Zeros(32)) + Zeros(|message|))
  }

  // ---------------------------------------------------------------- registers as polynomials

  lemma XorBit(a: Register, b: Register)
    ensures Halve(Xor(a, b)) == Xor(Halve(a), Halve(b))
    ensures Even(Xor(a, b)) <==> (Even(a) <==> Even(b))
  {
    ShiftIsLinear(a, b);
  }

  lemma {:induction false} BitsOfXor(a: Register, b: Register, n: nat)
    ensures Bits(Xor(a, b), n) == Add(Bits(a, n), Bits(b, n))
    decreases n
  {
    hide Xor, Halve, Even;
    if n > 0 {
      XorBit(a, b);
      BitsOfXor(Halve(a), Halve(b), n - 1);
    }
  }

  function Halved(x: Register, n: nat): Register
    decreases n
  {
    if n == 0 then x else Halved(Halve(x), n - 1)
  }

  lemma {:induction false} BitsExtend(x: Register, n: nat)
    ensures Bits(x, n + 1) == Bits(x, n) + [!Even(Halved(x, n))]
    decreases n
  {
    hide Halve, Even;
    if n > 0 {
      BitsExtend(Halve(x), n - 1);
    }
  }

  lemma {:induction false} HalvedTwice(x: Register, a: nat, b: nat)
    ensures Halved(x, a + b) == Halved(Halved(x, a), b)
    decreases a
  {
    hide Halve;
    if a > 0 {
      HalvedTwice(Halve(x), a - 1, b);
    }
  }

  lemma {:induction false} HalvedAlong(x: Register, n: nat, xs: seq<Register>)
    requires |xs| == n + 1 && xs[0] == x && forall i :: 0 <= i < n ==> Halve(xs[i]) == xs[i + 1]
    ensures Halved(x, n) == xs[n]
    decreases n
  {
    hide Halve;
    if n > 0 {
      HalvedAlong(xs[1], n - 1, xs[1..]);
    }
  }

  lemma HalvedByByte(x: Register)
    ensures Halved(x, 8) == DropByte(x)
  {
    hide Halve, Halved;
    Halvings(x);
    HalvedAlong(x, 8, [x, x >> 1, x >> 2, x >> 3, x >> 4, x >> 5, x >> 6, x >> 7, x >> 8]);
  }

  lemma FourBytes(x: Register)
    ensures DropByte(DropByte(DropByte(DropByte(x)))) == 0
  {
  }

  /** A register has 32 bits. */
  lemma NothingBeyond(x: Register)
    ensures Halved(x, 32) == 0
  {
    hide Halved, DropByte;
    HalvedTwice(x, 8, 24);
    HalvedTwice(DropByte(x), 8, 16);
    HalvedTwice(DropByte(DropByte(x)), 8, 8);
    HalvedByByte(x);
    HalvedByByte(DropByte(x));
    HalvedByByte(DropByte(DropByte(x)));
    HalvedByByte(DropByte(DropByte(DropByte(x))));
    FourBytes(x);
  }

  lemma ZeroIsEven()
    ensures Even(0)
  {
  }

  /** Halving a register multiplies its polynomial by the first power and drops the leading term. */
  lemma BitsOfHalve(x: Register)
    ensures Bits(Halve(x), 32) == Bits(x, 32)[1..] + [false]
  {
    hide Halve, Even, Bits, Halved;
    BitsExtend(Halve(x), 31);
    NothingBeyond(x);
    HalvedTwice(x, 1, 31);
    HalvedOnce(x);
    BitsStart(x, 32);
    ZeroIsEven();
  }

  lemma HalvedOnce(x: Register)
    ensures Halved(x, 1) == Halve(x)
  {
    hide Halve;
    assert Halved(Halve(x), 0) == Halve(x);
  }

  lemma BitsStart(x: Register, n: nat)
    requires n > 0
    ensures Bits(x, n) == [!Even(x)] + Bits(Halve(x), n - 1)
  {
  }

  /** The bits of a register are the parities of its shifts. */
  lemma {:induction false} BitsAlong(x: Register, n: nat, xs: seq<Register>)
    requires |xs| == n + 1 && xs[0] == x && forall i :: 0 <= i < n ==> Halve(xs[i]) == xs[i + 1]
    ensures forall i :: 0 <= i < n ==> (Bits(x, n)[i] <==> !Even(xs[i]))
    decreases n
  {
    hide Halve, Even;
    if n > 0 {
      BitsAlong(xs[1], n - 1, xs[1..]);
    }
  }

  function Shifts(): seq<Register> {
    [
    0xedb88320, 0x76dc4190, 0x3b6e20c8, 0x1db71064, 0xedb8832, 0x76dc419,
    0x3b6e20c, 0x1db7106, 0xedb883, 0x76dc41, 0x3b6e20, 0x1db710,
    0xedb88, 0x76dc4, 0x3b6e2, 0x1db71, 0xedb8, 0x76dc,
    0x3b6e, 0x1db7, 0xedb, 0x76d, 0x3b6, 0x1db,
    0xed, 0x76, 0x3b, 0x1d, 0xe, 0x7,
    0x3, 0x1, 0x0]
  }

  lemma ConstantHalvings()
    ensures Halve(0xedb88320) == 0x76dc4190 && Halve(0x76dc4190) == 0x3b6e20c8 && Halve(0x3b6e20c8) == 0x1db71064
        && Halve(0x1db71064) == 0xedb8832
    ensures Halve(0xedb8832) == 0x76dc419 && Halve(0x76dc419) == 0x3b6e20c && Halve(0x3b6e20c) == 0x1db7106
        && Halve(0x1db7106) == 0xedb883
    ensures Halve(0xedb883) == 0x76dc41 && Halve(0x76dc41) == 0x3b6e20 && Halve(0x3b6e20) == 0x1db710
        && Halve(0x1db710) == 0xedb88
    ensures Halve(0xedb88) == 0x76dc4 && Halve(0x76dc4) == 0x3b6e2 && Halve(0x3b6e2) == 0x1db71
        && Halve(0x1db71) == 0xedb8
    ensures Halve(0xedb8) == 0x76dc && Halve(0x76dc) == 0x3b6e && Halve(0x3b6e) == 0x1db7 && Halve(0x1db7) == 0xedb
    ensures Halve(0xedb) == 0x76d && Halve(0x76d) == 0x3b6 && Halve(0x3b6) == 0x1db && Halve(0x1db) == 0xed
    ensures Halve(0xed) == 0x76 && Halve(0x76) == 0x3b && Halve(0x3b) == 0x1d && Halve(0x1d) == 0xe
    ensures Halve(0xe) == 0x7 && Halve(0x7) == 0x3 && Halve(0x3) == 0x1 && Halve(0x1) == 0x0
  {
  }

  lemma ConstantParities()
    ensures Even(0xedb88320) && Even(0x76dc4190) && Even(0x3b6e20c8) && Even(0x1db71064) && Even(0xedb8832)
        && !Even(0x76dc419) && Even(0x3b6e20c) && Even(0x1db7106)
    ensures !Even(0xedb883) && !Even(0x76dc41) && Even(0x3b6e20) && Even(0x1db710) && Even(0xedb88) && Even(0x76dc4)
        && Even(0x3b6e2) && !Even(0x1db71)
    ensures Even(0xedb8) && Even(0x76dc) && Even(0x3b6e) && !Even(0x1db7) && !Even(0xedb) && !Even(0x76d)
        && Even(0x3b6) && !Even(0x1db)
    ensures !Even(0xed) && Even(0x76) && !Even(0x3b) && !Even(0x1d) && Even(0xe) && !Even(0x7) && !Even(0x3)
        && !Even(0x1)
  {
  }

  lemma ShiftsAreHalvings()
    ensures |Shifts()| == 33 && Shifts()[0] == POLYNOMIAL
    ensures forall i :: 0 <= i < 32 ==> Halve(Shifts()[i]) == Shifts()[i + 1]
  {
    hide Halve;
    ConstantHalvings();
  }

  lemma ShiftsShowGenerator()
    ensures |Shifts()| == 33
    ensures forall i :: 0 <= i < 32 ==> (!Even(Shifts()[i]) <==> InGenerator(31 - i))
  {
    hide Even;
    ConstantParities();
  }

  /** The constant of the program is the generator. */
  lemma ConstantIsGenerator()
    ensures Bits(POLYNOMIAL, 32) == Generator()
  {
    hide Halve, Even, Shifts, InGenerator;
    ShiftsAreHalvings();
    ShiftsShowGenerator();
    BitsAlong(POLYNOMIAL, 32, Shifts());
  }

  /** One step of the program is one step of long division. */
  lemma StepDivides(x: Register)
    ensures
      var shifted := Bits(x, 32)[1..] + [false];
      Bits(Step(x), 32) == if Bits(x, 32)[0] then Add(shifted, Generator()) else shifted
  {
    hide Halve, Bits, Generator, Xor, Step;
    StepCases(x);
    BitsOfHalve(x);
    BitsStart(x, 32);
    BitsOfXor(Halve(x), POLYNOMIAL, 32);
    ConstantIsGenerator();
  }

  lemma StepCases(x: Register)
    ensures Step(x) == if Even(x) then Halve(x) else Xor(Halve(x), POLYNOMIAL)
  {
    ShiftIsLinear(x, POLYNOMIAL);
  }

  // ---------------------------------------------------------------- bit by bit

  function Feed(bit: bool): Register {
    if bit then 1 else 0
  }

  /** The register after the message bits were fed one by one. */
  function Serial(crc: Register, message: Polynomial): Register
    decreases |message|
  {
    if |message| == 0 then crc else Serial(Step(Xor(crc, Feed(message[0]))), message[1..])
  }

  lemma {:induction false} SerialInSequence(crc: Register, a: Polynomial, b: Polynomial)
    ensures Serial(crc, a + b) == Serial(Serial(crc, a), b)
    decreases |a|
  {
    hide Step, Xor;
    if |a| == 0 {
      assert a + b == b;
    } else {
      assert (a + b)[1..] == a[1..] + b;
      SerialInSequence(Step(Xor(crc, Feed(a[0]))), a[1..], b);
    }
  }

  function ClearLowBit(v: Register): Register {
    v & 0xffff_fffe
  }

  lemma LowBitSplits(v: Register)
    ensures v == (v & 1) ^ (v & 0xffff_fffe) && (v & 0xffff_fffe) & 1 == 0 && (v & 0xffff_fffe) >> 1 == v >> 1
    ensures v & 1 == 0 || v & 1 == 1
  {
  }

  lemma SplitLowBit(v: Register)
    ensures v == Xor(Feed(!Even(v)), ClearLowBit(v))
    ensures Even(ClearLowBit(v)) && Halve(ClearLowBit(v)) == Halve(v)
  {
    LowBitSplits(v);
  }

  lemma XorAssociates(a: Register, b: Register, c: Register)
    ensures Xor(a, Xor(b, c)) == Xor(Xor(a, b), c)
  {
    XorRearranges(a, b, c);
  }

  /** A value xored in at once is fed bit by bit: its low bit acts now, the rest shifts along. */
  lemma FeedLowBit(crc: Register, v: Register)
    ensures Step(Xor(crc, v)) == Xor(Step(Xor(crc, Feed(!Even(v)))), Halve(v))
  {
    hide Step, Xor, Halve, Even, ClearLowBit, Feed;
    SplitLowBit(v);
    XorAssociates(crc, Feed(!Even(v)), ClearLowBit(v));
    StepOfXor(Xor(crc, Feed(!Even(v))), ClearLowBit(v));
    EvenStep(ClearLowBit(v));
  }

  lemma {:induction false} StepsFeedBits(crc: Register, v: Register, n: nat)
    ensures Steps(Xor(crc, v), n) == Xor(Serial(crc, Bits(v, n)), Halved(v, n))
    decreases n
  {
    hide Step, Xor, Halve, Even;
    if n > 0 {
      FeedLowBit(crc, v);
      StepsFeedBits(Step(Xor(crc, Feed(!Even(v)))), Halve(v), n - 1);
      assert Bits(v, n)[1..] == Bits(Halve(v), n - 1);
    }
  }

  lemma ByteIsSpent(byte: bv8, crc: Register)
    ensures Xor(crc, DropByte(Widen(byte))) == crc
  {
  }

  /** Eight steps after a byte is xored in feed the byte's bits, least significant first. */
  lemma ByteFeedsBits(crc: Register, byte: bv8)
    ensures Steps(Xor(crc, Widen(byte)), 8) == Serial(crc, Bits(Widen(byte), 8))
  {
    hide Xor, Widen, Steps, Serial, Bits, Halved, DropByte;
    StepsFeedBits(crc, Widen(byte), 8);
    HalvedByByte(Widen(byte));
    ByteIsSpent(byte, Serial(crc, Bits(Widen(byte), 8)));
  }

  lemma {:induction false} DivideFeedsMessage(crc: Register, payload: seq<bv8>)
    ensures Divide(crc, payload) == Serial(crc, MessageBits(payload))
    decreases |payload|
  {
    hide Xor, Widen, Steps, Bits;
    if |payload| > 0 {
      ByteFeedsBits(crc, payload[0]);
      DivideFeedsMessage(Steps(Xor(crc, Widen(payload[0])), 8), payload[1..]);
      SerialInSequence(crc, Bits(Widen(payload[0]), 8), MessageBits(payload[1..]));
    }
  }

  // ---------------------------------------------------------------- the register is the remainder

  /** The dividend that is left when the register holds `crc` and `message` is still to be fed. */
  function Left(crc: Register, message: Polynomial): (left: Polynomial)
    ensures |left| == 32 + |message|
  {
    Add(Bits(crc, 32) + Zeros(|message|), message + Zeros(32))
  }

  lemma FedBits(crc: Register, bit: bool)
    ensures Bits(Xor(crc, Feed(bit)), 32)[0] == (Bits(crc, 32)[0] != bit)
    ensures Bits(Xor(crc, Feed(bit)), 32)[1..] == Bits(crc, 32)[1..]
  {
    hide Bits, Halve, Even, Xor;
    BitsStart(crc, 32);
    BitsStart(Xor(crc, Feed(bit)), 32);
    FeedOnlyLowBit(crc, bit);
  }

  lemma FeedOnlyLowBit(crc: Register, bit: bool)
    ensures Halve(Xor(crc, Feed(bit))) == Halve(crc)
    ensures !Even(Xor(crc, Feed(bit))) == (!Even(crc) != bit)
  {
    ShiftIsLinear(crc, Feed(bit));
  }

  /** Feeding a bit is one step of long division of what is left. */
  lemma FeedDivides(crc: Register, message: Polynomial)
    requires |message| > 0
    ensures
      var left := Left(crc, message);
      var rest := left[1..];
      Left(Step(Xor(crc, Feed(message[0]))), message[1..])
      == if left[0] then Add(rest, Generator() + Zeros(|rest| - 32)) else rest
  {
    hide Bits, Step, Xor, Feed, Generator;
    FedBits(crc, message[0]);
    StepDivides(Xor(crc, Feed(message[0])));
    GeneratorSize();
    ShiftLeft(Bits(crc, 32), Bits(Step(Xor(crc, Feed(message[0]))), 32), message, Generator());
  }

  lemma GeneratorSize()
    ensures |Generator()| == 32
  {
  }

  /** The same on polynomials alone. */
  lemma ShiftLeft(before: Polynomial, after: Polynomial, message: Polynomial, generator: Polynomial)
    requires |before| == |after| == |generator| == 32 && |message| > 0
    requires
      var shifted := before[1..] + [false];
      after == if before[0] != message[0] then Add(shifted, generator) else shifted
    ensures
      var left := Add(before + Zeros(|message|), message + Zeros(32));
      var rest := left[1..];
      Add(after + Zeros(|message| - 1), message[1..] + Zeros(32))
      == if left[0] then Add(rest, generator + Zeros(|rest| - 32)) else rest
  {
    var left := Add(before + Zeros(|message|), message + Zeros(32));
    var rest := left[1..];
    var now := Add(after + Zeros(|message| - 1), message[1..] + Zeros(32));
    assert left[0] == (before[0] != message[0]);
    forall i | 0 <= i < |rest|
      ensures now[i] == (if left[0] then Add(rest, generator + Zeros(|rest| - 32)) else rest)[i] {
      assert rest[i] == left[i + 1];
      assert (message[1..] + Zeros(32))[i] == (message + Zeros(32))[i + 1];
      if i < 31 {
        assert (before[1..] + [false])[i] == before[i + 1];
      }
    }
  }

  lemma {:induction false} SerialIsRemainder(crc: Register, message: Polynomial)
    ensures Bits(Serial(crc, message), 32) == Remainder(Left(crc, message))
    decreases |message|
  {
    hide Bits, Step, Xor, Feed, Generator, Left;
    if |message| == 0 {
      NothingLeft(crc, message);
    } else {
      FeedDivides(crc, message);
      SerialIsRemainder(Step(Xor(crc, Feed(message[0]))), message[1..]);
    }
  }

  lemma NothingLeft(crc: Register, message: Polynomial)
    requires |message| == 0
    ensures Left(crc, message) == Bits(crc, 32)
  {
    hide Bits;
    forall i | 0 <= i < 32 ensures Left(crc, message)[i] == Bits(crc, 32)[i] {
      assert (Bits(crc, 32) + Zeros(|message|))[i] == Bits(crc, 32)[i];
      assert (message + Zeros(32))[i] == Zeros(32)[i];
    }
  }

  lemma OnesAreComplement(x: Register)
    ensures Bits(ONES, 32) == Complement(Zeros(32))
    ensures Bits(Xor(x, ONES), 32) == Complement(Bits(x, 32))
  {
    hide Bits, Xor;
    AllOnes();
    BitsOfXor(x, ONES, 32);
    assert forall i :: 0 <= i < 32 ==> Complement(Zeros(32))[i] && Complement(Bits(x, 32))[i] == !Bits(x, 32)[i];
  }

  lemma OnesHalvings()
    ensures Halve(0xffffffff) == 0x7fffffff && Halve(0x7fffffff) == 0x3fffffff && Halve(0x3fffffff) == 0x1fffffff
        && Halve(0x1fffffff) == 0xfffffff
    ensures Halve(0xfffffff) == 0x7ffffff && Halve(0x7ffffff) == 0x3ffffff && Halve(0x3ffffff) == 0x1ffffff
        && Halve(0x1ffffff) == 0xffffff
    ensures Halve(0xffffff) == 0x7fffff && Halve(0x7fffff) == 0x3fffff && Halve(0x3fffff) == 0x1fffff
        && Halve(0x1fffff) == 0xfffff
    ensures Halve(0xfffff) == 0x7ffff && Halve(0x7ffff) == 0x3ffff && Halve(0x3ffff) == 0x1ffff
        && Halve(0x1ffff) == 0xffff
    ensures Halve(0xffff) == 0x7fff && Halve(0x7fff) == 0x3fff && Halve(0x3fff) == 0x1fff && Halve(0x1fff) == 0xfff
    ensures Halve(0xfff) == 0x7ff && Halve(0x7ff) == 0x3ff && Halve(0x3ff) == 0x1ff && Halve(0x1ff) == 0xff
    ensures Halve(0xff) == 0x7f && Halve(0x7f) == 0x3f && Halve(0x3f) == 0x1f && Halve(0x1f) == 0xf
    ensures Halve(0xf) == 0x7 && Halve(0x7) == 0x3 && Halve(0x3) == 0x1 && Halve(0x1) == 0x0
    ensures !Even(0xffffffff) && !Even(0x7fffffff) && !Even(0x3fffffff) && !Even(0x1fffffff) && !Even(0xfffffff)
        && !Even(0x7ffffff) && !Even(0x3ffffff) && !Even(0x1ffffff)
    ensures !Even(0xffffff) && !Even(0x7fffff) && !Even(0x3fffff) && !Even(0x1fffff) && !Even(0xfffff)
        && !Even(0x7ffff) && !Even(0x3ffff) && !Even(0x1ffff)
    ensures !Even(0xffff) && !Even(0x7fff) && !Even(0x3fff) && !Even(0x1fff) && !Even(0xfff) && !Even(0x7ff)
        && !Even(0x3ff) && !Even(0x1ff)
    ensures !Even(0xff) && !Even(0x7f) && !Even(0x3f) && !Even(0x1f) && !Even(0xf) && !Even(0x7) && !Even(0x3)
        && !Even(0x1)
  {
  }

  function OnesShifts(): seq<Register> {
    [
     0xffffffff, 0x7fffffff, 0x3fffffff, 0x1fffffff, 0xfffffff, 0x7ffffff,
     0x3ffffff, 0x1ffffff, 0xffffff, 0x7fffff, 0x3fffff, 0x1fffff,
     0xfffff, 0x7ffff, 0x3ffff, 0x1ffff, 0xffff, 0x7fff,
     0x3fff, 0x1fff, 0xfff, 0x7ff, 0x3ff, 0x1ff,
     0xff, 0x7f, 0x3f, 0x1f, 0xf, 0x7,
     0x3, 0x1, 0x0]
  }

  lemma OnesShiftsAreHalvings()
    ensures |OnesShifts()| == 33 && OnesShifts()[0] == ONES
    ensures forall i :: 0 <= i < 32 ==> Halve(OnesShifts()[i]) == OnesShifts()[i + 1]
  {
    hide Halve;
    OnesHalvings();
  }

  lemma OnesShiftsAreOdd()
    ensures |OnesShifts()| == 33
    ensures forall i :: 0 <= i < 32 ==> !Even(OnesShifts()[i])
  {
    hide Even;
    OnesHalvings();
  }

  lemma AllOnes()
    ensures forall i :: 0 <= i < 32 ==> Bits(ONES, 32)[i]
  {
    hide Halve, Even, Bits, OnesShifts;
    OnesShiftsAreHalvings();
    OnesShiftsAreOdd();
    BitsAlong(ONES, 32, OnesShifts());
  }

  /** crc32 is long division: the bits of the checksum are the complement of the remainder of the
      message, times the 32nd power and with its first 32 coefficients complemented. */
  lemma ChecksumIsLongDivision(payload: seq<bv8>)
    ensures Bits(Checksum(payload), 32) == Complement(Remainder(Dividend(payload)))
  {
    hide Bits, Xor, Divide, Serial, Remainder, MessageBits;
    var message := MessageBits(payload);
    DivideFeedsMessage(ONES, payload);
    SerialIsRemainder(ONES, message);
    OnesAreComplement(Divide(ONES, payload));
    assert Left(ONES, message) == Dividend(payload);
  }
}
