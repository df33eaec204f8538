// The table-driven CRC-32 of subtitle archives, and the polynomial long division it stands for
// (section 8 of RFC 1952).
module Crc32 {

  type Register = bv32

  const POLYNOMIAL: Register := 0xedb8_8320
  const ONES: Register := 0xffff_ffff

  // ---------------------------------------------------------------- register arithmetic

  function Xor(a: Register, b: Register): Register {
    a ^ b
  }

  function Widen(byte: bv8): Register {
    byte as bv32
  }

  function LowByte(crc: Register): bv8 {
    (crc & 0xff) as bv8
  }

  function DropByte(crc: Register): Register {
    crc >> 8
  }

  /** One bit of bit-by-bit division. */
  function Step(crc: Register): Register {
    if crc & 1 == 1 then POLYNOMIAL ^ (crc >> 1) else crc >> 1
  }

  function Steps(crc: Register, n: nat): Register
    decreases n
  {
    if n == 0 then crc else Steps(Step(crc), n - 1)
  }

  function Entry(value: bv8): Register {
    Steps(Widen(value), 8)
  }

  /** The division of a payload, byte by byte, each byte in eight steps. */
  function Divide(crc: Register, payload: seq<bv8>): Register
    decreases |payload|
  {
    if |payload| == 0 then crc else Divide(Steps(Xor(crc, Widen(payload[0])), 8), payload[1..])
  }

  function Checksum(payload: seq<bv8>): Register {
    Xor(Divide(ONES, payload), ONES)
  }

  predicate IsTable(table: seq<Register>) {
    |table| == 256 && forall v: nat :: v < 256 ==> table[v] == Entry(v as bv8)
  }

  // ---------------------------------------------------------------- the program

  /** CRC_TABLE. */
  method BuildTable() returns (table: array<Register>)
    ensures fresh(table) && IsTable(table[..])
  {
    table := new Register[256];
    var value: nat := 0;
    while value < 256
      invariant value <= 256
      invariant forall v: nat :: v < value ==> table[v] == Entry(v as bv8)
    {
      var crc := Widen(value as bv8);
      var bit: nat := 0;
      while bit < 8
        invariant bit <= 8 && Steps(crc, 8 - bit) == Entry(value as bv8)
      {
        crc := if crc & 1 == 1 then POLYNOMIAL ^ (crc >> 1) else crc >> 1;
        bit := bit + 1;
      }
      table[value] := crc;
      value := value + 1;
    }
  }

  /** crc32. */
  method Compute(table: array<Register>, payload: seq<bv8>) returns (checksum: Register)
    requires IsTable(table[..])
    ensures checksum == Checksum(payload)
  {
    hide Steps, Xor, Widen, LowByte, DropByte, Entry;
    var crc := ONES;
    var i := 0;
    while i < |payload|
      invariant i <= |payload| && Divide(crc, payload[i..]) == Divide(ONES, payload)
    {
      var low := LowByte(Xor(crc, Widen(payload[i])));
      LookupIsEightSteps(crc, payload[i]);
      ByteIndex(table[..], low);
      crc := Xor(table[low as int], DropByte(crc));
      i := i + 1;
    }
    return Xor(crc, ONES);
  }

  lemma ByteIndex(table: seq<Register>, low: bv8)
    requires IsTable(table)
    ensures (low as int) < |table| && table[low as int] == Entry(low)
  {
    assert (low as int) as bv8 == low;
  }

  // ---------------------------------------------------------------- a byte at a time is eight steps

  lemma ShiftIsLinear(a: Register, b: Register)
    ensures (a ^ b) >> 1 == (a >> 1) ^ (b >> 1)
    ensures (a ^ b) & 1 == (a & 1) ^ (b & 1)
    ensures (a & 1 == 0 || a & 1 == 1) && (b & 1 == 0 || b & 1 == 1)
  {
  }

  lemma XorRearranges(p: Register, a: Register, b: Register)
    ensures (p ^ a) ^ b == p ^ (a ^ b) && (p ^ a) ^ (p ^ b) == a ^ b && a ^ (p ^ b) == p ^ (a ^ b)
  {
  }

  lemma StepIsLinear(a: Register, b: Register)
    ensures Step(a ^ b) == Step(a) ^ Step(b)
  {
    ShiftIsLinear(a, b);
    XorRearranges(POLYNOMIAL, a >> 1, b >> 1);
    if a & 1 == 1 && b & 1 == 1 {
      assert (a ^ b) & 1 == 0;
    } else if a & 1 == 1 || b & 1 == 1 {
      assert (a ^ b) & 1 == 1;
    }
  }

  lemma StepOfXor(a: Register, b: Register)
    ensures Step(Xor(a, b)) == Xor(Step(a), Step(b))
  {
    hide Step;
    StepIsLinear(a, b);
  }

  /** Division distributes over addition of polynomials. */
  lemma {:induction false} StepsAreLinear(a: Register, b: Register, n: nat)
    ensures Steps(Xor(a, b), n) == Xor(Steps(a, n), Steps(b, n))
    decreases n
  {
    hide Step, Xor;
    if n > 0 {
      StepOfXor(a, b);
      StepsAreLinear(Step(a), Step(b), n - 1);
    }
  }

  function Halve(x: Register): Register {
    x >> 1
  }

  predicate Even(x: Register) {
    x & 1 == 0
  }

  lemma EvenStep(x: Register)
    requires Even(x)
    ensures Step(x) == Halve(x)
  {
  }

  lemma LowZeros(x: Register)
    requires x & 0xff == 0
    ensures Even(x) && Even(x >> 1) && Even(x >> 2) && Even(x >> 3)
    ensures Even(x >> 4) && Even(x >> 5) && Even(x >> 6) && Even(x >> 7)
  {
  }

  lemma Halvings(x: Register)
    ensures Halve(x) == x >> 1 && Halve(x >> 1) == x >> 2 && Halve(x >> 2) == x >> 3 && Halve(x >> 3) == x >> 4
    ensures Halve(x >> 4) == x >> 5 && Halve(x >> 5) == x >> 6 && Halve(x >> 6) == x >> 7 && Halve(x >> 7) == x >> 8
  {
  }

  lemma {:induction false} EvenSteps(x: Register, n: nat, xs: seq<Register>)
    requires |xs| == n + 1 && xs[0] == x
    requires forall i :: 0 <= i < n ==> Even(xs[i]) && Halve(xs[i]) == xs[i + 1]
    ensures Steps(x, n) == xs[n]
    decreases n
  {
    hide Step, Even, Halve;
    if n > 0 {
      EvenStep(x);
      EvenSteps(xs[1], n - 1, xs[1..]);
    }
  }

  /** Eight steps shift a register with eight low zeros. */
  lemma HighBytesShift(x: Register)
    requires x & 0xff == 0
    ensures Steps(x, 8) == x >> 8
  {
    hide Steps, Even, Halve;
    LowZeros(x);
    Halvings(x);
    var xs := [x, x >> 1, x >> 2, x >> 3, x >> 4, x >> 5, x >> 6, x >> 7, x >> 8];
    EvenSteps(x, 8, xs);
  }

  function HighPart(x: Register): Register {
    x & 0xffff_ff00
  }

  /** One table lookup does what eight steps do: the key to the fast form. */
  lemma LookupIsEightSteps(crc: Register, byte: bv8)
    ensures
      var x := Xor(crc, Widen(byte));
      Xor(Entry(LowByte(x)), DropByte(crc)) == Steps(x, 8)
  {
    hide Steps, Xor, Widen, LowByte, DropByte, HighPart;
    var x := Xor(crc, Widen(byte));
    SplitRegister(crc, byte);
    StepsAreLinear(Widen(LowByte(x)), HighPart(x), 8);
    HighPartShifts(x);
  }

  lemma SplitBits(x: Register)
    ensures x == (x & 0xff) ^ (x & 0xffff_ff00) && ((x & 0xff) as bv8) as bv32 == x & 0xff
  {
  }

  lemma ByteLeavesHighBits(crc: Register, byte: bv8)
    ensures (crc ^ (byte as bv32)) >> 8 == crc >> 8
  {
  }

  lemma SplitRegister(crc: Register, byte: bv8)
    ensures
      var x := Xor(crc, Widen(byte));
      x == Xor(Widen(LowByte(x)), HighPart(x)) && DropByte(x) == DropByte(crc)
  {
    SplitWhole(Xor(crc, Widen(byte)));
    ByteLeavesHighBits(crc, byte);
  }

  lemma SplitWhole(x: Register)
    ensures x == Xor(Widen(LowByte(x)), HighPart(x))
  {
    SplitBits(x);
  }

  lemma HighPartShifts(x: Register)
    ensures Steps(HighPart(x), 8) == DropByte(x)
  {
    hide Steps;
    HighBytesShift(x & 0xffff_ff00);
  }
}
