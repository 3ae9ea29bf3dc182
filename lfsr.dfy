/** The game's pseudo-random number generator: two Galois linear-feedback shift registers
    over 32-bit words, `lfsr32` and `lfsr31`, stepped by `shift_lfsr` and combined by
    `get_rand` (Main.c:164-183). */
module Lfsr {

  /** Feedback mask of the 32-bit register (POLY_MASK_32); its top bit, bit 31, is set. */
  const PolyMask32: bv32 := 0xB4BC_D35C
  /** Feedback mask of the 31-bit register (POLY_MASK_31); its top bit is bit 30. */
  const PolyMask31: bv32 := 0x7A5B_C2E3

  /** One Galois step: shift right by one and, when the bit shifted out was 1,
      exclusive-or the feedback mask in. */
  function Step(r: bv32, mask: bv32): (s: bv32)
    ensures r & 1 == 0 ==> s == r >> 1
  {
    if r & 1 == 1 then (r >> 1) ^ mask else r >> 1
  }

  /** The step of the 32-bit register undone: bit 31 of a stepped value records the bit
      that was shifted out, because the mask's top bit is bit 31. */
  function Unstep32(s: bv32): (r: bv32)
    ensures Step(r, PolyMask32) == s
  {
    if s & 0x8000_0000 != 0 then ((s ^ PolyMask32) << 1) | 1 else s << 1
  }

  /** The step of the 31-bit register undone, for values that fit in 31 bits: there bit 30
      of a stepped value records the bit that was shifted out. */
  function Unstep31(s: bv32): (r: bv32)
    requires s < 0x8000_0000
    ensures r < 0x8000_0000 && Step(r, PolyMask31) == s
  {
    if s & 0x4000_0000 != 0 then ((s ^ PolyMask31) << 1) | 1 else s << 1
  }

  /** Unstep32 is also a left inverse: a step of the 32-bit register loses no state. */
  lemma Step32Undone(r: bv32)
    ensures Unstep32(Step(r, PolyMask32)) == r
  {
  }

  /** Unstep31 is a left inverse on 31-bit values. */
  lemma Step31Undone(r: bv32)
    requires r < 0x8000_0000
    ensures Step(r, PolyMask31) < 0x8000_0000
    ensures Unstep31(Step(r, PolyMask31)) == r
  {
  }

  /** The 32-bit register never falls into the all-zero state, from which it could not
      leave, and zero stays zero. */
  lemma Step32KeepsNonzero(r: bv32)
    ensures Step(r, PolyMask32) == 0 <==> r == 0
  {
    Step32Undone(r);
  }

  /** The 31-bit register stays within 31 bits and, from a nonzero value, nonzero. */
  lemma Step31KeepsWidthAndNonzero(r: bv32)
    requires r < 0x8000_0000
    ensures Step(r, PolyMask31) < 0x8000_0000
    ensures Step(r, PolyMask31) == 0 <==> r == 0
  {
    Step31Undone(r);
  }

  /** Outside 31 bits the step of the 31-bit register is not one-to-one: two seeds, one
      with bit 31 set, lead to the same value after one step. */
  lemma Step31CollidesAbove31Bits()
    ensures Step(0x8000_0000, PolyMask31) == Step(0x74B7_85C7, PolyMask31)
  {
  }

  /** The values of the two registers. */
  datatype Lfsrs = Lfsrs(r32: bv32, r31: bv32)

  /** The registers after one draw: `lfsr32` is stepped twice and `lfsr31` once. */
  function Advance(s: Lfsrs): (t: Lfsrs)
    ensures s.r31 < 0x8000_0000 ==> t.r31 < 0x8000_0000
  {
    Lfsrs(Step(Step(s.r32, PolyMask32), PolyMask32), Step(s.r31, PolyMask31))
  }

  /** The value a draw returns: the advanced registers exclusive-ored, low 16 bits kept. */
  function Draw(s: Lfsrs): (r: bv32)
    ensures r <= 0xFFFF
  {
    var t := Advance(s);
    (t.r32 ^ t.r31) & 0xFFFF
  }

  /** A draw reduced modulo n, as the callers' unsigned `get_rand() % n` does. */
  function Roll(s: Lfsrs, n: int): (r: int)
    requires n > 0
    ensures 0 <= r < n
  {
    Draw(s) as int % n
  }

  /** Each register step is a bijection, so distinct register states stay distinct after
      a draw: the generator loses no state. */
  lemma {:induction false} AdvanceInjective(s: Lfsrs, s': Lfsrs)
    requires s.r31 < 0x8000_0000 && s'.r31 < 0x8000_0000
    requires Advance(s) == Advance(s')
    ensures s == s'
  {
    Step32Undone(s.r32);
    Step32Undone(Step(s.r32, PolyMask32));
    Step32Undone(s'.r32);
    Step32Undone(Step(s'.r32, PolyMask32));
    Step31Undone(s.r31);
    Step31Undone(s'.r31);
  }

  /** A 32-bit register, the object `shift_lfsr` reaches through its pointer argument. */
  class Register {
    var value: bv32

    constructor (seed: bv32)
      ensures value == seed
    {
      value := seed;
    }

    /** `shift_lfsr`: steps the register in place and returns its new value. */
    method Shift(mask: bv32) returns (out: bv32)
      modifies this
      ensures value == Step(old(value), mask)
      ensures out == value
    {
      var feedback := value & 1;
      value := value >> 1;
      if feedback == 1 {
        value := value ^ mask;
      }
      out := value;
    }
  }

  /** The generator: the two static registers of Main.c. */
  class Rng {
    const lfsr32: Register
    const lfsr31: Register

    ghost predicate Valid()
      reads this
    {
      lfsr32 != lfsr31
    }

    function State(): Lfsrs
      reads this, lfsr32, lfsr31
    {
      Lfsrs(lfsr32.value, lfsr31.value)
    }

    /** `init_lfsrs`: seeds both registers. */
    constructor (x: bv32, y: bv32)
      ensures Valid() && fresh(lfsr32) && fresh(lfsr31)
      ensures State() == Lfsrs(x, y)
    {
      lfsr32 := new Register(x);
      lfsr31 := new Register(y);
    }

    /** `get_rand`: advances `lfsr32` twice and `lfsr31` once and returns the exclusive-or
        of their new values, masked to 16 bits. */
    method GetRand() returns (r: bv32)
      requires Valid()
      modifies lfsr32, lfsr31
      ensures State() == Advance(old(State()))
      ensures r == Draw(old(State())) && r <= 0xFFFF
    {
      var _ := lfsr32.Shift(PolyMask32);
      var a := lfsr32.Shift(PolyMask32);
      var b := lfsr31.Shift(PolyMask31);
      r := (a ^ b) & 0xFFFF;
    }
  }
}
