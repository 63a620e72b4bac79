/*
 * The SM83 register file as a value: eight 8-bit registers, SP and PC, the
 * register pairs as a derived view, and the flag bits of F.
 */
module Registers {
  import opened Bytes

  /** The 8-bit registers. */
  datatype R8 = A | F | B | C | D | E | H | L

  /** The 16-bit names: four pairs plus PC and SP. */
  datatype R16 = AF | BC | DE | HL | PC | SP

  /** A register name accepted by the register file. */
  datatype Reg = Reg8(r8: R8) | Reg16(r16: R16)

  /** The four flags of F. */
  datatype Flag = Z | N | H | C

  /** Jump conditions. */
  datatype Cond = C | NC | Z | NZ

  /** Bit position of a flag in F: Z=7, N=6, H=5, C=4. */
  function Pos(flag: Flag): (k: BitIndex)
    ensures 4 <= k
  {
    match flag
    case Z => 7
    case N => 6
    case H => 5
    case C => 4
  }

  /** The flags as four booleans. */
  datatype Flags = Flags(z: bool, n: bool, h: bool, c: bool) {
    function Get(flag: Flag): bool {
      match flag
      case Z => z
      case N => n
      case H => h
      case C => c
    }

    function With(flag: Flag, v: bool): Flags {
      match flag
      case Z => this.(z := v)
      case N => this.(n := v)
      case H => this.(h := v)
      case C => this.(c := v)
    }
  }

  function Weight(b: bool): nat {
    if b then 1 else 0
  }

  /** The F byte holding the given flags, with the low nibble clear. */
  function Pack(fl: Flags): (r: Byte)
    ensures r % 16 == 0
  {
    16 * (2 * (2 * (2 * Weight(fl.z) + Weight(fl.n)) + Weight(fl.h)) + Weight(fl.c))
  }

  /** Packing then unpacking gives the flags back. */
  lemma PackUnpack(fl: Flags)
    ensures Unpack(Pack(fl)) == fl
  {
    PackBits(2 * (2 * (2 * Weight(fl.z) + Weight(fl.n)) + Weight(fl.h)) + Weight(fl.c), fl);
  }

  lemma PackBits(q: nat, fl: Flags)
    requires q == 2 * (2 * (2 * Weight(fl.z) + Weight(fl.n)) + Weight(fl.h)) + Weight(fl.c)
    ensures Unpack(16 * q) == fl
  {
    var q1 := 2 * (2 * Weight(fl.z) + Weight(fl.n)) + Weight(fl.h);
    var q2 := 2 * Weight(fl.z) + Weight(fl.n);
    assert q / 2 == q1 && q % 2 == Weight(fl.c);
    assert q1 / 2 == q2 && q1 % 2 == Weight(fl.h);
    assert q2 / 2 == Weight(fl.z) && q2 % 2 == Weight(fl.n);
    assert Bit(q, 0) == fl.c;
    assert Bit(q, 1) == Bit(q1, 0) == fl.h;
    assert Bit(q, 2) == Bit(q1, 1) == Bit(q2, 0) == fl.n;
    assert Bit(q, 3) == Bit(q1, 2) == Bit(q2, 1) == Bit(Weight(fl.z), 0) == fl.z;
    Times16Bits(q, 0);
    Times16Bits(q, 1);
    Times16Bits(q, 2);
    Times16Bits(q, 3);
  }

  /** Bit k + 4 of `q << 4` is bit k of q. */
  lemma Times16Bits(q: nat, k: nat)
    ensures Bit(16 * q, k + 4) == Bit(q, k)
  {
    assert (16 * q) / 2 == 8 * q && (8 * q) / 2 == 4 * q && (4 * q) / 2 == 2 * q && (2 * q) / 2 == q;
    assert Bit(16 * q, k + 4) == Bit(8 * q, k + 3) == Bit(4 * q, k + 2) == Bit(2 * q, k + 1) == Bit(q, k);
  }

  /** The flags held in bits 7..4 of F. */
  function Unpack(f: Byte): Flags {
    Flags(Bit(f, 7), Bit(f, 6), Bit(f, 5), Bit(f, 4))
  }

  /** `get_flag`: `(F & (1 << pos)) !== 0`. */
  predicate GetFlag(f: Byte, flag: Flag) {
    Bit(f, Pos(flag))
  }

  /** The flag stored at bit k of F, for k in 4..7. */
  function FlagAt(k: BitIndex): (g: Flag)
    requires 4 <= k
    ensures Pos(g) == k
  {
    if k == 7 then Flag.Z else if k == 6 then Flag.N else if k == 5 then Flag.H else Flag.C
  }

  lemma UnpackGet(f: Byte, k: BitIndex)
    requires 4 <= k
    ensures Unpack(f).Get(FlagAt(k)) == Bit(f, k)
  {
  }

  lemma WithGet(fl: Flags, flag: Flag, v: bool, g: Flag)
    ensures fl.With(flag, v).Get(g) == if g == flag then v else fl.Get(g)
  {
  }

  /** The low nibble of a packed F is clear. */
  lemma PackLowBits(fl: Flags, k: BitIndex)
    requires k < 4
    ensures !Bit(Pack(fl), k)
  {
    Widths();
    var r := Pack(fl);
    assert r == Pow2(4) * (r / 16) + 0;
    BitSplit(r / 16, 0, 4, k);
    ZeroBits(k);
  }

  lemma SetFlagInRange(f: Byte, flag: Flag, v: bool)
    ensures WithBit(f, Pos(flag), v) < 0x100
  {
    Widths();
    WithBitBits(f, Pos(flag), v);
  }

  lemma SetFlagHighBit(f: Byte, flag: Flag, v: bool, k: BitIndex)
    requires 4 <= k
    requires WithBit(f, Pos(flag), v) < 0x100
    ensures Bit(HighNibble(WithBit(f, Pos(flag), v)), k) == Bit(Pack(Unpack(f).With(flag, v)), k)
  {
    var w := WithBit(f, Pos(flag), v);
    var g := FlagAt(k);
    WithBitBits(f, Pos(flag), v);
    PackUnpack(Unpack(f).With(flag, v));
    HighNibbleBits(w);
    assert Bit(HighNibble(w), k) == Bit(w, k);
    assert Bit(w, k) == if k == Pos(flag) then v else Bit(f, k);
    UnpackGet(Pack(Unpack(f).With(flag, v)), k);
    UnpackGet(f, k);
    WithGet(Unpack(f), flag, v, g);
    assert g == flag <==> k == Pos(flag);
  }

  /**
   * `set_flag`: set or clear the flag's bit, then `F &= 0xf0`. The result is
   * the old flags with exactly one changed, packed back with a clear low
   * nibble, whatever F held before.
   */
  lemma {:induction false} SetFlagPacks(f: Byte, flag: Flag, v: bool)
    ensures WithBit(f, Pos(flag), v) < 0x100
    ensures HighNibble(WithBit(f, Pos(flag), v)) == Pack(Unpack(f).With(flag, v))
  {
    SetFlagInRange(f, flag, v);
    var lhs := HighNibble(WithBit(f, Pos(flag), v));
    var rhs := Pack(Unpack(f).With(flag, v));
    forall k: nat | k < 8
      ensures Bit(lhs, k) == Bit(rhs, k)
    {
      if k < 4 {
        PackLowBits(Unpack(f).With(flag, v), k);
        HighNibbleBits(WithBit(f, Pos(flag), v));
      } else {
        SetFlagHighBit(f, flag, v, k);
      }
    }
    ByteWidth();
    BitsDetermine(lhs, rhs, 8);
  }

  /** `check_condition`: C, !C, Z, !Z read from F's flag bits. */
  predicate Holds(f: Byte, cond: Cond) {
    match cond
    case C => GetFlag(f, Flag.C)
    case NC => !GetFlag(f, Flag.C)
    case Z => GetFlag(f, Flag.Z)
    case NZ => !GetFlag(f, Flag.Z)
  }

  /** A condition depends on the Z and C flags only, and NC/NZ negate C/Z. */
  lemma HoldsReadsZC(fl: Flags, cond: Cond)
    ensures Holds(Pack(fl), cond) == match cond
      case C => fl.c
      case NC => !fl.c
      case Z => fl.z
      case NZ => !fl.z
  {
  }

  /** The register file's fields: A, F, B, C, D, E, H, L, SP and PC. */
  datatype Regs = Regs(a: Byte, f: Byte, b: Byte, c: Byte, d: Byte, e: Byte, h: Byte, l: Byte,
                       sp: Word, pc: Word)
  {
    function Get8(r: R8): Byte {
      match r
      case A => a
      case F => f
      case B => b
      case C => c
      case D => d
      case E => e
      case H => h
      case L => l
    }

    function Set8(r: R8, v: Byte): Regs {
      match r
      case A => this.(a := v)
      case F => this.(f := v)
      case B => this.(b := v)
      case C => this.(c := v)
      case D => this.(d := v)
      case E => this.(e := v)
      case H => this.(h := v)
      case L => this.(l := v)
    }
  }

  /** The two halves of a register pair, high byte first. */
  function Halves(p: R16): (R8, R8)
    requires p !in {PC, SP}
  {
    match p
    case AF => (R8.A, R8.F)
    case BC => (R8.B, R8.C)
    case DE => (R8.D, R8.E)
    case HL => (R8.H, R8.L)
  }

  /** The width of a register: 256 for the 8-bit ones, 65536 for the rest. */
  function Width(name: Reg): nat {
    if name.Reg8? then 0x100 else 0x1_0000
  }

  /**
   * `get_reg`: an 8-bit register, SP or PC as stored; a pair as
   * `((hi & 0xff) << 8) | (lo & 0xff)`, which for bytes is `hi * 256 + lo`.
   */
  function Read(r: Regs, name: Reg): (v: Word)
    ensures v < Width(name)
  {
    match name
    case Reg8(x) => r.Get8(x)
    case Reg16(PC) => r.pc
    case Reg16(SP) => r.sp
    case Reg16(p) =>
      var (hi, lo) := Halves(p);
      r.Get8(hi) * 0x100 + r.Get8(lo)
  }

  /**
   * `set_reg`: 8-bit registers store `val & 0xff`, SP and PC `val & 0xffff`;
   * a pair stores `(val >> 8) & 0xff` in its first register and `val & 0xff`
   * in its second. JavaScript's `&` and `>>` on a negative number act like
   * Euclidean `%` and `/` here.
   */
  function Write(r: Regs, name: Reg, val: int): (r': Regs)
  {
    match name
    case Reg8(x) => r.Set8(x, val % 0x100)
    case Reg16(PC) => r.(pc := val % 0x1_0000)
    case Reg16(SP) => r.(sp := val % 0x1_0000)
    case Reg16(p) =>
      var (hi, lo) := Halves(p);
      r.Set8(hi, (val / 0x100) % 0x100).Set8(lo, val % 0x100)
  }

  /** Whether two names share storage: a pair overlaps its two halves. */
  predicate Overlap(x: Reg, y: Reg) {
    x == y ||
    (x.Reg8? && y.Reg16? && y.r16 !in {PC, SP} && x.r8 in {Halves(y.r16).0, Halves(y.r16).1}) ||
    (y.Reg8? && x.Reg16? && x.r16 !in {PC, SP} && y.r8 in {Halves(x.r16).0, Halves(x.r16).1}) ||
    (x.Reg16? && y.Reg16? && x.r16 !in {PC, SP} && y.r16 !in {PC, SP} &&
     (Halves(x.r16).0 == Halves(y.r16).0 || Halves(x.r16).1 == Halves(y.r16).1))
  }

  /**
   * Reading a register back after writing it gives the value reduced modulo
   * the register's width (for a pair: `v & 0xffff`), and every register that
   * shares no storage with it keeps its value.
   */
  lemma WriteThenRead(r: Regs, name: Reg, val: int)
    ensures Read(Write(r, name, val), name) == val % Width(name)
    ensures forall other: Reg :: !Overlap(name, other) ==> Read(Write(r, name, val), other) == Read(r, other)
  {
    if name.Reg16? && name.r16 !in {PC, SP} {
      PairSplit(val);
    }
    forall other: Reg | !Overlap(name, other)
      ensures Read(Write(r, name, val), other) == Read(r, other)
    {
      WriteKeepsOther(r, name, val, other);
    }
  }

  /** `((v >> 8) & 0xff) << 8 | (v & 0xff)` is `v & 0xffff`. */
  lemma PairSplit(v: int)
    ensures (v / 0x100) % 0x100 * 0x100 + v % 0x100 == v % 0x1_0000
  {
    var q := v / 0x100;
    var lo := v % 0x100;
    var hi := q % 0x100;
    assert v == 0x100 * q + lo;
    assert q == 0x100 * (q / 0x100) + hi;
    assert v == 0x1_0000 * (q / 0x100) + (hi * 0x100 + lo);
    assert 0 <= hi * 0x100 + lo < 0x1_0000;
  }

  lemma WriteKeepsOther(r: Regs, name: Reg, val: int, other: Reg)
    requires !Overlap(name, other)
    ensures Read(Write(r, name, val), other) == Read(r, other)
  {
    match name {
      case Reg8(x) => Write8KeepsOther(r, x, val, other);
      case Reg16(p) => Write16KeepsOther(r, p, val, other);
    }
  }

  lemma Write8KeepsOther(r: Regs, x: R8, val: int, other: Reg)
    requires !Overlap(Reg8(x), other)
    ensures Read(Write(r, Reg8(x), val), other) == Read(r, other)
  {
    match other {
      case Reg8(y) =>
      case Reg16(q) =>
    }
  }

  lemma Write16KeepsOther(r: Regs, p: R16, val: int, other: Reg)
    requires !Overlap(Reg16(p), other)
    ensures Read(Write(r, Reg16(p), val), other) == Read(r, other)
  {
    match other {
      case Reg8(y) =>
      case Reg16(q) =>
    }
  }

  /** A pair write puts the high byte in the first register, the low byte in the second. */
  lemma PairWriteHalves(r: Regs, p: R16, val: int)
    requires p !in {PC, SP}
    ensures Write(r, Reg16(p), val).Get8(Halves(p).0) == (val / 0x100) % 0x100
    ensures Write(r, Reg16(p), val).Get8(Halves(p).1) == val % 0x100
  {
  }

  lemma PairHalvesDisjoint(hi: Byte, lo: Byte, k: nat)
    requires k < 16
    ensures !(Bit(hi * 0x100, k) && Bit(lo, k))
  {
    Widths();
    BitSplit(hi, 0, 8, k);
    ZeroBits(k);
    if k >= 8 {
      BitsAboveWidth(lo, 8, k);
    }
  }

  /** For bytes, `(hi << 8) | lo` is `hi * 256 + lo`: the pair view of `get_reg`. */
  lemma PairJoinIsOr(hi: Byte, lo: Byte)
    ensures Bitwise(Or, hi * 0x100, lo) == hi * 0x100 + lo
  {
    forall k: nat | k < 16
      ensures !(Bit(hi * 0x100, k) && Bit(lo, k))
    {
      PairHalvesDisjoint(hi, lo, k);
    }
    PairBelow(hi, lo);
    OrDisjointIsSum(hi * 0x100, lo, 16);
  }

  lemma PairBelow(hi: Byte, lo: Byte)
    ensures hi * 0x100 < Pow2(16) && lo < Pow2(16)
  {
    Widths();
  }

  /**
   * `inc_reg` / `dec_reg`: `set_reg(name, get_reg(name) ± amount)`, so
   * every register, for every amount, wraps modulo its width (the other
   * registers are kept, as `WriteThenRead` states); for example PC = 0xFFFF
   * plus 1 is 0, SP = 0 minus 1 is 0xFFFF.
   */
  lemma IncDecWrap(r: Regs, name: Reg, amount: int)
    ensures Read(Write(r, name, Read(r, name) + amount), name) == (Read(r, name) + amount) % Width(name)
    ensures Read(Write(r, name, Read(r, name) - amount), name) == (Read(r, name) - amount) % Width(name)
    ensures r.pc == 0xFFFF ==> Write(r, Reg16(PC), Read(r, Reg16(PC)) + 1).pc == 0
    ensures r.sp == 0 ==> Write(r, Reg16(SP), Read(r, Reg16(SP)) - 1).sp == 0xFFFF
    ensures r.h == 0xFF && r.l == 0xFF ==>
      Read(Write(r, Reg16(HL), Read(r, Reg16(HL)) + 1), Reg16(HL)) == 0
  {
    WriteThenRead(r, name, Read(r, name) + amount);
    WriteThenRead(r, name, Read(r, name) - amount);
    WrapEdges(r);
  }

  lemma WrapEdges(r: Regs)
    ensures r.pc == 0xFFFF ==> Write(r, Reg16(PC), Read(r, Reg16(PC)) + 1).pc == 0
    ensures r.sp == 0 ==> Write(r, Reg16(SP), Read(r, Reg16(SP)) - 1).sp == 0xFFFF
    ensures r.h == 0xFF && r.l == 0xFF ==>
      Read(Write(r, Reg16(HL), Read(r, Reg16(HL)) + 1), Reg16(HL)) == 0
  {
  }
}
