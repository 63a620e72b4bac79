/*
 * The byte-addressed memory the CPU reads and writes through its bus:
 * 65536 bytes, with the bus's 16-bit little-endian helpers.
 */
module AddressSpace {
  import opened Bytes

  /** The contents of the 16-bit address space. */
  type Memory = m: seq<Byte> | |m| == 0x1_0000 witness seq(0x1_0000, _ => 0)

  /** The address after addr on the 16-bit bus. */
  function Next(addr: Word): Word {
    (addr + 1) % 0x1_0000
  }

  /** `read16`: `lo | (hi << 8)` with lo at addr and hi at the next address. */
  function Read16(m: Memory, addr: Word): Word {
    m[addr] as int + m[Next(addr)] as int * 0x100
  }

  /** `write16`: `value & 0xff` at addr, `(value >> 8) & 0xff` at the next address. */
  function Write16(m: Memory, addr: Word, value: int): Memory {
    m[addr := value % 0x100][Next(addr) := (value / 0x100) % 0x100]
  }

  /**
   * A word written with `write16` reads back with `read16` as `value & 0xffff`,
   * and only the two addressed bytes change.
   */
  lemma Write16ThenRead16(m: Memory, addr: Word, value: int)
    ensures Read16(Write16(m, addr, value), addr) == value % 0x1_0000
    ensures forall a: Word :: a != addr && a != Next(addr) ==> Write16(m, addr, value)[a] == m[a]
  {
  }

  /** The bus: reads and writes bytes and little-endian words of its memory. */
  class Bus {
    const cells: array<Byte>

    predicate Valid() {
      cells.Length == 0x1_0000
    }

    constructor (init: Memory)
      ensures Valid() && Contents() == init
    {
      cells := new Byte[0x1_0000](i requires 0 <= i < 0x1_0000 => init[i]);
    }

    function Contents(): Memory
      requires Valid()
      reads cells
    {
      cells[..]
    }

    function Read(addr: Word): Byte
      requires Valid()
      reads cells
    {
      cells[addr]
    }

    /** `read16`: two reads, low byte first. */
    method ReadWord(addr: Word) returns (v: Word)
      requires Valid()
      ensures v == Read16(Contents(), addr)
    {
      var lo := cells[addr];
      var hi := cells[Next(addr)];
      v := lo as int + hi as int * 0x100;
    }

    method Write(addr: Word, value: Byte)
      requires Valid()
      modifies cells
      ensures Contents() == old(Contents())[addr := value]
    {
      cells[addr] := value;
    }

    /** `write16`: two writes, low byte first. */
    method WriteWord(addr: Word, value: int)
      requires Valid()
      modifies cells
      ensures Contents() == Write16(old(Contents()), addr, value)
    {
      var lo := value % 0x100;
      var hi := (value / 0x100) % 0x100;
      cells[addr] := lo;
      cells[Next(addr)] := hi;
    }
  }
}
