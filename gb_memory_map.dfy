/**
 * The address map of the monolithic emulator (Memory.Read/Write in
 * gb/memory.go and the I/O register rules of gb/io.go), as pure functions
 * over the state those two functions see. Memory.Read in the source is a
 * pure case analysis; Memory.Write, which stores into Go arrays, is modelled
 * as the function returning the new Bus value.
 */
module GbMemoryMap {
  import opened Bits
  import opened Outcomes

  // I/O register addresses (gb/io.go).
  const AddrIO: Word := 0xFF00
  const AddrDIV: Word := 0xFF04
  const AddrTIMA: Word := 0xFF05
  const AddrTMA: Word := 0xFF06
  const AddrTAC: Word := 0xFF07
  const AddrIF: Word := 0xFF0F
  const AddrLCDC: Word := 0xFF40
  const AddrSTAT: Word := 0xFF41
  const AddrSCY: Word := 0xFF42
  const AddrSCX: Word := 0xFF43
  const AddrLY: Word := 0xFF44
  const AddrBGP: Word := 0xFF47
  const AddrOBP0: Word := 0xFF48
  const AddrOBP1: Word := 0xFF49
  const AddrWY: Word := 0xFF4A
  const AddrWX: Word := 0xFF4B
  const AddrBOOT: Word := 0xFF50
  const AddrIE: Word := 0xFFFF

  /**
   * Everything Memory.Read and Memory.Write touch: the memory's own arrays
   * and IE, the boot image (GameBoy.boot), the CPU's internal counter behind
   * DIV, and the PPU's LCDC, STAT and LY. io stands in for the I/O backing
   * array the source indexes as m.io but does not declare.
   */
  datatype Bus = Bus(
    boot: seq<Byte>,
    vram: seq<Byte>,
    wram: seq<Byte>,
    oam: seq<Byte>,
    hram: seq<Byte>,
    io: seq<Byte>,
    ie: Byte,
    ic: Word,
    lcdc: Byte,
    stat: Byte,
    ly: Byte)
  {
    /** The array sizes of the Memory struct. */
    ghost predicate Valid()
    {
      |boot| == 0x100 && |vram| == 0x4000 && |wram| == 0x2000 && |oam| == 0x100
      && |hram| == 0xFF && |io| == 0x80
    }
  }

  // Indices into the backing arrays, one function per region so that the
  // conversion of a 16-bit address to an index is reasoned about once.

  /** The index of a boot ROM address. */
  function BootIndex(addr: Word): (i: nat)
    requires addr < 0x100
    ensures i < 0x100
  {
    addr as int
  }

  /** The index of a video RAM address. */
  function VramIndex(addr: Word): (i: nat)
    requires 0x8000 <= addr < 0xA000
    ensures i < 0x2000
  {
    (addr - 0x8000) as int
  }

  /** The index addr - 0x8000 of an address below VRAM, wrapped to 16 bits: at least 0xC000. */
  function WrappedIndex(addr: Word): (i: nat)
    requires 0x4000 <= addr < 0x8000
    ensures 0x4000 <= i < 0x10000
  {
    (addr - 0x8000) as int
  }

  /** The index of a work RAM address. */
  function WramIndex(addr: Word): (i: nat)
    requires 0xC000 <= addr < 0xE000
    ensures i < 0x2000
  {
    (addr - 0xC000) as int
  }

  /** The work RAM index of an echo address: that of addr - 0x2000. */
  function EchoIndex(addr: Word): (i: nat)
    requires 0xE000 <= addr < 0xFE00
    ensures i < 0x1E00
  {
    (addr - 0xE000) as int
  }

  /** The index of an OAM address. */
  function OamIndex(addr: Word): (i: nat)
    requires 0xFE00 <= addr < 0xFEA0
    ensures i < 0xA0
  {
    (addr - 0xFE00) as int
  }

  /** The index of an I/O register in its backing array. */
  function IoIndex(addr: Word): (i: nat)
    requires 0xFF00 <= addr < 0xFF80
    ensures i < 0x80
  {
    (addr - 0xFF00) as int
  }

  /** The index of a high RAM address. */
  function HramIndex(addr: Word): (i: nat)
    requires 0xFF80 <= addr < 0xFFFF
    ensures i < 0x7F
  {
    (addr - 0xFF80) as int
  }

  /**
   * BootRomEnabled: the boot ROM is mapped while bit 0 of BOOT is clear.
   * Memory.Read of BOOT skips the overlay (0xFF50 is above 0xFF), so it is
   * the remaining case analysis, ReadMapped, that answers.
   */
  function BootRomEnabled(b: Bus): bool
    requires b.Valid()
  {
    var r := ReadMapped(b, AddrBOOT);
    r.Ok? && !GetBit(r.value, 0)
  }

  /** Memory.Read: the boot overlay first, then the rest of the map. */
  function Read(b: Bus, addr: Word): (r: Result<Byte>)
    requires b.Valid()
    ensures r.Err? <==> 0x4000 <= addr < 0x8000
  {
    if addr < 0x100 && BootRomEnabled(b) then Ok(b.boot[BootIndex(addr)])
    else ReadMapped(b, addr)
  }

  /**
   * The cases of Memory.Read after the boot overlay. The third case compares
   * against decimal 8000, which every address reaching it already exceeds,
   * so 0x4000-0x7FFF falls into the VRAM case, whose index addr - 0x8000
   * wraps past the 0x4000-byte array exactly when addr is below 0x8000: Go
   * panics there, and the model returns OutOfRange with that index. The
   * mirror case re-reads addr - 0x2000, which always lands in work RAM;
   * EchoMirrorsWram states the equality.
   */
  function ReadMapped(b: Bus, addr: Word): (r: Result<Byte>)
    requires b.Valid()
    ensures r.Err? <==> 0x4000 <= addr < 0x8000
  {
    if addr < 0x4000 then Ok(0)
    else if addr < 8000 then Ok(0)
    else if addr < 0xA000 then
      if 0x8000 <= addr then Ok(b.vram[VramIndex(addr)]) else Err(OutOfRange(WrappedIndex(addr)))
    else if addr < 0xC000 then Ok(0)
    else if addr < 0xE000 then Ok(b.wram[WramIndex(addr)])
    else if addr < 0xFE00 then Ok(b.wram[EchoIndex(addr)])
    else if addr < 0xFEA0 then Ok(b.oam[OamIndex(addr)])
    else if addr < 0xFF00 then Ok(0)
    else if addr < 0xFF80 then Ok(ReadIO(b, addr))
    else if addr < 0xFFFF then Ok(b.hram[HramIndex(addr)])
    else Ok(b.ie)
  }

  /** Memory.ReadIO. STAT answers with LCDC, as PPU.STAT does. */
  function ReadIO(b: Bus, addr: Word): Byte
    requires b.Valid() && AddrIO <= addr < 0xFF80
  {
    if addr == AddrDIV then Hi(b.ic)
    else if addr == AddrIF then b.io[IoIndex(addr)] | 0xE0
    else if addr == AddrLCDC then b.lcdc
    else if addr == AddrSTAT then b.lcdc
    else if addr == AddrLY then b.ly
    else b.io[IoIndex(addr)]
  }

  /**
   * Memory.Write. Writes below 0x8000, to cartridge RAM and to 0xFEA0-0xFEFF
   * do nothing. The mirror case writes addr - 0x2000, which always lands in
   * work RAM; EchoMirrorsWram states the equality.
   */
  function Write(b: Bus, addr: Word, v: Byte): (r: Bus)
    requires b.Valid()
    ensures r.Valid() && r.boot == b.boot && r.ly == b.ly
  {
    if 0x8000 <= addr < 0xA000 then b.(vram := Store(b.vram, VramIndex(addr), v))
    else if 0xA000 <= addr < 0xC000 then b
    else if 0xC000 <= addr < 0xE000 then b.(wram := Store(b.wram, WramIndex(addr), v))
    else if 0xE000 <= addr < 0xFE00 then b.(wram := Store(b.wram, EchoIndex(addr), v))
    else if 0xFE00 <= addr < 0xFEA0 then b.(oam := Store(b.oam, OamIndex(addr), v))
    else if 0xFF00 <= addr < 0xFF80 then WriteIO(b, addr, v)
    else if 0xFF80 <= addr < 0xFFFF then b.(hram := Store(b.hram, HramIndex(addr), v))
    else if addr == 0xFFFF then b.(ie := v)
    else b
  }

  /**
   * Memory.WriteIO (without the serial debug print). DIV keeps the low byte
   * of the counter, TAC keeps three bits, LCDC and STAT go to the PPU (STAT
   * keeping its low four bits), LY is read-only.
   */
  function WriteIO(b: Bus, addr: Word, v: Byte): (r: Bus)
    requires b.Valid() && AddrIO <= addr < 0xFF80
    ensures r.Valid()
  {
    if addr == AddrDIV then b.(ic := CombineBytes(v, Lo(b.ic)))
    else if addr == AddrTAC then b.(io := Store(b.io, IoIndex(addr), v & 0x07))
    else if addr == AddrLCDC then b.(lcdc := v)
    else if addr == AddrSTAT then b.(stat := (b.stat & 0x0F) | (v & 0xF0))
    else if addr == AddrLY then b
    else b.(io := Store(b.io, IoIndex(addr), v))
  }

  // ---------------------------------------------------------------------
  // Properties of the map.

  /** The byte at an I/O register's slot of the backing array. */
  function IoByte(b: Bus, addr: Word): Byte
    requires b.Valid() && AddrIO <= addr < 0xFF80
  {
    b.io[IoIndex(addr)]
  }

  /** While BOOT bit 0 is clear, the first 256 addresses read the boot image. */
  lemma BootOverlay(b: Bus, addr: Word)
    requires b.Valid() && addr < 0x100
    ensures BootRomEnabled(b) <==> !GetBit(IoByte(b, AddrBOOT), 0)
    ensures BootRomEnabled(b) ==> Read(b, addr) == Ok(b.boot[BootIndex(addr)])
    ensures !BootRomEnabled(b) ==> Read(b, addr) == Ok(0)
  {
  }

  /** Cartridge ROM bank 0 (boot ROM off) and cartridge RAM read as 0. */
  lemma UnbackedReadsZero(b: Bus, addr: Word)
    requires b.Valid()
    requires (0x100 <= addr < 0x4000) || (0xA000 <= addr < 0xC000) || (0xFEA0 <= addr < 0xFF00)
    ensures Read(b, addr) == Ok(0)
  {
  }

  /** Echo RAM reads and writes act exactly as Read and Write at addr - 0x2000, that is, on WRAM. */
  lemma EchoMirrorsWram(b: Bus, addr: Word, v: Byte)
    requires b.Valid() && 0xE000 <= addr < 0xFE00
    ensures Read(b, addr) == Read(b, addr - 0x2000) == Ok(b.wram[EchoIndex(addr)])
    ensures Write(b, addr, v) == Write(b, addr - 0x2000, v)
    ensures Write(b, addr, v) == b.(wram := b.wram[EchoIndex(addr) := v])
  {
  }

  /** The Read of BOOT that BootRomEnabled stands for. */
  lemma BootFlagRead(b: Bus)
    requires b.Valid()
    ensures BootRomEnabled(b) <==> !GetBit(Read(b, AddrBOOT).value, 0)
  {
  }

  /** Writes to ROM space, cartridge RAM and the unusable hole change nothing. */
  lemma IgnoredWrites(b: Bus, addr: Word, v: Byte)
    requires b.Valid()
    requires addr < 0x8000 || (0xA000 <= addr < 0xC000) || (0xFEA0 <= addr < 0xFF00)
    ensures Write(b, addr, v) == b
  {
  }

  /** The addresses backed by plain storage: VRAM, WRAM and its echo, OAM, HRAM and IE. */
  predicate Plain(addr: Word)
  {
    (0x8000 <= addr < 0xA000) || (0xC000 <= addr < 0xFEA0) || 0xFF80 <= addr
  }

  /** A plain address reads back the byte just written to it. */
  lemma WriteThenRead(b: Bus, addr: Word, v: Byte)
    requires b.Valid() && Plain(addr)
    ensures Read(Write(b, addr, v), addr) == Ok(v)
  {
    if 0x8000 <= addr < 0xA000 {
      assert Write(b, addr, v) == b.(vram := Store(b.vram, VramIndex(addr), v));
    } else if 0xC000 <= addr < 0xE000 {
      WramWriteRead(b, addr, addr, v);
    } else if 0xE000 <= addr < 0xFE00 {
      EchoMirrorsWram(b, addr, v);
      EchoMirrorsWram(Write(b, addr, v), addr, v);
    } else if 0xFE00 <= addr < 0xFEA0 {
      assert Write(b, addr, v) == b.(oam := Store(b.oam, OamIndex(addr), v));
    } else if 0xFF80 <= addr < 0xFFFF {
      HramWriteRead(b, addr, addr, v);
    }
  }

  /** Work RAM and high RAM: storage that no special case and no mirror reaches. */
  predicate Ram(addr: Word)
  {
    (0xC000 <= addr < 0xE000) || (0xFF80 <= addr < 0xFFFF)
  }

  /** A RAM write is seen at its own address and at no other RAM address. */
  lemma RamWriteRead(b: Bus, x: Word, y: Word, v: Byte)
    requires b.Valid() && Ram(x) && Ram(y)
    ensures Read(Write(b, x, v), y) == if x == y then Ok(v) else Read(b, y)
  {
    if 0xC000 <= x < 0xE000 && 0xC000 <= y < 0xE000 {
      WramWriteRead(b, x, y, v);
    } else if 0xFF80 <= x && 0xFF80 <= y {
      HramWriteRead(b, x, y, v);
    } else {
      RamWriteKeepsOtherBank(b, x, y, v);
    }
  }

  lemma WramWriteRead(b: Bus, x: Word, y: Word, v: Byte)
    requires b.Valid() && 0xC000 <= x < 0xE000 && 0xC000 <= y < 0xE000
    ensures Read(Write(b, x, v), y) == if x == y then Ok(v) else Read(b, y)
  {
    if x != y {
      WordToIntInjective(x - 0xC000, y - 0xC000);
    }
    StoreRead(b.wram, WramIndex(x), WramIndex(y), v);
  }

  lemma HramWriteRead(b: Bus, x: Word, y: Word, v: Byte)
    requires b.Valid() && 0xFF80 <= x < 0xFFFF && 0xFF80 <= y < 0xFFFF
    ensures Read(Write(b, x, v), y) == if x == y then Ok(v) else Read(b, y)
  {
    if x != y {
      WordToIntInjective(x - 0xFF80, y - 0xFF80);
    }
    StoreRead(b.hram, HramIndex(x), HramIndex(y), v);
  }

  lemma RamWriteKeepsOtherBank(b: Bus, x: Word, y: Word, v: Byte)
    requires b.Valid() && Ram(x) && Ram(y)
    requires (0xC000 <= x < 0xE000) != (0xC000 <= y < 0xE000)
    ensures Read(Write(b, x, v), y) == Read(b, y)
  {
  }

  /** A RAM write changes only WRAM or HRAM: the registers, VRAM and OAM stay as they were. */
  lemma RamWriteKeepsRegisters(b: Bus, x: Word, v: Byte)
    requires b.Valid() && Ram(x)
    ensures var b' := Write(b, x, v);
      b'.io == b.io && b'.ie == b.ie && b'.ic == b.ic && b'.lcdc == b.lcdc && b'.stat == b.stat
      && b'.vram == b.vram && b'.oam == b.oam
  {
  }

  /** The I/O registers without a special case store the byte written and read it back. */
  lemma PlainRegisterRoundTrip(b: Bus, addr: Word, v: Byte)
    requires b.Valid() && AddrIO <= addr < 0xFF80
    requires addr !in {AddrDIV, AddrTAC, AddrIF, AddrLCDC, AddrSTAT, AddrLY}
    ensures Read(Write(b, addr, v), addr) == Ok(v)
    ensures Write(b, addr, v) == b.(io := b.io[IoIndex(addr) := v])
  {
  }

  /** DIV reads the counter's high byte; writing it replaces the high byte and keeps the low one. */
  lemma DivRegister(b: Bus, v: Byte)
    requires b.Valid()
    ensures Read(b, AddrDIV) == Ok(Hi(b.ic))
    ensures Write(b, AddrDIV, v) == b.(ic := CombineBytes(v, Lo(b.ic)))
    ensures Hi(Write(b, AddrDIV, v).ic) == v && Lo(Write(b, AddrDIV, v).ic) == Lo(b.ic)
  {
  }

  /** IF always reads with bits 5-7 set. */
  lemma IfRegister(b: Bus)
    requires b.Valid()
    ensures Read(b, AddrIF) == Ok(IoByte(b, AddrIF) | 0xE0)
    ensures Read(b, AddrIF).value & 0xE0 == 0xE0
  {
  }

  /** TAC keeps only its low three bits. */
  lemma TacRegister(b: Bus, v: Byte)
    requires b.Valid()
    ensures Read(Write(b, AddrTAC, v), AddrTAC) == Ok(v & 0x07)
  {
  }

  /** STAT reads back LCDC; a STAT write keeps the low nibble of STAT; LY ignores writes. */
  lemma LcdRegisters(b: Bus, v: Byte)
    requires b.Valid()
    ensures Read(b, AddrSTAT) == Read(b, AddrLCDC) == Ok(b.lcdc)
    ensures Write(b, AddrSTAT, v) == b.(stat := (b.stat & 0x0F) | (v & 0xF0))
    ensures Read(b, AddrLY) == Ok(b.ly) && Write(b, AddrLY, v) == b
  {
  }
}
