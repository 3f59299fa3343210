/**
 * The memory management unit of the split emulator (gb/mmu): the address
 * map behind read and write (gb/mmu/io.go), the CPU bus that gates VRAM
 * and OAM off from the CPU (gb/mmu/cpu.go), the debugging accessors
 * (gb/mmu/debug.go) and OAM DMA (gb/mmu/dma.go).
 *
 * read is a pure case analysis, so it is the function ReadAt over a
 * snapshot of everything the MMU can reach; write is a method of the MMU
 * class proved to produce the snapshot WriteAt computes.
 *
 * The MMU struct declares only its CPU and PPU, its buses and the two RAM
 * arrays, while io.go and dma.go also use a cartridge, a boot ROM, dma and
 * dmaClocks. The model gives the MMU the cartridge of cart/cartridge.go
 * and the boot ROM latch of gb/bootrom.go, both fixed at construction,
 * and the two DMA fields. The CPU interface is represented by what the
 * MMU uses of it: whether one is attached, its IE register and the
 * interrupts requested of it, oldest first. The PPU's VRAMAccessible and
 * OAMAccessible have no implementation anywhere, so their answers are
 * parameters of the bus operations.
 */
module Mmu {
  import opened Bits
  import opened Outcomes
  import opened Cart
  import opened PpuTiles
  import GbBootRom
  import Ppu

  // Memory layout (gb/mmu/addresses.go).
  const AddrVRAM: Word := 0x8000
  const AddrCartRAM: Word := 0xA000
  const AddrWRAM0: Word := 0xC000
  const AddrEcho: Word := 0xE000
  const AddrOAM: Word := 0xFE00
  const AddrEmpty: Word := 0xFEA0
  const AddrIO: Word := 0xFF00
  const AddrHRAM: Word := 0xFF80
  const AddrIE: Word := 0xFFFF

  /** The MMU's own arrays: [0x2000]uint8 of work RAM and [0xff]uint8 of high RAM. */
  const WramSize: nat := 0x2000
  const HramSize: nat := 0xFF

  /** The length of an OAM DMA transfer in clocks. */
  const DMAClocks: int := 644

  /** A boot ROM as read sees it: its image and whether it is still mapped (BOOT() == 0). */
  datatype Boot = Boot(rom: seq<Byte>, enabled: bool)

  /** The PPU's VRAM and OAM arrays. */
  datatype Video = Video(vram: seq<Byte>, oam: seq<Byte>)

  /**
   * Everything read and write reach: the optional boot ROM, cartridge and
   * PPU memory, the MMU's work RAM and high RAM, and the IE register of the
   * CPU when one is attached.
   */
  datatype Memory = Memory(
    boot: Option<Boot>,
    cart: Option<Cartridge>,
    video: Option<Video>,
    wram: seq<Byte>,
    hram: seq<Byte>,
    ie: Option<Byte>)
  {
    /** The arrays have the sizes the source declares. */
    ghost predicate Valid()
    {
      && (boot.Some? ==> |boot.value.rom| == GbBootRom.BootRomSize)
      && (video.Some? ==> |video.value.vram| == VramSize && |video.value.oam| == OamSize)
      && |wram| == WramSize && |hram| == HramSize
    }
  }

  // Indices into the backing arrays, one function per region.

  /** The offset of a VRAM address in the PPU's VRAM. */
  function VramIndex(addr: Word): (i: nat)
    requires AddrVRAM <= addr < AddrCartRAM
    ensures i < 0x2000
  {
    (addr - AddrVRAM) as int
  }

  /** The index of a work RAM address. */
  function WramIndex(addr: Word): (i: nat)
    requires AddrWRAM0 <= addr < AddrEcho
    ensures i < WramSize
  {
    (addr - AddrWRAM0) as int
  }

  /** The work RAM index of an echo address, which is that of addr - 0x2000. */
  function EchoIndex(addr: Word): (i: nat)
    requires AddrEcho <= addr < AddrOAM
    ensures i < 0x1E00
  {
    (addr - AddrEcho) as int
  }

  /** The offset of an address of 0xFE00-0xFEFF in the PPU's 256-byte OAM. */
  function OamIndex(addr: Word): (i: nat)
    requires AddrOAM <= addr < AddrIO
    ensures i < OamSize
  {
    (addr - AddrOAM) as int
  }

  /** The index of a high RAM address. */
  function HramIndex(addr: Word): (i: nat)
    requires AddrHRAM <= addr < AddrIE
    ensures i < 0x7F
  {
    (addr - AddrHRAM) as int
  }

  // ---------------------------------------------------------------------
  // read and write.

  /**
   * read. The cases are tried in the source's order: the boot ROM while it
   * is mapped, cartridge ROM, VRAM, cartridge RAM, work RAM, its mirror,
   * OAM, the empty region, the I/O registers, high RAM and IE; an address
   * no case takes reads 0.
   *
   * Cartridge RAM is read without checking that a cartridge is attached:
   * without one Go panics, NilCall here. The mirror case re-reads addr -
   * 0x2000, which always lands in work RAM (EchoMirrors). The I/O register
   * dispatch readIO is outside the model, so those addresses give
   * Unmodelled. The high RAM case names addrHRAM, read as AddrHRAM.
   */
  function ReadAt(m: Memory, addr: Word): (r: Result<Byte>)
    requires m.Valid()
  {
    if addr < 0x100 && m.boot.Some? && m.boot.value.enabled then Ok(m.boot.value.rom[addr as int])
    else if addr < AddrVRAM && m.cart.Some? then ReadROM(m.cart.value, addr)
    else if AddrVRAM <= addr < AddrCartRAM && m.video.Some? then Ok(m.video.value.vram[VramIndex(addr)])
    else if AddrCartRAM <= addr < AddrWRAM0 then
      if m.cart.Some? then Ok(ReadRAM(m.cart.value, addr - AddrCartRAM)) else Err(NilCall(addr as int))
    else if AddrWRAM0 <= addr < AddrEcho then Ok(m.wram[WramIndex(addr)])
    else if AddrEcho <= addr < AddrOAM then Ok(m.wram[EchoIndex(addr)])
    else if AddrOAM <= addr < AddrEmpty && m.video.Some? then Ok(m.video.value.oam[OamIndex(addr)])
    else if AddrEmpty <= addr < AddrIO then Ok(0)
    else if AddrIO <= addr < AddrHRAM then Err(Unmodelled(addr as int))
    else if AddrHRAM <= addr < AddrIE then Ok(m.hram[HramIndex(addr)])
    else if addr == AddrIE && m.ie.Some? then Ok(m.ie.value)
    else Ok(0)
  }

  /** The memory with one byte of VRAM replaced. */
  function StoreVram(m: Memory, i: nat, v: Byte): (r: Memory)
    requires m.Valid() && m.video.Some? && i < VramSize
    ensures r.Valid()
  {
    m.(video := Some(m.video.value.(vram := Store(m.video.value.vram, i, v))))
  }

  /** The memory with one byte of OAM replaced. */
  function StoreOam(m: Memory, i: nat, v: Byte): (r: Memory)
    requires m.Valid() && m.video.Some? && i < OamSize
    ensures r.Valid()
  {
    m.(video := Some(m.video.value.(oam := Store(m.video.value.oam, i, v))))
  }

  /**
   * write. Cartridge ROM and cartridge RAM writes go to the cartridge's
   * WriteROM, which changes nothing. The mirror case writes addr - 0x2000,
   * which always lands in work RAM. The OAM case runs up to the I/O
   * registers, so writes to the empty region 0xFEA0-0xFEFF reach OAM bytes
   * 0xA0-0xFF although reads there answer 0. IE is written only with a CPU
   * attached. The I/O register dispatch writeIO is outside the model:
   * Unmodelled.
   */
  function WriteAt(m: Memory, addr: Word, v: Byte): (r: Result<Memory>)
    requires m.Valid()
    ensures r.Err? <==> AddrIO <= addr < AddrHRAM
    ensures r.Ok? ==> r.value.Valid() && r.value.boot == m.boot && r.value.cart == m.cart
  {
    if addr < AddrVRAM then Ok(m)
    else if addr < AddrCartRAM then
      if m.video.Some? then Ok(StoreVram(m, VramIndex(addr), v)) else Ok(m)
    else if addr < AddrWRAM0 then Ok(m)
    else if addr < AddrEcho then Ok(m.(wram := Store(m.wram, WramIndex(addr), v)))
    else if addr < AddrOAM then Ok(m.(wram := Store(m.wram, EchoIndex(addr), v)))
    else if addr < AddrIO then
      if m.video.Some? then Ok(StoreOam(m, OamIndex(addr), v)) else Ok(m)
    else if addr < AddrHRAM then Err(Unmodelled(addr as int))
    else if addr < AddrIE then Ok(m.(hram := Store(m.hram, HramIndex(addr), v)))
    else if m.ie.Some? then Ok(m.(ie := Some(v)))
    else Ok(m)
  }

  // ---------------------------------------------------------------------
  // The CPU bus (gb/mmu/cpu.go).

  /** VRAM is gated off while a PPU is attached and says VRAM is inaccessible. */
  predicate VramGated(m: Memory, vramOk: bool, addr: Word)
  {
    m.video.Some? && AddrVRAM <= addr < AddrCartRAM && !vramOk
  }

  /** The OAM gate as written: its address range addr >= AddrOAM && addr < AddrOAM is empty. */
  predicate OamGated(m: Memory, oamOk: bool, addr: Word)
  {
    m.video.Some? && addr >= AddrOAM && addr < AddrOAM && !oamOk
  }

  /** CPUBus.Read: a gated address reads 0, any other goes to read. */
  function CpuReadAt(m: Memory, vramOk: bool, oamOk: bool, addr: Word): Result<Byte>
    requires m.Valid()
  {
    if VramGated(m, vramOk, addr) then Ok(0)
    else if OamGated(m, oamOk, addr) then Ok(0)
    else ReadAt(m, addr)
  }

  /** CPUBus.Write: a gated write is dropped, any other goes to write. */
  function CpuWriteAt(m: Memory, vramOk: bool, oamOk: bool, addr: Word, v: Byte): Result<Memory>
    requires m.Valid()
  {
    if VramGated(m, vramOk, addr) then Ok(m)
    else if OamGated(m, oamOk, addr) then Ok(m)
    else WriteAt(m, addr, v)
  }

  // ---------------------------------------------------------------------
  // The debugging accessors (gb/mmu/debug.go).

  /** Read16: the byte at addr + 1 is read first and is the high byte; a failing read fails the whole. */
  function Read16At(m: Memory, addr: Word): (r: Result<Word>)
    requires m.Valid()
    ensures r.Ok? <==> ReadAt(m, addr + 1).Ok? && ReadAt(m, addr).Ok?
    ensures r.Ok? ==> Hi(r.value) == ReadAt(m, addr + 1).value && Lo(r.value) == ReadAt(m, addr).value
  {
    var hi := ReadAt(m, addr + 1);
    if hi.Err? then Err(hi.failure)
    else
      var lo := ReadAt(m, addr);
      if lo.Err? then Err(lo.failure)
      else Ok(CombineBytes(hi.value, lo.value))
  }

  /** Write16: the low byte goes to addr, then the high byte to addr + 1. */
  function Write16At(m: Memory, addr: Word, v: Word): (r: Result<Memory>)
    requires m.Valid()
    ensures r.Ok? ==> r.value.Valid()
  {
    var first := WriteAt(m, addr, Lo(v));
    if first.Err? then first
    else WriteAt(first.value, addr + 1, Hi(v))
  }

  // ---------------------------------------------------------------------
  // OAM DMA (gb/mmu/dma.go).

  /** A copy happens once at least 4 clocks have elapsed, on every fourth clock. */
  predicate DmaCopies(elapsed: int)
  {
    elapsed >= 4 && elapsed % 4 == 0
  }

  /** The byte a copy moves: the first copy, at 4 clocks, moves byte 0, and no copy goes past byte 160. */
  function DmaOffset(elapsed: int): (offset: Byte)
    requires DmaCopies(elapsed) && elapsed <= DMAClocks
    ensures (offset as int + 1) * 4 == elapsed && offset <= 160
  {
    SmallByte(DmaIndex(elapsed))
  }

  /** A number up to 160 as a byte, counted up from 0. */
  function SmallByte(k: nat): (b: Byte)
    requires k <= 160
    ensures b as int == k && b <= 160
  {
    if k == 0 then 0 else SmallByte(k - 1) + 1
  }

  /** elapsed / 4 - 1, in integers. */
  function DmaIndex(elapsed: int): (k: nat)
    requires DmaCopies(elapsed) && elapsed <= DMAClocks
    ensures (k + 1) * 4 == elapsed && k <= 160
  {
    elapsed / 4 - 1
  }

  /**
   * The destination AddrOAM + offset. The source mixes the int offset with
   * 16-bit addresses; every offset that can arise is at most 160, where no
   * reading of that arithmetic wraps, so offset is a byte here.
   */
  function DmaDst(offset: Byte): Word
  {
    AddrOAM + offset as Word
  }

  /** The source uint16(dma) * 0x100 + offset. */
  function DmaSrc(page: Byte, offset: Byte): Word
  {
    (page as Word) * 0x100 + offset as Word
  }

  /**
   * stepDMA: with elapsed = DMAClocks - dmaClocks, nothing happens until a
   * copy is due; then one byte is read from the source page and written to
   * OAM. Go's truncating % agrees with Dafny's here, since elapsed is at
   * least 4 when it is taken. dmaClocks is never negative: SetDMA, its
   * only writer, sets it to DMAClocks.
   */
  function StepDmaAt(m: Memory, page: Byte, dmaClocks: int): Result<Memory>
    requires m.Valid() && 0 <= dmaClocks
  {
    var elapsed := DMAClocks - dmaClocks;
    if !DmaCopies(elapsed) then Ok(m)
    else
      var offset := DmaOffset(elapsed);
      var b := ReadAt(m, DmaSrc(page, offset));
      if b.Err? then Err(b.failure)
      else WriteAt(m, DmaDst(offset), b.value)
  }

  // ---------------------------------------------------------------------
  // Properties of the map.

  /** While the boot ROM is mapped, the first 256 addresses read its image. */
  lemma BootOverlay(m: Memory, addr: Word)
    requires m.Valid() && addr < 0x100 && m.boot.Some? && m.boot.value.enabled
    ensures ReadAt(m, addr) == Ok(m.boot.value.rom[addr as int])
  {
  }

  /** Below VRAM, with no boot ROM mapped over it, reads go to the cartridge ROM, or answer 0 without one. */
  lemma CartridgeRom(m: Memory, addr: Word)
    requires m.Valid() && addr < AddrVRAM
    requires !(addr < 0x100 && m.boot.Some? && m.boot.value.enabled)
    ensures m.cart.Some? ==> ReadAt(m, addr) == ReadROM(m.cart.value, addr)
    ensures m.cart.None? ==> ReadAt(m, addr) == Ok(0)
  {
  }

  /** With a PPU attached, 0x8000-0x9FFF reads and writes the PPU's VRAM at addr - 0x8000. */
  lemma VramWindow(m: Memory, addr: Word, v: Byte)
    requires m.Valid() && m.video.Some? && AddrVRAM <= addr < AddrCartRAM
    ensures ReadAt(m, addr) == Ok(m.video.value.vram[VramIndex(addr)])
    ensures WriteAt(m, addr, v) == Ok(StoreVram(m, VramIndex(addr), v))
  {
  }

  /** 0xE000-0xFDFF reads and writes exactly as addr - 0x2000, which is work RAM. */
  lemma EchoMirrors(m: Memory, addr: Word, v: Byte)
    requires m.Valid() && AddrEcho <= addr < AddrOAM
    ensures ReadAt(m, addr) == ReadAt(m, addr - 0x2000) == Ok(m.wram[EchoIndex(addr)])
    ensures WriteAt(m, addr, v) == WriteAt(m, addr - 0x2000, v)
    ensures WriteAt(m, addr, v) == Ok(m.(wram := m.wram[EchoIndex(addr) := v]))
  {
    assert EchoIndex(addr) == WramIndex(addr - 0x2000);
  }

  /**
   * The empty region 0xFEA0-0xFEFF reads 0, but a write there with a PPU
   * attached lands in OAM at addr - 0xFE00.
   */
  lemma EmptyRegion(m: Memory, addr: Word, v: Byte)
    requires m.Valid() && AddrEmpty <= addr < AddrIO
    ensures ReadAt(m, addr) == Ok(0)
    ensures m.video.Some? ==> WriteAt(m, addr, v) == Ok(StoreOam(m, OamIndex(addr), v))
    ensures m.video.Some? ==> 0xA0 <= OamIndex(addr)
    ensures m.video.None? ==> WriteAt(m, addr, v) == Ok(m)
  {
  }

  /**
   * Writes below VRAM and to cartridge RAM change nothing. Cartridge RAM
   * reads 0 with a cartridge and panics without one.
   */
  lemma CartridgeWrites(m: Memory, addr: Word, v: Byte)
    requires m.Valid() && (addr < AddrVRAM || AddrCartRAM <= addr < AddrWRAM0)
    ensures WriteAt(m, addr, v) == Ok(m)
    ensures AddrCartRAM <= addr ==> ReadAt(m, addr) == if m.cart.Some? then Ok(0) else Err(NilCall(addr as int))
  {
  }

  /** Without a PPU, VRAM and OAM addresses read 0; without a CPU, IE reads 0 and ignores writes. */
  lemma UnmatchedReadsZero(m: Memory, addr: Word, v: Byte)
    requires m.Valid()
    ensures m.video.None? && (AddrVRAM <= addr < AddrCartRAM || AddrOAM <= addr < AddrIO) ==>
      ReadAt(m, addr) == Ok(0) && WriteAt(m, addr, v) == Ok(m)
    ensures m.ie.None? && addr == AddrIE ==> ReadAt(m, addr) == Ok(0) && WriteAt(m, addr, v) == Ok(m)
  {
  }

  /** The only failures of read: a short cartridge ROM, cartridge RAM without a cartridge, and the I/O registers. */
  lemma ReadFailures(m: Memory, addr: Word)
    requires m.Valid() && ReadAt(m, addr).Err?
    ensures || (addr < AddrVRAM && m.cart.Some? && addr as int >= |m.cart.value.data|)
            || (AddrCartRAM <= addr < AddrWRAM0 && m.cart.None?)
            || (AddrIO <= addr < AddrHRAM)
  {
  }

  /** Work RAM and high RAM: storage of the MMU's own that no other case or component reaches. */
  predicate Ram(addr: Word)
  {
    (AddrWRAM0 <= addr < AddrEcho) || (AddrHRAM <= addr < AddrIE)
  }

  /** A RAM write is seen at its own address and at no other RAM address. */
  lemma RamWriteRead(m: Memory, x: Word, y: Word, v: Byte)
    requires m.Valid() && Ram(x) && Ram(y)
    ensures WriteAt(m, x, v).Ok?
    ensures ReadAt(WriteAt(m, x, v).value, y) == if x == y then Ok(v) else ReadAt(m, y)
  {
    if AddrWRAM0 <= x < AddrEcho && AddrWRAM0 <= y < AddrEcho {
      WramWriteRead(m, x, y, v);
    } else if AddrHRAM <= x && AddrHRAM <= y {
      HramWriteRead(m, x, y, v);
    } else {
      RamWriteKeepsOtherBank(m, x, y, v);
    }
  }

  lemma WramWriteRead(m: Memory, x: Word, y: Word, v: Byte)
    requires m.Valid() && AddrWRAM0 <= x < AddrEcho && AddrWRAM0 <= y < AddrEcho
    ensures ReadAt(WriteAt(m, x, v).value, y) == if x == y then Ok(v) else ReadAt(m, y)
  {
    if x != y {
      WordToIntInjective(x - AddrWRAM0, y - AddrWRAM0);
    }
    StoreRead(m.wram, WramIndex(x), WramIndex(y), v);
  }

  lemma HramWriteRead(m: Memory, x: Word, y: Word, v: Byte)
    requires m.Valid() && AddrHRAM <= x < AddrIE && AddrHRAM <= y < AddrIE
    ensures ReadAt(WriteAt(m, x, v).value, y) == if x == y then Ok(v) else ReadAt(m, y)
  {
    if x != y {
      WordToIntInjective(x - AddrHRAM, y - AddrHRAM);
    }
    StoreRead(m.hram, HramIndex(x), HramIndex(y), v);
  }

  lemma RamWriteKeepsOtherBank(m: Memory, x: Word, y: Word, v: Byte)
    requires m.Valid() && Ram(x) && Ram(y)
    requires (AddrWRAM0 <= x < AddrEcho) != (AddrWRAM0 <= y < AddrEcho)
    ensures ReadAt(WriteAt(m, x, v).value, y) == ReadAt(m, y)
  {
  }

  /**
   * The addresses that read back what was written: VRAM and OAM with a PPU
   * attached, work RAM and its mirror, high RAM, and IE with a CPU attached.
   */
  predicate Plain(m: Memory, addr: Word)
  {
    || (m.video.Some? && (AddrVRAM <= addr < AddrCartRAM || AddrOAM <= addr < AddrEmpty))
    || (AddrWRAM0 <= addr < AddrOAM) || (AddrHRAM <= addr < AddrIE)
    || (m.ie.Some? && addr == AddrIE)
  }

  /** A plain address reads back the byte just written to it. */
  lemma WriteThenRead(m: Memory, addr: Word, v: Byte)
    requires m.Valid() && Plain(m, addr)
    ensures WriteAt(m, addr, v).Ok?
    ensures ReadAt(WriteAt(m, addr, v).value, addr) == Ok(v)
  {
    if AddrVRAM <= addr < AddrCartRAM {
      VramWindow(m, addr, v);
      VramWindow(WriteAt(m, addr, v).value, addr, v);
    } else if AddrOAM <= addr < AddrEmpty {
      OamWriteRead(m, addr, v);
    } else if AddrEcho <= addr < AddrOAM {
      EchoMirrors(m, addr, v);
      EchoMirrors(WriteAt(m, addr, v).value, addr, v);
    } else if Ram(addr) {
      RamWriteRead(m, addr, addr, v);
    }
  }

  lemma OamWriteRead(m: Memory, addr: Word, v: Byte)
    requires m.Valid() && m.video.Some? && AddrOAM <= addr < AddrEmpty
    ensures WriteAt(m, addr, v) == Ok(StoreOam(m, OamIndex(addr), v))
    ensures ReadAt(StoreOam(m, OamIndex(addr), v), addr) == Ok(v)
  {
  }

  // ---------------------------------------------------------------------
  // Properties of the CPU bus.

  /**
   * Only the VRAM gate ever acts: with a PPU attached and VRAM inaccessible,
   * VRAM reads 0 and ignores writes; every other access, OAM included
   * whatever OAMAccessible answers, is read or write unchanged.
   */
  lemma OnlyVramGated(m: Memory, vramOk: bool, oamOk: bool, addr: Word, v: Byte)
    requires m.Valid()
    ensures CpuReadAt(m, vramOk, oamOk, addr) == if VramGated(m, vramOk, addr) then Ok(0) else ReadAt(m, addr)
    ensures CpuWriteAt(m, vramOk, oamOk, addr, v) == if VramGated(m, vramOk, addr) then Ok(m) else WriteAt(m, addr, v)
  {
    OamGateEmpty(m, oamOk, addr);
  }

  /** The OAM gate's range is empty. */
  lemma OamGateEmpty(m: Memory, oamOk: bool, addr: Word)
    ensures !OamGated(m, oamOk, addr)
  {
  }

  /** Without a PPU the bus gates nothing. */
  lemma NoPpuNoGate(m: Memory, vramOk: bool, oamOk: bool, addr: Word, v: Byte)
    requires m.Valid() && m.video.None?
    ensures CpuReadAt(m, vramOk, oamOk, addr) == ReadAt(m, addr)
    ensures CpuWriteAt(m, vramOk, oamOk, addr, v) == WriteAt(m, addr, v)
  {
    OnlyVramGated(m, vramOk, oamOk, addr, v);
  }

  // ---------------------------------------------------------------------
  // Properties of the debugging accessors.

  /** On two RAM bytes, Write16 stores the low byte at addr and the high byte at addr + 1, and Read16 returns the value. */
  lemma Write16ThenRead16(m: Memory, addr: Word, v: Word)
    requires m.Valid() && Ram(addr) && Ram(addr + 1)
    ensures Write16At(m, addr, v).Ok?
    ensures ReadAt(Write16At(m, addr, v).value, addr) == Ok(Lo(v))
    ensures ReadAt(Write16At(m, addr, v).value, addr + 1) == Ok(Hi(v))
    ensures Read16At(Write16At(m, addr, v).value, addr) == Ok(v)
  {
    var m1 := WriteAt(m, addr, Lo(v)).value;
    RamWriteRead(m, addr, addr, Lo(v));
    RamWriteRead(m1, addr + 1, addr + 1, Hi(v));
    RamWriteRead(m1, addr + 1, addr, Hi(v));
    var m2 := WriteAt(m1, addr + 1, Hi(v)).value;
    assert CombineBytes(Hi(v), Lo(v)) == v by {
      assert SplitShort(v) == (Hi(v), Lo(v));
    }
  }

  // ---------------------------------------------------------------------
  // Properties of DMA.

  /** Until a copy is due, a DMA step changes nothing. */
  lemma DmaWaits(m: Memory, page: Byte, dmaClocks: int)
    requires m.Valid() && 0 <= dmaClocks && !DmaCopies(DMAClocks - dmaClocks)
    ensures StepDmaAt(m, page, dmaClocks) == Ok(m)
  {
  }

  /** The source and destination of the copy of byte offset: page * 0x100 + offset and 0xFE00 + offset. */
  lemma DmaAddresses(page: Byte, offset: Byte)
    requires offset <= 160
    ensures DmaSrc(page, offset) == CombineBytes(page, offset)
    ensures AddrOAM <= DmaDst(offset) < AddrIO && OamIndex(DmaDst(offset)) == offset as int
  {
    DmaDstOffset(offset);
    DmaSrcBytes(page, offset);
  }

  lemma DmaDstOffset(offset: Byte)
    requires offset <= 160
    ensures AddrOAM <= DmaDst(offset) < AddrIO && OamIndex(DmaDst(offset)) == offset as int
  {
    assert DmaDst(offset) - AddrOAM == offset as Word;
  }

  lemma DmaSrcBytes(page: Byte, offset: Byte)
    ensures DmaSrc(page, offset) == CombineBytes(page, offset)
  {
    assert (page as Word) * 0x100 == (page as Word) << 8;
  }

  /**
   * Once a copy is due, a DMA step with a PPU attached copies the byte read
   * at page * 0x100 + offset into OAM byte offset, where elapsed = 4 *
   * (offset + 1), and changes nothing else.
   */
  lemma DmaCopiesOneByte(m: Memory, page: Byte, dmaClocks: int)
    requires m.Valid() && m.video.Some? && 0 <= dmaClocks
    requires DmaCopies(DMAClocks - dmaClocks)
    requires ReadAt(m, CombineBytes(page, DmaOffset(DMAClocks - dmaClocks))).Ok?
    ensures var offset := DmaOffset(DMAClocks - dmaClocks);
      && 4 * (offset as int + 1) == DMAClocks - dmaClocks
      && StepDmaAt(m, page, dmaClocks)
        == Ok(StoreOam(m, offset as int, ReadAt(m, CombineBytes(page, offset)).value))
  {
    var offset := DmaOffset(DMAClocks - dmaClocks);
    DmaAddresses(page, offset);
  }

  // ---------------------------------------------------------------------
  // The MMU.

  class MMU {
    const wram: array<Byte>
    const hram: array<Byte>
    const cart: Option<Cartridge>
    const bootrom: GbBootRom.BootROM?
    var ppu: Ppu.PPU?

    /** The attached CPU, as the MMU uses it: its presence, its IE register and the interrupts requested of it. */
    var cpuAttached: bool
    var ie: Byte
    var requested: seq<nat>

    var dma: Byte
    var dmaClocks: int

    /** The PPU arrays the MMU writes through, when a PPU is attached. */
    ghost function PpuArrays(): set<object>
      reads this
    {
      if ppu == null then {} else {ppu.vram, ppu.oam}
    }

    /** The boot ROM's objects, when there is one. */
    ghost function BootParts(): set<object>
      reads this
    {
      if bootrom == null then {} else {bootrom, bootrom.rom}
    }

    /**
     * The arrays have their sizes, every array is distinct from the others,
     * and dmaClocks stays between 0 and DMAClocks (SetDMA is its only
     * writer).
     */
    ghost predicate Valid()
      reads this, BootParts()
    {
      && wram.Length == WramSize && hram.Length == HramSize && wram != hram
      && (bootrom != null ==> bootrom.Valid() && bootrom.rom != wram && bootrom.rom != hram)
      && (ppu != null ==>
            && ppu.vram.Length == VramSize && ppu.oam.Length == OamSize && ppu.vram != ppu.oam
            && ppu.vram != wram && ppu.vram != hram && ppu.oam != wram && ppu.oam != hram
            && (bootrom != null ==> bootrom.rom != ppu.vram && bootrom.rom != ppu.oam))
      && 0 <= dmaClocks <= DMAClocks
    }

    /** What read and write see. */
    function Snapshot(): (m: Memory)
      reads this, wram, hram, BootParts(), PpuArrays()
      ensures Valid() ==> m.Valid()
    {
      Memory(
        if bootrom == null then None else Some(Boot(bootrom.rom[..], bootrom.enabled)),
        cart,
        if ppu == null then None else Some(Video(ppu.vram[..], ppu.oam[..])),
        wram[..], hram[..],
        if cpuAttached then Some(ie) else None)
    }

    /** NewMMU, with the cartridge and boot ROM the model attaches at construction. */
    constructor (c: Option<Cartridge>, b: GbBootRom.BootROM?)
      requires b != null ==> b.Valid()
      ensures Valid() && fresh(wram) && fresh(hram)
      ensures cart == c && bootrom == b && ppu == null && !cpuAttached && requested == []
      ensures wram[..] == seq(WramSize, _ => 0) && hram[..] == seq(HramSize, _ => 0)
      ensures dma == 0 && dmaClocks == 0
    {
      wram := new Byte[WramSize](_ => 0);
      hram := new Byte[HramSize](_ => 0);
      cart, bootrom, ppu := c, b, null;
      cpuAttached, ie, requested := false, 0, [];
      dma, dmaClocks := 0, 0;
    }

    /** AttachCPU: IE and interrupt requests now reach the CPU. */
    method AttachCPU()
      modifies this`cpuAttached
      ensures cpuAttached
    {
      cpuAttached := true;
    }

    /** AttachPPU: VRAM and OAM addresses now reach p's arrays. */
    method AttachPPU(p: Ppu.PPU)
      requires Valid()
      requires p.vram.Length == VramSize && p.oam.Length == OamSize && p.vram != p.oam
      requires p.vram != wram && p.vram != hram && p.oam != wram && p.oam != hram
      requires bootrom != null ==> bootrom.rom != p.vram && bootrom.rom != p.oam
      modifies this`ppu
      ensures Valid() && ppu == p
    {
      ppu := p;
    }

    /**
     * write: the new memory is the one WriteAt computes. An I/O register
     * address reports failure and changes nothing.
     */
    method Write(addr: Word, v: Byte) returns (ok: bool)
      requires Valid()
      modifies this`ie, wram, hram, PpuArrays()
      ensures Valid()
      ensures var r := WriteAt(old(Snapshot()), addr, v);
        ok == r.Ok? && Snapshot() == if ok then r.value else old(Snapshot())
    {
      if addr < AddrWRAM0 {
        WriteLow(addr, v);
        ok := true;
      } else if addr < AddrIO {
        WriteMid(addr, v);
        ok := true;
      } else {
        ok := WriteHigh(addr, v);
      }
    }

    /** write below work RAM: cartridge ROM, VRAM and cartridge RAM. */
    method WriteLow(addr: Word, v: Byte)
      requires Valid() && addr < AddrWRAM0
      modifies PpuArrays()
      ensures Valid()
      ensures WriteAt(old(Snapshot()), addr, v) == Ok(Snapshot())
    {
      if AddrVRAM <= addr < AddrCartRAM && ppu != null {
        WriteVram(addr - AddrVRAM, v);
      }
      // Otherwise the cartridge's WriteROM, or no case at all: nothing changes.
    }

    /** write from work RAM up to the I/O registers: work RAM, its mirror and OAM. */
    method WriteMid(addr: Word, v: Byte)
      requires Valid() && AddrWRAM0 <= addr < AddrIO
      modifies wram, PpuArrays()
      ensures Valid()
      ensures WriteAt(old(Snapshot()), addr, v) == Ok(Snapshot())
    {
      if addr < AddrEcho {
        WriteWram(WramIndex(addr), v);
      } else if addr < AddrOAM {
        // The mirror's recursive write lands in work RAM.
        WriteWram(EchoIndex(addr), v);
      } else if ppu != null {
        WriteOam(addr - AddrOAM, v);
      }
    }

    /** write from the I/O registers up: high RAM and IE; the I/O registers themselves fail. */
    method WriteHigh(addr: Word, v: Byte) returns (ok: bool)
      requires Valid() && AddrIO <= addr
      modifies this`ie, hram
      ensures Valid()
      ensures var r := WriteAt(old(Snapshot()), addr, v);
        ok == r.Ok? && Snapshot() == if ok then r.value else old(Snapshot())
    {
      ok := true;
      if addr < AddrHRAM {
        ok := false;
      } else if addr < AddrIE {
        WriteHram(HramIndex(addr), v);
      } else if cpuAttached {
        ghost var m := Snapshot();
        ie := v;
        assert Snapshot() == m.(ie := Some(v));
      }
    }

    /** PPU.WriteVRAM through the attached PPU. */
    method WriteVram(off: Word, v: Byte)
      requires Valid() && ppu != null && off as int < VramSize
      modifies ppu.vram
      ensures Snapshot() == StoreVram(old(Snapshot()), off as int, v)
    {
      ppu.WriteVRAM(off, v);
      assert ppu.vram[..] == old(ppu.vram[..])[off as int := v];
    }

    /** PPU.WriteOAM through the attached PPU. */
    method WriteOam(off: Word, v: Byte)
      requires Valid() && ppu != null && off as int < OamSize
      modifies ppu.oam
      ensures Snapshot() == StoreOam(old(Snapshot()), off as int, v)
    {
      ppu.WriteOAM(off, v);
      assert ppu.oam[..] == old(ppu.oam[..])[off as int := v];
    }

    /** A store into work RAM. */
    method WriteWram(i: nat, v: Byte)
      requires Valid() && i < WramSize
      modifies wram
      ensures Snapshot() == old(Snapshot()).(wram := Store(old(wram[..]), i, v))
    {
      wram[i] := v;
    }

    /** A store into high RAM. */
    method WriteHram(i: nat, v: Byte)
      requires Valid() && i < HramSize
      modifies hram
      ensures Snapshot() == old(Snapshot()).(hram := Store(old(hram[..]), i, v))
    {
      hram[i] := v;
    }

    /** CPUBus.Write: the gates of CpuWriteAt, then write. */
    method CpuWrite(addr: Word, v: Byte, vramOk: bool, oamOk: bool) returns (ok: bool)
      requires Valid()
      modifies this`ie, wram, hram, PpuArrays()
      ensures Valid()
      ensures var r := CpuWriteAt(old(Snapshot()), vramOk, oamOk, addr, v);
        ok == r.Ok? && Snapshot() == if ok then r.value else old(Snapshot())
    {
      if ppu != null {
        if addr >= AddrVRAM && addr < AddrCartRAM && !vramOk {
          return true;
        }
        if addr >= AddrOAM && addr < AddrOAM && !oamOk {
          return true;
        }
      }
      ok := Write(addr, v);
    }

    /** Write16: two writes, low byte first. */
    method Write16(addr: Word, v: Word) returns (ok: bool)
      requires Valid()
      modifies this`ie, wram, hram, PpuArrays()
      ensures Valid()
      ensures var r := Write16At(old(Snapshot()), addr, v);
        ok == r.Ok? && (ok ==> Snapshot() == r.value)
    {
      ok := Write(addr, Lo(v));
      if ok {
        ok := Write(addr + 1, Hi(v));
      }
    }

    /** requestInterrupt: forwarded only when a CPU is attached. */
    method RequestInterrupt(interrupt: nat)
      modifies this`requested
      ensures requested == old(requested) + if cpuAttached then [interrupt] else []
    {
      if cpuAttached {
        requested := requested + [interrupt];
      }
    }

    /** SetDMA: records the source page and restarts the transfer clock. */
    method SetDMA(v: Byte)
      requires Valid()
      modifies this`dma, this`dmaClocks
      ensures Valid() && dma == v && dmaClocks == DMAClocks
    {
      dma := v;
      dmaClocks := DMAClocks;
    }

    /**
     * stepDMA: the memory StepDmaAt computes. It never changes dma or
     * dmaClocks (its modifies clause leaves them out).
     */
    method StepDMA() returns (ok: bool)
      requires Valid()
      modifies this`ie, wram, hram, PpuArrays()
      ensures Valid()
      ensures var r := StepDmaAt(old(Snapshot()), dma, dmaClocks);
        ok == r.Ok? && Snapshot() == if ok then r.value else old(Snapshot())
    {
      var clocks := DMAClocks - dmaClocks;
      if clocks < 4 || clocks % 4 != 0 {
        return true;
      }
      var offset := DmaOffset(clocks);
      var b := ReadAt(Snapshot(), DmaSrc(dma, offset));
      if b.Err? {
        return false;
      }
      ok := Write(DmaDst(offset), b.value);
    }
  }
}
