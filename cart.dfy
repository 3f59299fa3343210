/** The cartridge stub (cart/cartridge.go): a ROM image with no banking and no RAM yet. */
module Cart {
  import opened Bits
  import opened Outcomes

  datatype Cartridge = Cartridge(data: seq<Byte>)

  /** NewCartridge never fails and keeps the given bytes. */
  function NewCartridge(data: seq<Byte>): (r: Result<Cartridge>)
    ensures r.Ok? && r.value.data == data
  {
    Ok(Cartridge(data))
  }

  /**
   * ReadROM indexes the image directly; an address at or past its end is an
   * index-out-of-range panic in Go, a failure here.
   */
  function ReadROM(c: Cartridge, addr: Word): (r: Result<Byte>)
    ensures r.Ok? <==> (addr as int) < |c.data|
    ensures r.Ok? ==> r.value == c.data[addr as int]
    ensures r.Err? ==> r.failure == OutOfRange(addr as int)
  {
    if (addr as int) < |c.data| then Ok(c.data[addr as int]) else Err(OutOfRange(addr as int))
  }

  /** WriteROM (the future bank-switch hook) changes nothing. */
  function WriteROM(c: Cartridge, addr: Word, v: Byte): (r: Cartridge)
    ensures r == c
  {
    c
  }

  /** ReadRAM always answers 0. */
  function ReadRAM(c: Cartridge, addr: Word): (r: Byte)
    ensures r == 0
  {
    0
  }

  /** WriteRAM changes nothing. */
  function WriteRAM(c: Cartridge, addr: Word, v: Byte): (r: Cartridge)
    ensures r == c
  {
    c
  }

  /** Writes never affect what the ROM reads back. */
  lemma WritesInvisible(c: Cartridge, a: Word, v: Byte, b: Word)
    ensures ReadROM(WriteROM(c, a, v), b) == ReadROM(c, b)
    ensures ReadROM(WriteRAM(c, a, v), b) == ReadROM(c, b)
    ensures ReadRAM(WriteRAM(c, a, v), b) == 0
  {
  }
}
