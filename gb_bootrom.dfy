/** The boot ROM latch of the monolithic emulator (gb/bootrom.go). */
module GbBootRom {
  import opened Bits
  import opened Outcomes

  /** Size of the DMG boot ROM image. */
  const BootRomSize := 0x100

  class BootROM {
    /** The copied image (a fixed [0x100]uint8 array in Go). */
    const rom: array<Byte>
    /** Whether the image is still mapped over the cartridge. */
    var enabled: bool

    ghost predicate Valid()
      reads this
    {
      rom.Length == BootRomSize
    }

    /** The body of NewBootROM once the size check has passed. */
    constructor (image: seq<Byte>)
      requires |image| == BootRomSize
      ensures Valid() && fresh(rom)
      ensures enabled && rom[..] == image
    {
      rom := new Byte[BootRomSize](i requires 0 <= i < BootRomSize => image[i]);
      enabled := true;
    }

    /** Read indexes the 256-byte array; a larger address panics in Go. */
    function Read(addr: Word): (r: Result<Byte>)
      requires Valid()
      reads this, rom
      ensures r.Ok? <==> addr < 0x100
      ensures r.Ok? ==> r.value == rom[addr as int]
    {
      if addr < 0x100 then Ok(rom[addr as int]) else Err(OutOfRange(addr as int))
    }

    /** BOOT reads 0 while the image is mapped and 1 once it is switched off. */
    function BOOT(): (r: Byte)
      reads this
      ensures r == 0 || r == 1
      ensures r == 0 <==> enabled
    {
      if enabled then 0 else 1
    }

    /** SetBOOT: only the value 1 unmaps the image; any other value maps it again. */
    method SetBOOT(v: Byte)
      modifies this`enabled
      ensures enabled <==> v != 1
      ensures BOOT() == (if v == 1 then 1 else 0)
    {
      if v == 1 {
        enabled := false;
      } else {
        enabled := true;
      }
    }
  }

  /** NewBootROM rejects any image that is not exactly 256 bytes long. */
  method NewBootROM(image: seq<Byte>) returns (r: Result<BootROM>)
    ensures r.Err? <==> |image| != BootRomSize
    ensures r.Err? ==> r.failure == BadSize(|image|)
    ensures r.Ok? ==> fresh(r.value) && fresh(r.value.rom) && r.value.Valid()
    ensures r.Ok? ==> r.value.enabled && r.value.rom[..] == image
  {
    if |image| != BootRomSize {
      return Err(BadSize(|image|));
    }
    var b := new BootROM(image);
    return Ok(b);
  }
}
