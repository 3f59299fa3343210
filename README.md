# A verified model of the go-gb-emu core

go-gb-emu is a Game Boy (DMG) emulator written in Go. This project models its emulation core in Dafny and proves properties of that model:

- the CPU: registers, flags, the arithmetic helpers, the instruction table with its cycle costs, interrupt dispatch and the timer;
- the memory map and its I/O register rules, and OAM DMA;
- the joypad matrix;
- the PPU: the scanline and mode counter, OAM search, the pixel fetcher, pixel transfer and palette resolution;
- the boot ROM latch, the cartridge stub, and the clock budget of the GameBoy tick loop.

The repository holds two generations of this core that do not compile together. Each is modelled in its own modules:

- **The monolithic `gb` package**:
  - `gb_alu.dfy`, `gb_isa.dfy`, `gb_machine.dfy` and `gb_cpu.dfy` model gb/cpu.go, gb/instructions.go, gb/interrupts.go and gb/timers.go;
  - `gb_memory_map.dfy` models gb/memory.go and gb/io.go;
  - `gb_joypad.dfy` models gb/joypad.go;
  - `gb_bootrom.dfy` models gb/bootrom.go;
  - `gb_ppu.dfy`, `gb_fetcher.dfy`, `gb_oam_search.dfy`, `gb_pixel_transfer.dfy` and `gb_pixel.dfy` model the PPU.
- **The split packages**:
  - `cpu_state.dfy`, `cpu_timing.dfy`, `cpu_ops.dfy` and `cpu.dfy` model gb/cpu;
  - `mmu.dfy` models gb/mmu;
  - `ppu.dfy`, `ppu_fetcher.dfy`, `ppu_tiles.dfy` and `ppu_pixel.dfy` model gb/ppu;
  - `joypad.dfy` models gb/joypad;
  - `cart.dfy` models cart/cartridge.go;
  - `gb_gameboy.dfy` models gb/gameboy.go, which drives the split CPU.
- **Shared by both**: `utils.dfy` (utils/utils.go), `sprites.dfy` (the OAM entry decoding, identical in both generations), `joypad_matrix.dfy` and `outcomes.dfy` (Option and Result).

**How state is modelled.**

- Pure computations are functions over values.
- Objects whose methods update fields in place are classes. Each method is proved to leave exactly the state that a specification function computes, and the properties are then proved about those functions.
- Go's panics (an index out of range, a call through a nil interface) and `log.Fatal` become the `Err` cases of a `Result`.
- The Go arrays that Memory.Write and the MMU store into are modelled as values.

**The code as written.** The model follows the code as written, quirks included:

- ADC and SBC add a constant 1;
- CP stores its difference in A;
- the memory map compares against decimal 8000;
- STAT() returns LCDC;
- OAM search decodes at sc * 2;
- the fetcher discards x & 3 pixels;
- and others.

Four behaviours look unintended. For each of them the executable model still runs the code as written, and a lemma exhibits an input that shows the defect. A corrected definition sits beside it, with the evidently intended property proved about it. The four are listed under Findings.

## Model

| member | source | states |
|---|---|---|
| Bits.CombineBytes | utils/utils.go:4-6 | the first byte becomes the high byte and the second the low byte of the result |
| Bits.SplitShort | utils/utils.go:9-11 | the two bytes returned recombine, high byte first, into the input word |
| Bits.SplitCombine | utils/utils.go:4-11 | splitting a combined word gives back the two bytes in their order |
| Bits.SetBit | utils/utils.go:19-25 | after the call bit i reads as the requested value; a position of 8 or more leaves the byte unchanged because the mask is a uint8 |
| Bits.SetBitKeepsOthers | utils/utils.go:19-25 | every bit other than i reads as before |
| Bits.SetBitIdempotent | utils/utils.go:19-25 | setting the same bit to the same value twice is the same as once |
| Bits.MaskIsShift | utils/utils.go:21 | the table of single-bit masks equals the shift `1 << i` for i in 0..7 |
| Bits.BitsDetermine | utils/utils.go:14-16 | two bytes that agree on GetBit at positions 0..7 are equal |
| Cart.NewCartridge | cart/cartridge.go:9-15 | construction never fails and keeps the given image |
| Cart.ReadROM | cart/cartridge.go:18-20 | a read succeeds exactly when the address is inside the image and then answers the byte stored there; otherwise it fails as an index out of range |
| Cart.WriteROM | cart/cartridge.go:23-25 | the cartridge is unchanged |
| Cart.ReadRAM | cart/cartridge.go:28-31 | the answer is always 0 |
| Cart.WriteRAM | cart/cartridge.go:34-36 | the cartridge is unchanged |
| Cart.WritesInvisible | cart/cartridge.go:18-36 | no ROM or RAM write changes what a later ROM or RAM read answers |
| GbAlu.OpAdd | gb/instructions.go:858-868 | the result is a + b + cy modulo 256; Z means a zero result; N is clear (H and C in the two lemmas below) |
| GbAlu.AddHalfCarry | gb/instructions.go:863 | for a carry-in of 0 or 1, H is exactly the carry out of bit 3 into bit 4 |
| GbAlu.AddCarry | gb/instructions.go:859-866 | for a carry-in of 0 or 1, C is exactly unsigned overflow of the 8-bit sum |
| GbAlu.OpSub | gb/instructions.go:871-881 | the result is a - b - bw modulo 256; Z means a zero result; N is set |
| GbAlu.SubHalfBorrow | gb/instructions.go:876 | H is set exactly when the low nibble of a is smaller than the low nibbles of b and bw together |
| GbAlu.SubBorrow | gb/instructions.go:872-877 | for a borrow of 0 or 1, C is set exactly when a < b + bw |
| GbAlu.SubUndoesAdd | gb/instructions.go:858-881 | adding b and bw back to a - b - bw gives a, and the add's carry equals the subtraction's borrow |
| GbAlu.OpInc | gb/instructions.go:896-902 | the result is v + 1; Z exactly when v was 0xFF; N clear; H exactly when the low nibble was 0xF; C keeps its old value |
| GbAlu.OpDec | gb/instructions.go:905-911 | the result is v - 1; Z exactly when v was 1; N set; H exactly when the low nibble was 0; C keeps its old value |
| GbAlu.SignExtend | gb/instructions.go:885 | the low byte is the offset and the high byte is 0xFF for a negative offset and 0x00 otherwise |
| GbAlu.OpSignedAdd | gb/instructions.go:884-893 | the result is a plus the sign-extended offset modulo 2^16; Z and N clear; H and C are those of the unsigned 8-bit add of a's low byte and the offset |
| GbAlu.SignedAddLowByte | gb/instructions.go:884-888 | the low byte of the sum is the 8-bit sum whose flags are reported |
| GbAlu.SignedAddNegative | gb/instructions.go:885 | an offset of 0x80 or more moves a down by 0x100 minus the offset |
| GbAlu.OpAnd | gb/instructions.go:943-952 | the result is a AND b; Z exactly when it is zero; H set, N and C clear |
| GbAlu.OpXor | gb/instructions.go:955-964 | the result is a XOR b; Z exactly when a == b; N, H and C clear |
| GbAlu.OpOr | gb/instructions.go:967-976 | the result is a OR b; Z exactly when both operands are zero; N, H and C clear |
| GbAlu.OpCp | gb/instructions.go:979-988 | the difference a - b is returned; Z means a == b, C means a < b, H means a's low nibble is below b's; N set |
| GbAlu.CpIsSub | gb/instructions.go:871-988 | the comparison gives exactly the value and flags of a subtraction without borrow |
| GbAlu.OpAdd16 | gb/instructions.go:991-1001 | the result is a + b modulo 2^16; Z keeps its old value; N clear |
| GbAlu.Add16HalfCarry | gb/instructions.go:997 | the test on the low 12 bits is exactly the carry out of bit 11 |
| GbAlu.Add16Carry | gb/instructions.go:992-998 | C is exactly the carry out of bit 15 |
| GbAlu.OpDaa | gb/instructions.go:914-939 | the order as written: Z means a zero result, H cleared, N kept; after an addition C is never cleared, after a subtraction C is kept |
| GbAlu.DaaCarryMeansAdjust | gb/instructions.go:916-924 | after an addition, C is set exactly when 0x60 (or 0x66) was added |
| GbAlu.OpDaaIntended | gb/instructions.go:914-939 | corrected order (the carry test reads the unadjusted value), kept beside the code as written: the same flag rules, and after a subtraction it agrees with the code as written |
| GbAlu.BcdAdd | gb/instructions.go:914-939 | reference decimal adder: the result is a BCD byte |
| GbAlu.BcdSub | gb/instructions.go:914-939 | reference decimal subtractor: the result is a BCD byte |
| GbAlu.DaaAfterAdd | gb/instructions.go:858-939 | with the corrected order, DAA after ADD/ADC of two BCD bytes gives their decimal sum modulo 100, with C exactly the decimal carry |
| GbAlu.BcdBorrow | gb/instructions.go:871-881 | for BCD operands the binary borrow of SUB/SBC is the decimal borrow |
| GbAlu.BcdSubDigits | gb/instructions.go:926-933 | for BCD operands the DAA corrections turn the binary difference into the decimal difference |
| GbAlu.DaaAfterSub | gb/instructions.go:871-939 | DAA after SUB/SBC of two BCD bytes gives their decimal difference with C the decimal borrow |
| GbAlu.DaaAsWrittenLosesCarry | gb/instructions.go:916-924 | counterexample: 0x61 + 0x99 then DAA as written gives 0x00 with C clear, where the decimal sum needs 0x60 with C set, as the corrected order gives |
| GbIsa.OperandOf | gb/instructions.go:84-335 | register codes 0-7 name B, C, D, E, H, L, (HL), A and never the immediate operand |
| GbIsa.CycleTable | gb/instructions.go:84-799 | register-to-register loads and register ALU/INC/DEC entries return 4 cycles, memory or immediate ALU operands and one-memory-operand loads 8, POP 12 |
| GbIsa.OperandRoundTrip | gb/instructions.go:84-335 | every register operand decodes back from its register code |
| GbIsa.CodeRoundTrip | gb/instructions.go:84-767 | every register code and ALU code encodes back to itself |
| GbIsa.DecodeOpcode | gb/instructions.go:6-855 | every instruction form that has a table entry decodes back from the opcode the encoder gives it |
| GbIsa.OpcodeDecode | gb/instructions.go:6-855 | every filled slot of the table is the opcode of the form it decodes to, so Decode and Opcode are inverse on the 205 filled slots |
| GbIsa.AdcAddsOne | gb/instructions.go:544-775 | the ADC entries pass the constant 1 as carry, so ADC always yields one more than ADD whatever the C flag holds |
| GbIsa.SbcSubtractsOne | gb/instructions.go:608-783 | the SBC entries pass the constant 1 as borrow, so SBC always yields one less than SUB |
| GbIsa.CpActsAsSub | gb/instructions.go:736-799 | the CP entries store opCp's result into A, so CP leaves exactly what SUB leaves, A becoming a - v |
| GbMachine.WithFlags | gb/cpu.go:190-216 | the four flag setters leave F reading exactly the given flags and keep its low nibble |
| GbMachine.MaskF | gb/cpu.go:147-150 | F's low nibble reads 0 and its high nibble is the value written |
| GbMachine.Set8 | gb/cpu.go:91-141 | a register setter changes that register to the value and no other register, flag, SP, PC or CPU flag |
| GbMachine.PairRoundTrip | gb/cpu.go:152-183 | BC, DE and HL (and SP) read back what was stored; AF reads back the value with F's low nibble cleared |
| GbMachine.SetPairF | gb/cpu.go:156-183 | SetAF leaves the low nibble of F clear; the other pair setters change only their own two registers (or SP) |
| GbMachine.AfterFetch | gb/cpu.go:247-256 | IncPC changes only PC and disarms the halt bug |
| GbMachine.IncPC | gb/cpu.go:247-256 | IncPC succeeds exactly when the byte at PC can be read, answers that byte, and leaves the machine as AfterFetch says (PC held back while the halt bug is armed) |
| GbMachine.IncPC16 | gb/cpu.go:259-263 | the machine after IncPC16 is the one after two IncPC calls |
| GbMachine.IncPC16Fetches | gb/cpu.go:259-263 | IncPC16 succeeds whenever the bytes at PC and PC + 1 can be read |
| GbMachine.IncPC16Order | gb/cpu.go:259-263 | the first byte fetched is the low byte of the result and the second the high byte |
| GbMachine.IncPC16Advances | gb/cpu.go:247-263 | IncPC16 moves PC by 2, or by 1 when the halt bug is armed, and leaves the bug disarmed |
| GbMachine.PushSP | gb/cpu.go:224-227 | SP drops by 2 and no other register changes |
| GbMachine.PopSP | gb/cpu.go:230-234 | SP rises by 2 and no other register or memory changes |
| GbMachine.PushThenPopValue | gb/cpu.go:224-234 | with the stack in RAM, a pop right after a push answers the pushed value |
| GbMachine.PushThenPopRegs | gb/cpu.go:224-234 | a pop right after a push restores SP and every other register |
| GbMachine.PushKeepsRegisters | gb/cpu.go:224-227 | a push into RAM changes no I/O register, no IE and no PPU register |
| GbMachine.RequestInterrupt | gb/interrupts.go:58-62 | the bus stays well formed |
| GbMachine.RequestSetsOneBit | gb/interrupts.go:58-68 | a request sets IF bit i, keeps every other IF bit (bits 5-7 reading high), and writes nothing but IF |
| GbMachine.LowestPending | gb/interrupts.go:36-52 | the answer is the lowest set bit from i up to 4, and no bit from i up to 4 is set when there is none |
| GbMachine.HandleInterrupts | gb/interrupts.go:17-55 | interrupt handling changes only halt, IME, SP and PC among the registers |
| GbMachine.NoInterruptPending | gb/interrupts.go:18-25 | with nothing pending in IE & IF nothing changes and no cycles are spent |
| GbMachine.PendingWithoutIme | gb/interrupts.go:27-33 | with a request pending and the sampled IME clear, halt ends and nothing else happens |
| GbMachine.PendingAboveBitFour | gb/interrupts.go:27-54 | with only bits 5-7 pending, halt ends and nothing is dispatched |
| GbMachine.LowestPendingIs | gb/interrupts.go:36-37 | the loop stops at k when bit k is set and no lower bit is |
| GbMachine.VectorTable | gb/interrupts.go:9-48 | VBlank, STAT, Timer, Serial and Joypad vector to 0x40, 0x48, 0x50, 0x58 and 0x60 |
| GbMachine.Acknowledge | gb/interrupts.go:39-45 | the dispatch clears IME and drops SP by 2, changing no other register |
| GbMachine.Dispatch | gb/interrupts.go:17-51 | when k is the lowest pending bit and IME was set, 20 cycles are spent, IME and halt are cleared, SP drops by 2 and PC becomes k's vector |
| GbMachine.AcknowledgePushesPC | gb/interrupts.go:41-45 | the dispatch leaves the old PC on top of the stack and clears IF bit k |
| GbMachine.Divisor | gb/timers.go:20-35 | TAC's low bits 0, 1, 2 and 3 select counter bits 9, 3, 5 and 7 |
| GbMachine.TimerReload | gb/timers.go:40-49 | the start of a sub-step clears the overflow latch and changes no other register and not the counter |
| GbMachine.TimerTick | gb/timers.go:51-65 | the end of a sub-step changes at most the overflow latch among the registers |
| GbMachine.TimerSubStep | gb/timers.go:38-69 | one sub-step changes at most the overflow latch among the registers and not the counter |
| GbMachine.TimerLoop | gb/timers.go:38-69 | the loop changes at most the overflow latch among the registers and not the counter |
| GbMachine.UpdateTimers | gb/timers.go:8-70 | the internal counter advances by the cycles (modulo 2^16) and no register but the overflow latch changes |
| GbMachine.TimerDisabled | gb/timers.go:11-18 | with TAC bit 2 clear only the internal counter moves |
| GbMachine.SubStepEdge | gb/timers.go:51-65 | without a pending overflow TIMA grows by one exactly on a falling edge of the divisor bit, the latch arms exactly when that wraps 0xFF, and IF is untouched |
| GbMachine.SubStepReload | gb/timers.go:40-49 | a pending overflow reloads TIMA from TMA, requests the timer interrupt and clears the latch |
| GbMachine.SubSteps | gb/timers.go:38-69 | n sub-steps keep the bus well formed |
| GbMachine.LoopIsSubSteps | gb/timers.go:38-69 | the loop over cycles runs exactly ceil(cycles / 4) sub-steps, the counter advancing by 4 each |
| GbMachine.SetFlags | gb/cpu.go:190-216 | F reads the given flags and IME, halt and a clear low nibble are kept |
| GbMachine.ReadOperand | gb/instructions.go:16-112 | reading a register or (HL) changes nothing; reading the immediate byte is an IncPC |
| GbMachine.WriteOperand | gb/instructions.go:84-303 | storing into a register or (HL) changes no flag, IME or halt |
| GbMachine.ExecLd8 | gb/instructions.go:16-335 | the 8-bit loads keep IME, halt and a clear low nibble of F |
| GbMachine.IndirectAddr | gb/instructions.go:12-359 | computing the address changes no memory and no register but PC and the halt bug |
| GbMachine.AfterIndirect | gb/instructions.go:44-79 | the (HL+) and (HL-) forms change only H and L |
| GbMachine.ExecLoadA | gb/instructions.go:20-359 | the LD A,(x) forms keep IME, halt and a clear low nibble of F |
| GbMachine.LoadA | gb/instructions.go:20-59 | the load succeeds exactly when the address can be read, and then A holds the byte read, HL moves for the (HL+)/(HL-) forms, and memory is unchanged |
| GbMachine.ExecStoreA | gb/instructions.go:12-347 | the LD (x),A forms keep IME, halt and a clear low nibble of F |
| GbMachine.StoreThenLoadA | gb/instructions.go:12-39 | LD (BC),A or LD (DE),A into plain memory followed by the matching load reads A back and leaves the machine as the store left it |
| GbMachine.ExecLd16Imm | gb/instructions.go:362-381 | LD rr,d16 keeps IME, halt and a clear low nibble of F |
| GbMachine.ExecLdAbsSP | gb/instructions.go:366-369 | LD (a16),SP keeps IME, halt and a clear low nibble of F |
| GbMachine.ExecPop | gb/instructions.go:382-413 | POP keeps IME, halt and a clear low nibble of F (POP AF clearing it through SetAF) |
| GbMachine.ExecPush | gb/instructions.go:386-413 | PUSH keeps IME, halt and a clear low nibble of F |
| GbMachine.ExecLdHLSPOffset | gb/instructions.go:414-417 | LD HL,SP+r8 keeps IME, halt and a clear low nibble of F |
| GbMachine.LdHLSPOffsetSum | gb/instructions.go:414-417 | once the offset byte is fetched the entry succeeds, HL holds opSignedAdd's SP plus the signed offset, and SP is unchanged |
| GbMachine.ExecIncDec8 | gb/instructions.go:424-505 | INC/DEC of a register or (HL) keep IME, halt and a clear low nibble of F |
| GbMachine.IncDec8Reg | gb/instructions.go:424-505 | INC r and DEC r put opInc's or opDec's result in the register and its flags in F |
| GbMachine.IncThenDec8 | gb/instructions.go:424-505 | INC r followed by DEC r gives every register back, only F differing, with C untouched |
| GbMachine.ExecDaa | gb/instructions.go:464-467 | DAA, run in the order as written (GbAlu.OpDaa), keeps IME, halt and a clear low nibble of F |
| GbMachine.ExecCpl | gb/instructions.go:476-481 | CPL keeps IME, halt and a clear low nibble of F |
| GbMachine.CplComplements | gb/instructions.go:476-481 | CPL complements A, sets N and H, keeps Z and C and changes no other register |
| GbMachine.CplInvolution | gb/instructions.go:476-481 | CPL twice gives A back |
| GbMachine.ExecScf | gb/instructions.go:492-497 | SCF keeps IME, halt and a clear low nibble of F |
| GbMachine.ScfSetsCarry | gb/instructions.go:492-497 | SCF sets C, clears N and H, keeps Z and changes no other register |
| GbMachine.ExecCcf | gb/instructions.go:506-511 | CCF keeps IME, halt and a clear low nibble of F |
| GbMachine.CcfFlipsCarry | gb/instructions.go:506-511 | CCF complements C, clears N and H, keeps Z and changes no other register |
| GbMachine.CarryFlagOps | gb/instructions.go:492-511 | SCF then CCF leaves C clear, and CCF twice gives C back |
| GbMachine.ExecAlu | gb/instructions.go:512-799 | the ALU entries keep IME, halt and a clear low nibble of F |
| GbMachine.IncDec16Regs | gb/instructions.go:802-849 | INC rr and DEC rr change only the pair's registers or SP |
| GbMachine.ExecIncDec16 | gb/instructions.go:802-849 | INC rr and DEC rr keep IME, halt and F |
| GbMachine.ExecAddHL | gb/instructions.go:806-845 | ADD HL,rr keeps IME, halt and a clear low nibble of F |
| GbMachine.AddHLSums | gb/instructions.go:806-1001 | ADD HL,rr leaves opAdd16's sum of HL and rr in HL and its flags in F and changes no other register |
| GbMachine.StoreHL | gb/cpu.go:172-216 | storing HL after the flags: HL reads back the value, F reads the flags, and only H, L and F change |
| GbMachine.ExecAddSPOffset | gb/instructions.go:850-853 | ADD SP,r8 keeps IME, halt and a clear low nibble of F |
| GbMachine.AddSPOffsetSum | gb/instructions.go:850-853 | once the offset byte is fetched the entry succeeds and SP moves by the sign-extended offset |
| GbMachine.Exec | gb/instructions.go:6-855 | no table entry changes IME or halt, and every entry keeps the low nibble of F clear |
| GbMachine.Run | gb/cpu.go:62-75 | halted or running, the instruction phase keeps IME, halt and a clear low nibble of F |
| GbMachine.Step | gb/cpu.go:56-84 | a step that succeeds keeps the bus well formed and keeps the low nibble of F clear |
| GbMachine.AfterRun | gb/cpu.go:77-83 | interrupt handling and the timers succeed exactly when the instruction did, and leave F as the instruction left it |
| GbMachine.LdCopiesRegister | gb/instructions.go:84-335 | LD r,r' copies the source register into the destination and changes nothing else |
| GbMachine.CarryFlagIgnored | gb/instructions.go:544-639 | ADC and SBC leave the same A whatever F holds |
| GbMachine.CpOverwritesA | gb/instructions.go:736-767 | CP r stores a - r in A, with Z meaning the two were equal |
| GbMachine.IncDec16Inverse | gb/instructions.go:802-849 | INC rr undoes DEC rr and DEC rr undoes INC rr |
| GbMachine.IncDec16IsStore | gb/instructions.go:802-849 | INC rr and DEC rr store the pair plus or minus one |
| GbMachine.SetPairTwice | gb/cpu.go:156-239 | a second store to a pair overwrites the first |
| GbMachine.SetPairOwn | gb/cpu.go:152-174 | storing a pair's own value changes nothing |
| GbMachine.PushPopMoves | gb/instructions.go:382-413 | PUSH rr then POP rr' with the stack in RAM moves rr into rr' (POP AF masking F) and restores SP |
| GbMachine.HaltedStep | gb/cpu.go:63-64 | while halted with nothing pending a step spends 4 cycles and changes no register but the overflow latch (see also gb/interrupts.go:23-25) |
| GbMachine.UnimplementedStep | gb/cpu.go:66-71 | an empty table slot (HALT among them) is an error naming the opcode once it is fetched |
| GbMachine.StepCost | gb/cpu.go:74-78 | a running step is charged the entry's cycle count, plus 20 when an interrupt is dispatched (see also gb/interrupts.go:50) |
| GbMemoryMap.VramIndex | gb/memory.go:67-115 | a video RAM address indexes the first 0x2000 bytes of the VRAM array |
| GbMemoryMap.WrappedIndex | gb/memory.go:61-68 | an address in 0x4000-0x7FFF reaching the VRAM case gives an index of at least 0x4000, past the end of the array |
| GbMemoryMap.WramIndex | gb/memory.go:76-123 | a work RAM address indexes the work RAM array |
| GbMemoryMap.EchoIndex | gb/memory.go:80-127 | an echo address lands in work RAM, below 0x1E00 |
| GbMemoryMap.OamIndex | gb/memory.go:84-131 | an OAM address indexes the first 0xA0 bytes of the OAM array |
| GbMemoryMap.IoIndex | gb/io.go:83-136 | an I/O address indexes the 0x80-byte register array |
| GbMemoryMap.HramIndex | gb/memory.go:96-139 | a high RAM address indexes the 0xFF-byte array below 0x7F |
| GbMemoryMap.Read | gb/memory.go:49-107 | a read fails (Go's index-out-of-range panic) exactly for 0x4000-0x7FFF, the addresses the decimal 8000 comparison lets into the VRAM case |
| GbMemoryMap.ReadMapped | gb/memory.go:56-106 | the case analysis after the boot overlay fails exactly for 0x4000-0x7FFF |
| GbMemoryMap.Write | gb/memory.go:110-146 | a write keeps the arrays' sizes, the boot image and LY |
| GbMemoryMap.WriteIO | gb/io.go:104-139 | a register write keeps the arrays' sizes |
| GbMemoryMap.BootOverlay | gb/memory.go:53-59 | below 0x100 a read answers the boot image while BOOT bit 0 is clear and 0 (cartridge bank 0) once it is set (see also gb/io.go:67-69) |
| GbMemoryMap.UnbackedReadsZero | gb/memory.go:57-89 | cartridge ROM bank 0 above the boot ROM, cartridge RAM and 0xFEA0-0xFEFF read as 0 |
| GbMemoryMap.EchoMirrorsWram | gb/memory.go:80-127 | echo RAM reads and writes act exactly as at addr - 0x2000, on the work RAM byte |
| GbMemoryMap.BootFlagRead | gb/io.go:67-69 | the boot ROM is enabled exactly while bit 0 of the BOOT register reads clear |
| GbMemoryMap.IgnoredWrites | gb/memory.go:110-146 | writes below 0x8000, to cartridge RAM and to 0xFEA0-0xFEFF change nothing |
| GbMemoryMap.WriteThenRead | gb/memory.go:49-146 | VRAM, work RAM, echo RAM, OAM, high RAM and IE read back the byte just written |
| GbMemoryMap.RamWriteRead | gb/memory.go:76-139 | a work or high RAM write is seen at its own address and at no other RAM address |
| GbMemoryMap.RamWriteKeepsRegisters | gb/memory.go:122-139 | a RAM write changes no I/O register, IE, counter, PPU register, VRAM or OAM |
| GbMemoryMap.PlainRegisterRoundTrip | gb/io.go:97-136 | an I/O register without a special case stores the byte written and reads it back |
| GbMemoryMap.DivRegister | gb/io.go:77-118 | DIV reads the counter's high byte; writing it replaces the high byte and keeps the low one |
| GbMemoryMap.IfRegister | gb/io.go:81-83 | IF always reads with bits 5-7 set |
| GbMemoryMap.TacRegister | gb/io.go:120-122 | TAC keeps only the low three bits of what is written |
| GbMemoryMap.LcdRegisters | gb/io.go:85-133 | STAT reads back LCDC (PPU.STAT returns lcdc), a STAT write keeps STAT's low nibble, and LY reads the PPU's line and ignores writes (see also gb/ppu.go:137-145) |
| GbBootRom.BootROM.constructor | gb/bootrom.go:18-22 | the image is copied and the boot ROM starts enabled |
| GbBootRom.BootROM.Read | gb/bootrom.go:26-28 | a read succeeds exactly below 0x100 and answers the copied byte |
| GbBootRom.BootROM.BOOT | gb/bootrom.go:31-37 | BOOT reads 0 exactly while enabled and 1 otherwise |
| GbBootRom.BootROM.SetBOOT | gb/bootrom.go:40-46 | only the value 1 disables the boot ROM; any other value enables it again |
| GbBootRom.NewBootROM | gb/bootrom.go:13-23 | an image fails exactly when it is not 256 bytes, with its size; otherwise the boot ROM is new, enabled and holds the image |
| GbCpu.CPU.constructor | gb/cpu.go:46-53 | every register is zero, IME, halt and the halt bug are clear, and the internal counter starts at 0xABCC |
| GbCpu.CPU.Get | gb/cpu.go:87-141 | the getter answers the register's field |
| GbCpu.CPU.SetB | gb/cpu.go:91-93 | only B changes, to the value |
| GbCpu.CPU.SetC | gb/cpu.go:99-101 | only C changes, to the value |
| GbCpu.CPU.SetD | gb/cpu.go:107-109 | only D changes, to the value |
| GbCpu.CPU.SetE | gb/cpu.go:115-117 | only E changes, to the value |
| GbCpu.CPU.SetH | gb/cpu.go:123-125 | only H changes, to the value |
| GbCpu.CPU.SetL | gb/cpu.go:131-133 | only L changes, to the value |
| GbCpu.CPU.SetA | gb/cpu.go:139-141 | only A changes, to the value |
| GbCpu.CPU.SetF | gb/cpu.go:147-150 | F takes the value with its low nibble forced to 0 |
| GbCpu.CPU.Pair | gb/cpu.go:152-221 | BC, DE, HL and AF combine their registers high byte first; SP is the field |
| GbCpu.CPU.SetBC | gb/cpu.go:156-158 | the registers become those GbMachine.SetPair gives for BC: B the high byte, C the low one, nothing else |
| GbCpu.CPU.SetDE | gb/cpu.go:164-166 | D takes the high byte and E the low one, nothing else changes |
| GbCpu.CPU.SetHL | gb/cpu.go:172-174 | H takes the high byte and L the low one, nothing else changes |
| GbCpu.CPU.SetAF | gb/cpu.go:180-183 | A takes the high byte and F the low byte with its low nibble dropped |
| GbCpu.CPU.SetSP | gb/cpu.go:237-239 | SP takes the value and nothing else changes |
| GbCpu.CPU.Flag | gb/cpu.go:186-212 | FlagZ, FlagN, FlagH and FlagC read bits 7, 6, 5 and 4 of F |
| GbCpu.CPU.SetFlag | gb/cpu.go:190-216 | only bit i of F changes, to the value given |
| GbCpu.CPU.IncPC | gb/cpu.go:247-256 | the method answers and leaves exactly what GbMachine.IncPC computes, including its failure |
| GbCpu.CPU.IncPC16 | gb/cpu.go:259-263 | the method answers and leaves exactly what GbMachine.IncPC16 computes |
| GbCpu.CPU.PushSP | gb/cpu.go:224-227 | the CPU becomes exactly GbMachine.PushSP of the old state |
| GbCpu.CPU.PopSP | gb/cpu.go:230-234 | the method answers and leaves exactly what GbMachine.PopSP computes |
| GbCpu.CPU.RequestInterrupt | gb/interrupts.go:58-62 | only the bus changes, to GbMachine.RequestInterrupt of the old bus |
| GbCpu.CPU.IF | gb/interrupts.go:65-68 | IF answers what a bus read of IF answers (bits 5-7 high) |
| GbCpu.CPU.HandleInterrupts | gb/interrupts.go:17-55 | the cycles and the new state are exactly those GbMachine.HandleInterrupts computes |
| GbCpu.CPU.DispatchFirst | gb/interrupts.go:31-54 | the dispatch loop over bits 0-4 ends in exactly the state GbMachine.HandleInterrupts computes |
| GbCpu.CPU.Dispatch | gb/interrupts.go:38-50 | the found bit is acknowledged, the old PC pushed and PC set to the bit's vector |
| GbCpu.CPU.UpdateTimers | gb/timers.go:8-70 | the new state is exactly GbMachine.UpdateTimers of the old one |
| GbCpu.CPU.SubStep | gb/timers.go:38-69 | one pass of the loop leaves exactly GbMachine.TimerSubStep of the old state |
| GbCpu.CPU.ReloadTima | gb/timers.go:40-49 | the value and state are exactly those of GbMachine.TimerReload |
| GbCpu.CPU.CountTima | gb/timers.go:51-65 | the new state is exactly GbMachine.TimerTick of the old one |
| GbCpu.CPU.DIV | gb/timers.go:73-76 | DIV answers what a bus read of DIV answers, the counter's high byte |
| GbCpu.CPU.SetDIV | gb/timers.go:79-83 | the bus becomes exactly what a bus write to DIV gives |
| GbCpu.CPU.SetTAC | gb/timers.go:86-89 | the bus becomes exactly what a bus write to TAC gives |
| GbCpu.CPU.Step | gb/cpu.go:56-84 | the cycles, the error and the new state are exactly those of GbMachine.Step |
| GbCpu.CPU.AfterExecute | gb/cpu.go:77-83 | interrupt handling with the sampled IME and the timer update leave exactly GbMachine.AfterRun |
| GbCpu.CPU.Execute | gb/cpu.go:62-75 | the halt idle or the fetched instruction's entry leave exactly GbMachine.Run |
| CpuState.Initial | gb/cpu/cpu.go:42-82 | a new CPU holds the given MMU, an empty trace and no clocks charged |
| CpuState.Cycle | gb/cpu/timing.go:7-11 | a machine cycle charges 4 clocks, advances IC by 4 and keeps the registers, SP, PC and memory |
| CpuState.Accesses | gb/cpu/memory.go:12-42 | filtering a trace for bus accesses never lengthens it |
| CpuState.RegRoundTrip | gb/cpu/registers.go:35-51 | setRegister then getRegister gives the value back, F with its low nibble cleared, and nothing else changes |
| CpuState.Reg16RoundTrip | gb/cpu/registers.go:40-59 | setRegister16 then getRegister16 gives the value back (AF with F's low nibble cleared), the high byte lands in rg[rr] and the other registers are kept |
| CpuState.PairRoundTrip | gb/cpu/registers.go:40-59 | BC, DE and HL read back exactly the value written |
| CpuState.FLowNibbleClear | gb/cpu/registers.go:45-59 | both ways of writing F leave its low nibble clear |
| CpuState.FlagRoundTrip | gb/cpu/registers.go:61-69 | setFlag then getFlag gives the value set, every other bit of F and every other register is kept, so F's low nibble stays clear |
| CpuState.AccessCharges | gb/cpu/memory.go:12-28 | each access charges exactly one machine cycle before it happens; without an MMU a read gives 0 and a write changes only the cycle |
| CpuState.Access16Charges | gb/cpu/memory.go:30-42 | a 16-bit access costs exactly two machine cycles, 8 clocks |
| CpuState.CycleNoAccess | gb/cpu/timing.go:7-11 | a cycle adds no bus access |
| CpuState.ReadAccess | gb/cpu/memory.go:12-19 | with an MMU a read adds exactly one access, at its address |
| CpuState.WriteAccess | gb/cpu/memory.go:21-27 | with an MMU a write adds exactly one access, with its address and value |
| CpuState.Read16Order | gb/cpu/memory.go:29-34 | readMemory16 reads addr + 1, the high byte, before addr, the low byte |
| CpuState.Write16Order | gb/cpu/memory.go:36-42 | writeMemory16 writes the low byte to addr before the high byte to addr + 1 |
| CpuState.ReadValue | gb/cpu/memory.go:12-19 | a read gives the byte at its address, or 0 without an MMU, and changes neither memory, registers nor PC |
| CpuState.WriteValue | gb/cpu/memory.go:21-27 | with an MMU a write stores its byte at its address |
| CpuState.WriteThenRead | gb/cpu/memory.go:12-27 | a write is seen by a later read at the same address |
| CpuState.WriteKeepsOthers | gb/cpu/memory.go:21-27 | a write leaves every other address as it was |
| CpuState.Write16ThenRead16 | gb/cpu/memory.go:29-42 | writeMemory16 then readMemory16 at the same address gives the value back |
| CpuState.TimerRegisters | gb/cpu/timing.go:63-104 | DIV reads back the value written, and TAC never reads above 7 |
| CpuTiming.Divisor | gb/cpu/timing.go:23-38 | the watched IC bit is 3, 5, 7 or 9 |
| CpuTiming.CycleAdvancesCounter | gb/cpu/timing.go:13-16 | every cycle advances IC by exactly 4 and keeps TMA and TAC, enabled or not |
| CpuTiming.TimerDisabled | gb/cpu/timing.go:18-21 | with TAC bit 2 clear only IC changes and no interrupt is requested |
| CpuTiming.InterruptWhen | gb/cpu/timing.go:40-47 | a cycle requests the timer interrupt exactly when the timer is enabled and an overflow is pending |
| CpuTiming.WatchedBits | gb/cpu/timing.go:25-38 | TAC's low bits 0, 1, 2 and 3 watch IC bits 9, 3, 5 and 7 |
| CpuTiming.CountsFallingEdges | gb/cpu/timing.go:49-60 | enabled and with no overflow pending, TIMA increments exactly when the watched bit falls, no interrupt is requested, and an overflow is armed exactly when TIMA wraps from 0xFF to 0 |
| CpuTiming.EdgeCounts | gb/cpu/timing.go:49-55 | the edge check adds one to TIMA exactly on a falling edge and otherwise keeps it |
| CpuTiming.EdgeArms | gb/cpu/timing.go:52-60 | with no overflow pending, the edge check arms one exactly when TIMA wraps from 0xFF |
| CpuTiming.OverflowReloads | gb/cpu/timing.go:40-60 | a pending overflow is served before the same cycle's edge check: TIMA is reloaded from TMA and may then count the edge, the interrupt is requested, and the flag is cleared unless TMA itself wraps |
| CpuTiming.FallingEveryPeriod | gb/cpu/timing.go:23-50 | stepping IC by 4 from a multiple of 4, the watched bit falls exactly when IC lands on a multiple of 2^(d+1): every 1024, 16, 64 or 256 clocks for TAC 0..3 |
| CpuTiming.DivRoundTrip | gb/cpu/timing.go:63-73 | DIV reads back the value written to it, and the write keeps IC's low nibble |
| CpuTiming.TacMasked | gb/cpu/timing.go:100-104 | a TAC write keeps only the low three bits |
| CpuOps.Signed | gb/cpu/micro_ops.go:204 | int8(b) lies in -128..127 |
| CpuOps.SAddFlags | gb/cpu/micro_ops.go:199-213 | corrected: H is the carry out of bit 3 and C the carry out of bit 7 of the 8-bit add of a's low byte and b |
| CpuOps.Handled | gb/cpu/cpu.go:107-108 | the number of interrupt-handling calls a trace records is at most its length |
| CpuOps.SrcClocks | gb/cpu/micro_ops.go:15-197 | running an 8-bit source charges 4 clocks per bus access it makes |
| CpuOps.Src16Clocks | gb/cpu/micro_ops.go:22-213 | running a 16-bit source charges 4 clocks per bus access it makes |
| CpuOps.DstClocks | gb/cpu/micro_ops.go:29-190 | running an 8-bit destination charges 4 clocks per bus access it makes |
| CpuOps.Dst16Clocks | gb/cpu/micro_ops.go:36-152 | running a 16-bit destination charges 4 clocks per bus access it makes |
| CpuOps.ImmediateReadsPC | gb/cpu/micro_ops.go:119-127 | opImmediate gives the byte at PC, advances PC by one and makes one read, at PC |
| CpuOps.Immediate16HighFirst | gb/cpu/micro_ops.go:129-138 | opImmediate16 takes the byte at PC as the HIGH byte and the byte at PC + 1 as the low one |
| CpuOps.Immediate16Advances | gb/cpu/micro_ops.go:129-138 | opImmediate16 reads PC and then PC + 1 and advances PC by two |
| CpuOps.Read16AtValue | gb/cpu/micro_ops.go:78-86 | opRead16 takes the byte at a as the high byte and the byte at a + 1 as the low one |
| CpuOps.Read16AtOrder | gb/cpu/micro_ops.go:78-86 | opRead16 reads a and then a + 1 and leaves PC alone |
| CpuOps.ReadHLValue | gb/cpu/micro_ops.go:154-172 | opReadHLI and opReadHLD give the byte at the old HL |
| CpuOps.ReadHLMoves | gb/cpu/micro_ops.go:154-172 | opReadHLI and opReadHLD move HL by +1 or -1, wrapping |
| CpuOps.ReadHLAccess | gb/cpu/micro_ops.go:154-172 | the HL reads make exactly one bus access, at the old HL |
| CpuOps.WriteHLStores | gb/cpu/micro_ops.go:174-190 | opWriteHLI and opWriteHLD store the byte at the old HL |
| CpuOps.WriteHLMoves | gb/cpu/micro_ops.go:174-190 | opWriteHLI and opWriteHLD move HL by +1 or -1, wrapping |
| CpuOps.HighPage | gb/cpu/micro_ops.go:192-197 | opHigh's address is the source's byte in the low half of page 0xFF |
| CpuOps.Write16ThenRead16Ops | gb/cpu/micro_ops.go:78-103 | opWrite16 then opRead16 at the same address gives the value back |
| CpuOps.Write16AtHighFirst | gb/cpu/micro_ops.go:95-103 | opWrite16 puts the HIGH byte at the address |
| CpuOps.WriteMem16LowFirst | gb/cpu/memory.go:36-42 | writeMemory16 puts the LOW byte at the address, the opposite byte order to opWrite16 |
| CpuOps.FlagSources | gb/cpu/micro_ops.go:43-69 | opFlag reads a flag back as set, opNotFlag reads its negation |
| CpuOps.SAddValue | gb/cpu/micro_ops.go:199-213 | opSAdd's value is a plus the signed offset modulo 2^16: a + b for b < 0x80, a - (0x100 - b) otherwise |
| CpuOps.SAddSetsFlags | gb/cpu/micro_ops.go:199-213 | opSAdd as written clears Z and N, sets H exactly when b's low nibble exceeds a's, and sets C exactly when a plus the signed offset exceeds 0xFF |
| CpuOps.SAddFlagsMatchMonolithic | gb/instructions.go:884-893 | the corrected H and C are those of the monolithic generation's signed add |
| CpuOps.SAddAsWrittenFlags | gb/cpu/micro_ops.go:208-209 | as written, H is the borrow of the nibble subtraction and C is set for every a >= 0x180 whatever the offset |
| CpuOps.SAddAsWrittenDiffers | gb/cpu/micro_ops.go:208-209 | on a = 0x000F, b = 0x01 the code leaves H clear where the add carries out of bit 3, and on a = 0x0100, b = 0 it sets C with no carry |
| CpuOps.LdBlock | gb/cpu/instructions.go:43-113 | opcodes 0x40-0x7F except 0x76 are LD with the destination in bits 3-5 and the source in bits 0-2, in the order B, C, D, E, H, L, (HL), A |
| CpuOps.Unimplemented | gb/cpu/instructions.go:33-134 | HALT (0x76) and every 0xCB-prefixed opcode have no entry |
| CpuOps.LdRegisterCopy | gb/cpu/instructions.go:136-142 | LD r, r' copies the register without touching memory or the clock |
| CpuOps.FetchCharges | gb/cpu/cpu.go:92-97 | fetching costs one cycle per opcode byte and handles no interrupt |
| CpuOps.StepHalted | gb/cpu/cpu.go:103-105 | a halted CPU spends exactly one machine cycle with registers, PC and memory unchanged, then handles interrupts |
| CpuOps.StepInterruptsAndErrors | gb/cpu/cpu.go:84-111 | a completed step's last act is interrupt handling with the IME sampled before the instruction; an opcode without an entry returns its error before any interrupt handling, having charged only the fetch |
| CpuOps.StepClocks | gb/cpu/cpu.go:84-111 | a completed step of a running CPU costs 4 clocks for the opcode plus 4 per bus access of the load |
| CpuOps.StepCharges | gb/cpu/cpu.go:84-111 | every step, completed or not, costs a whole number of machine cycles and at least one |
| CpuOps.LoadTimings | gb/cpu/instructions.go:43-131 | LD r, r' takes 4 clocks, LD r, (HL) 8, LDH (a8), A 12 and LD A, (a16) 16 |
| Cpu.CPU.constructor | gb/cpu/cpu.go:42-82 | a new CPU is the Initial state attached to the given MMU |
| Cpu.CPU.GetRegister | gb/cpu/registers.go:35-38 | the result is the register's value in the state |
| Cpu.CPU.SetRegister | gb/cpu/registers.go:45-51 | the state becomes WithReg: F keeps only its high nibble |
| Cpu.CPU.GetRegister16 | gb/cpu/registers.go:40-43 | the result is the pair's value, rg[rr] high |
| Cpu.CPU.SetRegister16 | gb/cpu/registers.go:53-59 | the state becomes WithReg16: AF keeps only F's high nibble |
| Cpu.CPU.GetFlag | gb/cpu/registers.go:61-64 | the result is the flag's bit of F |
| Cpu.CPU.SetFlag | gb/cpu/registers.go:66-69 | the state becomes WithFlag: only the flag's bit of F changes |
| Cpu.CPU.GetPC | gb/cpu/registers.go:71-74 | the result is PC |
| Cpu.CPU.SetPC | gb/cpu/registers.go:76-79 | only PC changes |
| Cpu.CPU.GetSP | gb/cpu/registers.go:81-84 | the result is SP |
| Cpu.CPU.SetSP | gb/cpu/registers.go:86-89 | only SP changes |
| Cpu.CPU.SetIME | gb/cpu/interrupts.go:3-6 | only IME changes |
| Cpu.CPU.RequestInterrupt | gb/cpu/timing.go:45 | the request is appended to the trace |
| Cpu.CPU.UpdateTimers | gb/cpu/timing.go:13-61 | the timer becomes UpdateTimers of the old timer, and the timer interrupt is requested exactly when the timer is enabled and an overflow was pending |
| Cpu.CPU.ServeOverflow | gb/cpu/timing.go:40-47 | a pending overflow reloads TIMA from TMA, is cleared and requests the timer interrupt |
| Cpu.CPU.CountEdge | gb/cpu/timing.go:49-60 | the timer becomes Edge of the old timer |
| Cpu.CPU.IncrementMCycle | gb/cpu/timing.go:7-11 | the state becomes Cycle of the old state |
| Cpu.CPU.DIV | gb/cpu/timing.go:63-67 | the result is IC's high byte |
| Cpu.CPU.SetDIV | gb/cpu/timing.go:69-73 | the timer becomes SetDiv of the old timer |
| Cpu.CPU.TIMA | gb/cpu/timing.go:75-78 | the result is TIMA |
| Cpu.CPU.TMA | gb/cpu/timing.go:85-88 | the result is TMA |
| Cpu.CPU.TAC | gb/cpu/timing.go:95-98 | the result is TAC |
| Cpu.CPU.SetTIMA | gb/cpu/timing.go:80-83 | only TIMA changes |
| Cpu.CPU.SetTMA | gb/cpu/timing.go:90-93 | only TMA changes |
| Cpu.CPU.SetTAC | gb/cpu/timing.go:100-104 | TAC takes the value's low three bits |
| Cpu.CPU.ReadMemory | gb/cpu/memory.go:12-19 | the state and byte are those of ReadMem |
| Cpu.CPU.WriteMemory | gb/cpu/memory.go:21-27 | the state is that of WriteMem |
| Cpu.CPU.ReadMemory16 | gb/cpu/memory.go:29-34 | the state and value are those of ReadMem16 |
| Cpu.CPU.WriteMemory16 | gb/cpu/memory.go:36-42 | the state is that of WriteMem16 |
| Cpu.CPU.Immediate | gb/cpu/micro_ops.go:119-127 | the state and byte are those of CpuOps.Immediate |
| Cpu.CPU.Immediate16 | gb/cpu/micro_ops.go:129-138 | the state and value are those of CpuOps.Immediate16 |
| Cpu.CPU.ReadHL | gb/cpu/micro_ops.go:154-172 | the state and byte are those of CpuOps.ReadHL |
| Cpu.CPU.WriteHL | gb/cpu/micro_ops.go:174-190 | the state is that of CpuOps.WriteHL |
| Cpu.CPU.Read16At | gb/cpu/micro_ops.go:78-86 | the state and value are those of CpuOps.Read16At |
| Cpu.CPU.Write16At | gb/cpu/micro_ops.go:95-103 | the state is that of CpuOps.Write16At |
| Cpu.CPU.SAdd | gb/cpu/micro_ops.go:199-213 | the state and value are those of CpuOps.SAdd, flags as written |
| Cpu.CPU.EvalSrc | gb/cpu/micro_ops.go:15-197 | running an 8-bit source leaves the state and byte of CpuOps.EvalSrc |
| Cpu.CPU.EvalSrc16 | gb/cpu/micro_ops.go:22-213 | running a 16-bit source leaves the state and value of CpuOps.EvalSrc16 |
| Cpu.CPU.EvalDst | gb/cpu/micro_ops.go:29-190 | running an 8-bit destination leaves the state of CpuOps.EvalDst |
| Cpu.CPU.EvalDst16 | gb/cpu/micro_ops.go:36-152 | running a 16-bit destination leaves the state of CpuOps.EvalDst16 |
| Cpu.CPU.EvalFlag | gb/cpu/micro_ops.go:43-69 | the result is CpuOps.EvalFlag of the state |
| Cpu.CPU.ExecLD | gb/cpu/instructions.go:136-142 | the source runs, then the destination takes its value, as CpuOps.ExecLD |
| Cpu.CPU.PopPC | gb/cpu/cpu.go:93-96 | the state and byte are those of CpuOps.PopPC |
| Cpu.CPU.HandleInterrupts | gb/cpu/cpu.go:107-108 | the call with the sampled IME is appended to the trace |
| Cpu.CPU.Fetch | gb/cpu/cpu.go:92-97 | the state and opcode are those of FetchOpcode: 0xCB is followed by a second byte, offset by 0x100 |
| Cpu.CPU.Step | gb/cpu/cpu.go:84-111 | the state becomes StepState's, the error names the opcode without an entry, and the result is the clocks charged |
| Mmu.WriteAt | gb/mmu/io.go:57-97 | a write fails exactly on the I/O registers FF00-FF7F (writeIO is not part of this model); every other write yields a well-formed memory with the boot ROM and cartridge untouched |
| Mmu.Read16At | gb/mmu/debug.go:17-21 | the 16-bit read succeeds exactly when both byte reads do; its high byte is the byte at addr + 1 and its low byte the byte at addr |
| Mmu.Write16At | gb/mmu/debug.go:23-27 | a successful 16-bit write leaves a well-formed memory |
| Mmu.DmaOffset | gb/mmu/dma.go:21-35 | on a copying clock the offset is clocks / 4 - 1, so (offset + 1) * 4 equals the clocks elapsed, and it never exceeds 160 |
| Mmu.BootOverlay | gb/mmu/io.go:7-9 | while the boot ROM is mapped, addresses below 0x100 read the boot ROM image |
| Mmu.CartridgeRom | gb/mmu/io.go:11-13 | outside the boot overlay, addresses below 0x8000 read the cartridge ROM, or 0 when no cartridge is inserted |
| Mmu.VramWindow | gb/mmu/io.go:15-66 | with a PPU attached, 8000-9FFF read and write the PPU's VRAM at addr - 0x8000 |
| Mmu.EchoMirrors | gb/mmu/io.go:27-78 | E000-FDFF reads and writes exactly as addr - 0x2000 does, i.e. work RAM at addr - 0xE000 |
| Mmu.EmptyRegion | gb/mmu/io.go:35-82 | FEA0-FEFF reads 0, while a write there reaches the PPU's OAM at an offset of 0xA0 or more (the write case runs up to FF00), or is dropped with no PPU |
| Mmu.CartridgeWrites | gb/mmu/io.go:19-70 | writes to the cartridge ROM and RAM ranges change nothing, and cartridge RAM reads 0, or fails without a cartridge |
| Mmu.UnmatchedReadsZero | gb/mmu/io.go:15-94 | with no PPU the VRAM and OAM ranges, and with no CPU the IE register, read 0 and ignore writes |
| Mmu.ReadFailures | gb/mmu/io.go:4-54 | a read can fail only beyond a short cartridge ROM, on cartridge RAM with no cartridge, or on the I/O registers |
| Mmu.RamWriteRead | gb/mmu/io.go:23-90 | in work and high RAM a write succeeds, the written address reads back the value and every other RAM address reads as before |
| Mmu.RamWriteKeepsOtherBank | gb/mmu/io.go:23-90 | a work RAM write leaves high RAM alone and vice versa |
| Mmu.WriteThenRead | gb/mmu/io.go:4-97 | at every plainly stored address (work RAM and its echo, high RAM, VRAM and OAM with a PPU, IE with a CPU) a write succeeds and reads back the value written |
| Mmu.OamWriteRead | gb/mmu/io.go:31-82 | with a PPU, FE00-FE9F writes the PPU's OAM at addr - 0xFE00 and reads it back |
| Mmu.OnlyVramGated | gb/mmu/cpu.go:27-54 | the CPU bus differs from the plain read and write only on VRAM while the PPU denies access, where reads give 0 and writes are dropped |
| Mmu.OamGateEmpty | gb/mmu/cpu.go:33-48 | the OAM gate's range addr >= 0xFE00 && addr < 0xFE00 is empty, so OAM is never gated |
| Mmu.NoPpuNoGate | gb/mmu/cpu.go:29-44 | without a PPU the CPU bus is the plain read and write |
| Mmu.Write16ThenRead16 | gb/mmu/debug.go:17-27 | in RAM a 16-bit write stores the low byte at addr and the high byte at addr + 1, and the 16-bit read gives the word back |
| Mmu.DmaWaits | gb/mmu/dma.go:23-28 | before the 4th clock and off the 4-clock beat a DMA step changes nothing |
| Mmu.DmaAddresses | gb/mmu/dma.go:31-33 | the copy goes from page * 0x100 + offset to OAM offset `offset`, which lies inside FE00-FEFF |
| Mmu.DmaCopiesOneByte | gb/mmu/dma.go:21-35 | on a copying clock the step copies exactly one byte, from page * 0x100 + offset into OAM at offset, where 4 * (offset + 1) clocks have elapsed |
| Mmu.MMU.constructor | gb/mmu/mmu.go:15-31 | a new MMU has zeroed work and high RAM, no CPU or PPU attached and no interrupts requested |
| Mmu.MMU.AttachCPU | gb/mmu/mmu.go:34-36 | a CPU is attached |
| Mmu.MMU.AttachPPU | gb/mmu/mmu.go:39-41 | the given PPU is attached and the MMU stays well formed |
| Mmu.MMU.Write | gb/mmu/debug.go:13-15 | the MMU's memory becomes what WriteAt computes, or is unchanged when the write fails |
| Mmu.MMU.WriteLow | gb/mmu/io.go:60-70 | for addresses below C000 the new memory is the one WriteAt computes |
| Mmu.MMU.WriteMid | gb/mmu/io.go:72-82 | for C000-FEFF the new memory is the one WriteAt computes |
| Mmu.MMU.WriteHigh | gb/mmu/io.go:84-95 | for FF00 and up the new memory is the one WriteAt computes, or is unchanged when it fails |
| Mmu.MMU.WriteVram | gb/mmu/io.go:66 | one VRAM byte is stored and nothing else changes |
| Mmu.MMU.WriteOam | gb/mmu/io.go:82 | one OAM byte is stored and nothing else changes |
| Mmu.MMU.WriteWram | gb/mmu/io.go:74 | one work RAM byte is stored and nothing else changes |
| Mmu.MMU.WriteHram | gb/mmu/io.go:90 | one high RAM byte is stored and nothing else changes |
| Mmu.MMU.CpuWrite | gb/mmu/cpu.go:42-54 | the new memory is the one CpuWriteAt computes (the gated write), or is unchanged when it fails |
| Mmu.MMU.Write16 | gb/mmu/debug.go:23-27 | the 16-bit write succeeds exactly when Write16At does, and then leaves its memory |
| Mmu.MMU.RequestInterrupt | gb/mmu/cpu.go:57-61 | the interrupt is appended to those requested of the CPU when one is attached, and dropped otherwise |
| Mmu.MMU.SetDMA | gb/mmu/dma.go:13-18 | the DMA register holds the value and the transfer clock restarts at 644 |
| Mmu.MMU.StepDMA | gb/mmu/dma.go:21-35 | the new memory is the one StepDmaAt computes for the current page and clock |
| GameBoy.TickBudget | gb/gameboy.go:13-16 | a tick grants CPUClock / BaseClock = 16384 clocks less the previous tick's debt |
| GameBoy.CatchUp | gb/gameboy.go:98-101 | for a PPU step of p > 0 clocks the catch-up loop runs nothing for a step that is not positive, otherwise at least the CPU step's clocks and less than one PPU step more, and exactly the CPU's clocks when those are whole PPU steps |
| GameBoy.WholeOfCycles | gb/gameboy.go:98-101 | clocks that are whole machine cycles are whole PPU steps of 1, 2 or 4 clocks |
| GameBoy.StepAdvances | gb/cpu/cpu.go:85-111 | every completed CPU step charges a positive number of clocks, so RunClocks's loop ends |
| GameBoy.StepWholeCycles | gb/cpu/cpu.go:85-111 | every completed CPU step charges whole machine cycles, so whole PPU steps of 1, 2 or 4 clocks |
| GameBoy.RunFromNext | gb/gameboy.go:89-101 | one pass of the loop: the run continues from the step's state with its clocks taken off the limit and the PPU caught up |
| GameBoy.RunFromFatal | gb/gameboy.go:92-95 | a step error ends the run with that error |
| GameBoy.NoBudgetNoStep | gb/gameboy.go:89-103 | with a limit that is not positive no instruction runs and the overshoot is minus the limit |
| GameBoy.OvershootBounded | gb/gameboy.go:87-104 | with a positive limit the returned overshoot is at least 0 and less than the last instruction's clocks |
| GameBoy.PpuCoversCpu | gb/gameboy.go:87-104 | for any PPU step cost the PPU never falls behind: it has run at least the limit plus the overshoot |
| GameBoy.PpuKeepsPace | gb/gameboy.go:87-104 | when every CPU step costs whole PPU steps the PPU has run exactly the CPU's clocks: the limit plus the overshoot |
| GameBoy.RunAccounting | gb/gameboy.go:87-104 | for the real CPU step and any PPU step cost, the overshoot bound and the PPU never behind; exact catch-up for PPU steps of 1, 2 or 4 clocks |
| GameBoy.GameBoy.constructor | gb/gameboy.go:40-56 | a fresh CPU in its initial state attached to the memory, a zeroed boot ROM, no cartridge, the PPU at 0 clocks, its step cost the given positive p |
| GameBoy.GameBoy.PpuStep | gb/gameboy.go:100 | the stand-in PPU step reports its fixed positive cost and adds it to the PPU's clocks |
| GameBoy.GameBoy.CatchUpPpu | gb/gameboy.go:99-101 | the PPU's clocks grow by CatchUp of the CPU step's clocks |
| GameBoy.GameBoy.StepCpu | gb/gameboy.go:92-101 | one loop pass: the CPU state becomes the step's result and the PPU is caught up, or the step's opcode error is reported |
| GameBoy.GameBoy.RunLoop | gb/gameboy.go:89-102 | the loop ends with the limit spent or on a step error, in the state RunFrom describes |
| GameBoy.GameBoy.RunClocks | gb/gameboy.go:87-104 | the CPU, PPU clocks and returned overshoot are those of RunFrom over the CPU step; a step error gives Err |
| GameBoy.GameBoy.Tick | gb/gameboy.go:71-72 | one tick runs RunClocks with TickBudget of the previous debt and returns the new overshoot |
| GameBoy.GameBoy.LoadBootRom | gb/gameboy.go:106-113 | an image of exactly 0x100 bytes is copied into the boot ROM; any other size is refused with that size and the boot ROM is unchanged |
| GameBoy.GameBoy.LoadCartridge | gb/gameboy.go:115-118 | the cartridge slot holds the given cartridge |
| JoypadMatrix.FallingEdgeIsLineDrop | gb/joypad.go:95-100 | the edge test newBits ^ (oldBits OR newBits) != 0 holds exactly when one of lines 0..3 read 1 before and reads 0 after |
| JoypadMatrix.SelectCopiesSelectBits | gb/joypad.go:71-76 | SetJOYP's two CopyBit calls take bits 4 and 5 from the written value and keep every other bit of the register |
| JoypadMatrix.NothingSelected | gb/joypad.go:79-93 | with both select bits high the code's matrix only pulls the low nibble high |
| JoypadMatrix.SelectionClearsUpperNibble | gb/joypad.go:86-93 | as written, selecting either group clears the register's whole upper nibble, select bits included |
| JoypadMatrix.MatrixLines | gb/joypad.go:79-93 | as written, the low nibble holds the D-pad lines when bit 4 is low and the button lines when bit 4 or bit 5 is low |
| JoypadMatrix.ButtonsSelected | gb/joypad.go:86-93 | as written, selecting only the buttons leaves exactly the button lines with the upper nibble clear |
| JoypadMatrix.PressRequestsInterrupt | gb/joypad.go:59-63 | as written, once a selection has cleared the upper nibble, pressing a button whose line reads high requests the joypad interrupt |
| JoypadMatrix.ReleaseRequestsNothing | gb/joypad.go:59-63 | as written, releasing a button never requests the interrupt while the register is up to date |
| JoypadMatrix.DPadReadsButtonLines | gb/joypad.go:86-93 | with only the D-pad selected (0x20 written) and only A pressed the code reads 0x0E, the pattern of Right held, where the intended matrix reads 0x2F |
| JoypadMatrix.MatrixIntended | gb/joypad.go:79-93 | the intended matrix keeps the select bits as written |
| JoypadMatrix.MatrixIntendedLines | gb/joypad.go:79-93 | in the intended matrix line k reads 0 exactly when a selected group holds its button k pressed |
| JoypadMatrix.MatrixIntendedStable | gb/joypad.go:79-93 | recomputing the intended matrix with unchanged input lines leaves the register unchanged |
| JoypadMatrix.IntendedPressRequestsInterrupt | gb/joypad.go:59-63 | pressing a button of a selected group whose line reads high requests the joypad interrupt |
| JoypadMatrix.IntendedReleaseRequestsNothing | gb/joypad.go:59-63 | releasing a button never requests the interrupt while the register is up to date |
| JoypadMatrix.IntendedAgreesWithoutDPad | gb/joypad.go:86-93 | unless the D-pad is selected, the code's and the intended matrix read the same lines |
| GbJoypad.Joypad.constructor | gb/joypad.go:51-57 | every input line starts pulled high and JOYP at 0 |
| GbJoypad.Joypad.Handle | gb/joypad.go:59-63 | a press drives the button's line to 0 and a release to 1, JOYP becomes the matrix as written (JoypadMatrix.Matrix) of the new lines, and the interrupt is requested exactly on a falling line |
| GbJoypad.Joypad.SetJOYP | gb/joypad.go:70-76 | the input lines are unchanged, JOYP becomes the matrix as written (JoypadMatrix.Matrix) of the register with the written select bits, and the interrupt is requested exactly on a falling line |
| GbJoypad.Joypad.Update | gb/joypad.go:78-101 | JOYP becomes the matrix as written (JoypadMatrix.Matrix) of the input lines and its select bits, and the interrupt is requested exactly on a falling line |
| Joypad.Joypad.constructor | gb/joypad/joypad.go:29-32 | every field at Go's zero value, no MMU attached |
| Joypad.Joypad.Handle | gb/joypad/input.go:23-27 | the button's input bit becomes the negated state, JOYP becomes the matrix as written (JoypadMatrix.Matrix) of the new lines, and the interrupt reaches the MMU exactly on a falling line with an MMU attached |
| Joypad.Joypad.SetJOYP | gb/joypad/joypad.go:39-45 | JOYP becomes the matrix as written (JoypadMatrix.Matrix) of the register with the written select bits, and the interrupt reaches the MMU exactly on a falling line with an MMU attached |
| Joypad.Joypad.UpdateJOYP | gb/joypad/joypad.go:47-70 | JOYP becomes the matrix as written (JoypadMatrix.Matrix) of the input lines and its select bits, and the interrupt reaches the MMU exactly on a falling line with an MMU attached |
| Joypad.Joypad.InterruptJOYP | gb/joypad/memory.go:13-17 | the request is delivered exactly when an MMU is attached |
| GbPpu.SetMode | gb/ppu.go:121-124 | the mode's two bits replace STAT bits 0..2 (bit 2 cleared) and STAT's upper five bits are kept |
| GbPpu.Mode | gb/ppu.go:147-150 | the mode is one of the four values 0..3 |
| GbPpu.WriteSTAT | gb/ppu.go:141-145 | a write changes only STAT's upper four bits, which take the written value's |
| GbPpu.SpriteHeight | gb/ppu/tiles.go:48-55 | sprites are 8 or 16 rows tall |
| GbPpu.BgTileMap | gb/ppu/tiles.go:39-46 | the background map starts at VRAM offset 0x1800 or 0x1C00 |
| GbPpu.WindowTileMap | gb/ppu/tiles.go:17-24 | the window map starts at VRAM offset 0x1800 or 0x1C00 |
| GbPpu.TickModes | gb/ppu.go:68-77 | a step sets OAM search at the start of a visible line, pixel transfer 20 steps in and vertical blank at the start of line 144, requests VBlank exactly there, and leaves STAT alone otherwise |
| GbPpu.TickAdvancesPos | gb/ppu.go:88-92 | a step keeps the counters inside the frame and moves the frame position one step forward, wrapping after 114 x 154 steps |
| GbPpu.PosInjective | gb/ppu.go:88-92 | within a frame the position determines the step counter and the scanline |
| GbPpu.IteratePos | gb/ppu.go:64-95 | n steps move the frame position n forward modulo the frame length |
| GbPpu.RunIsSteps | gb/ppu.go:62-96 | Update over a budget of cycles performs exactly ceil(cycles / 4) steps, none for a budget that is not positive |
| GbPpu.FramePeriod | gb/ppu.go:28-32 | Update over one frame's 70224 clocks brings the step counter and the scanline back to where they were |
| GbPpu.PPU.constructor | gb/ppu.go:54-59 | every register starts at zero |
| GbPpu.PPU.Update | gb/ppu.go:61-96 | the counters, STAT and the number of VBlank requests are those of the loop's specification, and the counters stay inside a frame |
| GbPpu.PPU.Step | gb/ppu.go:66-94 | one iteration moves the counters and STAT as Tick does and reports its VBlank request |
| GbPpu.PPU.SetModeOf | gb/ppu.go:121-124 | STAT becomes SetMode of the old STAT |
| GbPpu.PPU.SetLCDC | gb/ppu.go:131-134 | LCDC holds the written value |
| GbPpu.PPU.STAT | gb/ppu.go:136-139 | as written, reading STAT answers the LCDC register |
| GbPpu.PPU.SetSTAT | gb/ppu.go:141-145 | STAT becomes WriteSTAT of the old STAT and the value |
| GbPpu.PPU.ModeOf | gb/ppu.go:147-150 | the mode is STAT's low two bits |
| GbFetcher.ColourBits | gb/fetcher.go:141-144 | a pixel's colour number is a 2-bit value |
| GbFetcher.Row | gb/fetcher.go:139-148 | a loaded tile row is eight pixels |
| GbFetcher.MapIndex | gb/fetcher.go:104 | the tile-map entry read in the Tile state lies inside VRAM |
| GbFetcher.ColourBitsEncode | gb/fetcher.go:141-144 | column i of a row holds bit i of the low data byte in bit 0 and bit i of the high data byte in bit 1 |
| GbFetcher.RowInjective | gb/fetcher.go:139-148 | a tile row loses nothing: equal rows come from equal data bytes |
| GbFetcher.ResetValid | gb/fetcher.go:58-74 | Reset with a map inside VRAM leaves a valid fetcher with at most 3 pixels to discard and a row offset of at most 14 |
| GbFetcher.PopValid | gb/fetcher.go:76-95 | Pop keeps the invariant, fails without change at 8 queued pixels or fewer, otherwise removes the front pixel, and yields a shade exactly when no discard credit remains |
| GbFetcher.LoadValid | gb/fetcher.go:132-154 | load succeeds exactly when at most 8 pixels are queued, then appends the tile row, so the FIFO never holds more than 16 |
| GbFetcher.LoadStepsValid | gb/fetcher.go:112-127 | the Data1 and Idle steps keep the invariant |
| GbFetcher.StepValid | gb/fetcher.go:97-130 | every fetcher step keeps the invariant |
| GbFetcher.StepTransitions | gb/fetcher.go:99-129 | Tile goes to Data0, Data0 to Data1, Data1 to Tile after a load or Idle otherwise, Idle to Tile once a load succeeds, and any other state stays |
| GbFetcher.DiscardFirst | gb/fetcher.go:87-91 | while discard credit remains a pop drops the pixel, uses one credit and yields no shade |
| GbFetcher.Fetcher.constructor | gb/fetcher.go:51-56 | every field at Go's zero value, which is valid |
| GbFetcher.Fetcher.Reset | gb/fetcher.go:58-74 | the fields become those of ResetState |
| GbFetcher.Fetcher.Pop | gb/fetcher.go:76-95 | the fields, the shade and the success flag are those of PopState |
| GbFetcher.Fetcher.Step | gb/fetcher.go:97-130 | the fields become those of StepState over the given VRAM and tile data |
| GbFetcher.Fetcher.LoadOrWaitOf | gb/fetcher.go:116-121 | the fields become those of LoadOrWait |
| GbFetcher.Fetcher.LoadOrStayOf | gb/fetcher.go:123-127 | the fields become those of LoadOrStay |
| GbFetcher.Fetcher.Load | gb/fetcher.go:132-154 | the fields and the success flag are those of LoadState |
| GbFetcher.Fetcher.AppendRow | gb/fetcher.go:139-148 | the loop appends exactly the tile row of the two data bytes |
| GbOamSearch.StepBounded | gb/oam_search.go:54-79 | a search step only appends, at most two sprites, and never lets the cache grow past ten |
| GbOamSearch.StepAppendsVisible | gb/oam_search.go:69-77 | the step's first entry, at address sc * 8, is appended exactly when it covers the line and the cache has room |
| GbOamSearch.LineScans | gb/oam_search.go:56-67 | the 20 steps of a line examine the 40 entries one at a time in address order, two per step |
| GbOamSearch.ScanIsCappedVisible | gb/oam_search.go:57-77 | examining entries one at a time keeps exactly the first ten of those that cover the line |
| GbOamSearch.WholeLine | gb/oam_search.go:48-79 | after a line's search the cache holds the first ten OAM entries that cover the line, in address order |
| GbOamSearch.OamSearch.constructor | gb/oam_search.go:48-52 | the cache starts empty |
| GbOamSearch.OamSearch.Start | gb/oam_search.go:48-52 | the cache is emptied |
| GbOamSearch.OamSearch.Step | gb/oam_search.go:54-79 | the loop leaves the cache that SearchStep describes |
| GbPixel.Resolve | gb/pixel_transfer.go:74-86 | a resolved shade is a 2-bit value |
| GbPixel.ResolvePicksShade | gb/pixel_transfer.go:74-86 | resolving colour number d through a palette built from four shades gives back the d-th shade |
| GbPixel.ResolveSources | gb/pixel_transfer.go:76-84 | sprite pixels of palette 0 resolve through OBP0, of palette 1 through OBP1, and background pixels through BGP |
| GbPixelTransfer.PixelIndex | gb/pixel_transfer.go:37 | pixel lx of a visible line ly lies inside the frame |
| GbPixelTransfer.StartFetcher | gb/pixel_transfer.go:16-17 | the fetcher aimed at (SCX, ly + SCY) of the background map is valid |
| GbPixelTransfer.Draw | gb/pixel_transfer.go:26-41 | the window check and a pop keep the fetcher valid, the frame's size and STAT, and move lx on by at most one |
| GbPixelTransfer.PopPixel | gb/pixel_transfer.go:34-41 | a pop keeps the fetcher valid, the frame's size and STAT, and moves lx on by at most one |
| GbPixelTransfer.Finish | gb/pixel_transfer.go:43-52 | the loop stops exactly when lx reaches 160, STAT then enters HBlank and is kept otherwise, and lx and the frame are untouched |
| GbPixelTransfer.TransferProgress | gb/pixel_transfer.go:23-54 | a step draws at most four pixels and never past the end of the line, keeps the fetcher valid, and changes STAT, to HBlank, exactly when the line is done |
| GbPixelTransfer.DrawnJoin | gb/pixel_transfer.go:25-53 | two runs of drawing, one after the other, draw the joined range of pixels |
| GbPixelTransfer.SubStepDraws | gb/pixel_transfer.go:26-52 | one sub-step draws at most the pixel at lx |
| GbPixelTransfer.TransferWritesRow | gb/pixel_transfer.go:23-54 | a step writes only line ly, only the pixels from the old lx up to the new one, and only shades 0..3 |
| GbPixelTransfer.DrawWritesOnePixel | gb/pixel_transfer.go:34-41 | the first half of a sub-step writes at most pixel lx of line ly, with a shade 0..3 |
| GbPixelTransfer.OddSubStepsDoNotFetch | gb/pixel_transfer.go:43-52 | on odd sub-steps, and on the sub-step that ends the line, the fetcher does not step |
| GbPixelTransfer.WindowCheckValid | gb/pixel_transfer.go:26-29 | the window check keeps the fetcher invariant |
| GbPixelTransfer.WindowRestarts | gb/pixel_transfer.go:26-29 | on a window hit the fetcher starts over on the window map at column 0 with nothing queued or to discard |
| GbPixelTransfer.Transfer.constructor | gb/pixel_transfer.go:3-21 | a fresh valid fetcher, a blank frame of 160 x 144 shades and lx at 0 |
| GbPixelTransfer.Transfer.Start | gb/pixel_transfer.go:3-21 | the registers are snapshotted, lx is 0 and the fetcher is StartFetcher of the snapshot |
| GbPixelTransfer.Transfer.Step | gb/pixel_transfer.go:23-54 | lx, the fetcher, STAT and the frame become those of TransferSteps from sub-step 0 |
| GbPixelTransfer.Transfer.SubStepOf | gb/pixel_transfer.go:25-53 | one loop pass leaves the state and stop flag of SubStep |
| GbPixelTransfer.Transfer.DrawOf | gb/pixel_transfer.go:26-41 | the state becomes that of Draw |
| GbPixelTransfer.Transfer.PopOf | gb/pixel_transfer.go:34-41 | the state becomes that of PopPixel through the snapshotted palettes |
| GbPixelTransfer.Transfer.WindowOf | gb/pixel_transfer.go:26-29 | the fetcher becomes that of WindowCheck |
| GbPixelTransfer.Transfer.Plot | gb/pixel_transfer.go:36-40 | only pixel lx of line ly changes, to the shade, and lx moves on by one |
| Sprites.DecodeEncode | gb/ppu/oam.go:38-53 | decoding the four bytes encoded from a sprite gives the sprite back: Y, X, tile and the four flags from bits 4..7 |
| Sprites.EncodeDecode | gb/oam_search.go:31-46 | decoding loses only flag bits 0..3: re-encoding a decoded entry gives back its first three bytes and the upper nibble of the fourth |
| Sprites.FlagBitsOfEncoding | gb/ppu/oam.go:19-25 | bit j of the encoded flags byte is the sprite's palette, X-flip, Y-flip or priority flag for j = 4..7 and clear below |
| Sprites.OnLineIsRowInSprite | gb/ppu/oam.go:76-82 | for a visible line the 8-bit visibility test says that the sprite's X is not zero and line ly + 16 lies at or below its top row and fewer than height rows below it |
| PpuTiles.MapAddr | gb/ppu/tiles.go:17-46 | a tile map starts at 0x1800 or 0x1C00 and its 32 x 32 entries lie inside the tile-map area below 0x2000 |
| PpuTiles.Signed | gb/ppu/tiles.go:35 | a tile number read as a signed byte lies in -128..127 and differs from the unsigned reading by 0 or 256 |
| PpuTiles.TileIndex | gb/ppu/tiles.go:29-37 | every tile-data index lies inside VRAM |
| PpuTiles.SpriteHeight | gb/ppu/tiles.go:48-55 | sprites are 16 rows tall exactly when the large size is selected, 8 otherwise |
| PpuTiles.UnsignedTile | gb/ppu/tiles.go:30-32 | unsigned mode addresses bytes id * 16 + offset, inside the block 0x0000..0x0FFF |
| PpuTiles.SignedTile | gb/ppu/tiles.go:33-35 | signed mode addresses 0x1000 + int8(id) * 16 + offset, inside 0x0800..0x17FF |
| PpuTiles.SharedBlock | gb/ppu/tiles.go:29-37 | tile numbers 128..255 name the same bytes in both modes |
| PpuTiles.TilesDisjoint | gb/ppu/tiles.go:29-37 | in either mode different tile numbers never share a byte |
| PpuTiles.SignedInjective | gb/ppu/tiles.go:35 | distinct tile numbers stay distinct read as signed bytes |
| PpuPixel.Resolve | gb/ppu/transfer.go:44-55 | a resolved shade is a 2-bit value |
| PpuPixel.ResolvePicksShade | gb/ppu/transfer.go:44-55 | resolving colour number d through a palette built from four shades gives back the d-th shade |
| PpuPixel.ResolveSources | gb/ppu/transfer.go:46-53 | background pixels resolve through BGP whatever their palette bit, sprite pixels through OBP0 or OBP1 by their palette bit |
| Ppu.OamAddr | gb/ppu/oam.go:74 | the address stepOAMSearch decodes is sc * 2 reduced to 16 bits, so always below 0x10000 |
| Ppu.OamStepBounded | gb/ppu/oam.go:62-85 | a search step keeps the cache at ten sprites at most, only appends to it, and appends at most one sprite |
| Ppu.OamStepAppends | gb/ppu/oam.go:62-85 | a step appends exactly when sc is odd, the cache has room, the four bytes at sc * 2 lie in OAM and the decoded sprite is on line ly; what it appends is that sprite |
| Ppu.OddAddress | gb/ppu/oam.go:64-74 | the search decodes only at odd sc, and every such address is 2 past a multiple of 4, halfway into an entry |
| Ppu.OddQuarter | gb/ppu/oam.go:74 | twice an odd number, reduced modulo 0x10000, is 2 modulo 4 |
| Ppu.OddStepsStraddle | gb/ppu/oam.go:38-85 | every sprite the search decodes straddles two OAM entries: its Y is the first one's tile number, its X the first one's flags, its tile the second one's Y, and its palette bit comes from the second one's X |
| Ppu.StraddleAt | gb/ppu/oam.go:38-53 | the same straddle for any address 2 past a multiple of 4 |
| Ppu.WindowCheckValid | gb/ppu/transfer.go:15-17 | the window check, as written or corrected, keeps the fetcher's invariant |
| Ppu.DrawValid | gb/ppu/transfer.go:23-29 | the pop keeps the fetcher's invariant and draws only at indices inside the frame |
| Ppu.StartTransferAims | gb/ppu/transfer.go:4-10 | starting a line empties the FIFO, aims the fetcher at the background map and the tile column holding pixel SCX, and sets lx to 0 |
| Ppu.TransferStepValid | gb/ppu/transfer.go:13-41 | a step as written that succeeds keeps the fetcher's invariant |
| Ppu.DrawAndFinishValid | gb/ppu/transfer.go:22-40 | the pop followed by the end of the step keeps the fetcher's invariant |
| Ppu.StepParts | gb/ppu/transfer.go:22-40 | a step that succeeds is the pop followed by the end of the step: both succeed and the step's pixel is the pop's |
| Ppu.FinishValid | gb/ppu/transfer.go:31-40 | the end of a step keeps the fetcher's invariant |
| Ppu.FinishKeeps | gb/ppu/transfer.go:31-40 | the end of a step keeps lx; at column 160 it enters HBlank without stepping the fetcher; otherwise the mode stays, and on odd sc nothing changes |
| Ppu.FinishSucceeds | gb/ppu/transfer.go:31-40 | with the fetcher on its background path the end of a step cannot fail and stays on that path |
| Ppu.DrawOutcome | gb/ppu/transfer.go:23-29 | the pop draws a pixel exactly when it moves lx on by one, and otherwise leaves lx |
| Ppu.DrawDone | gb/ppu/transfer.go:23-29 | given what the fetcher's Pop returned and what was drawn, the pop succeeds exactly when the pixel's index is inside the frame, and then the frame changes at that pixel only |
| Ppu.DrawPlots | gb/ppu/transfer.go:25 | a drawn pixel goes to index ly * 160 + lx, inside the frame, with a shade in 0..3 |
| Ppu.DrawKeeps | gb/ppu/transfer.go:23-29 | the pop keeps the mode and the fetcher's state, changing only its queue |
| Ppu.DrawSucceeds | gb/ppu/transfer.go:23-29 | on a visible line with a column left the pop cannot fail |
| Ppu.TransferStepDraws | gb/ppu/transfer.go:13-41 | a step as written draws a pixel exactly when it moves lx on by one, and otherwise leaves lx |
| Ppu.DrawAndFinishDraws | gb/ppu/transfer.go:22-40 | after the window check, a step draws a pixel exactly when it moves lx on by one |
| Ppu.LxCarried | gb/ppu/transfer.go:31-40 | the end of a step carries the pop's pixel and lx through unchanged |
| Ppu.TransferStepPlots | gb/ppu/transfer.go:13-41 | the pixel a step as written draws is at (lx, ly), inside the frame, with a shade in 0..3 |
| Ppu.TransferStepEnds | gb/ppu/transfer.go:31-40 | a step as written ends in HBlank exactly when lx reaches 160, and then (or on odd sc) the fetcher is only popped, not stepped |
| Ppu.TransferStepSucceeds | gb/ppu/transfer.go:13-41 | on a visible line with a column left and the fetcher on its background path, a step as written cannot fail and keeps the fetcher on that path |
| Ppu.DrawAndFinishSucceeds | gb/ppu/transfer.go:22-40 | the same after the window check, for either window check |
| Ppu.WindowStallsAsWritten | gb/ppu/transfer.go:15-17 | as written, once lx equals WX with the window on and ly at or below WY, a step resets the fetcher, draws nothing and leaves lx, so the same condition holds at the next step and the line never ends |
| Ppu.WindowLetsPixelsThrough | gb/ppu/transfer.go:15-29 | corrected: once the window has started, a step with more than 8 pixels queued and nothing left to discard draws a pixel and moves lx on, also at column WX |
| Ppu.WindowStartsOnce | gb/ppu/transfer.go:15-17 | corrected: the first step meeting the window condition resets the fetcher to the window map and starts the window; once started, no later step of the line resets it |
| Ppu.PPU.constructor | gb/ppu/ppu.go:4-23 | every register, VRAM and OAM byte zero, an empty sprite cache, a fresh fetcher, and an MMU attached or not as given |
| Ppu.PPU.ReadVRAM | gb/ppu/memory.go:14-17 | the byte at an address below 0x4000 |
| Ppu.PPU.ReadOAM | gb/ppu/memory.go:19-22 | the byte at an address below 0x100 |
| Ppu.PPU.WriteVRAM | gb/ppu/memory.go:24-27 | the byte at addr becomes v and every other VRAM byte keeps its value |
| Ppu.PPU.WriteOAM | gb/ppu/memory.go:29-32 | the byte at addr becomes v and every other OAM byte keeps its value |
| Ppu.PPU.RequestVBlank | gb/ppu/memory.go:34-39 | interrupt 0 is requested through the MMU when one is attached, nothing otherwise |
| Ppu.PPU.RequestStat | gb/ppu/memory.go:41-46 | interrupt 1 is requested through the MMU when one is attached, nothing otherwise |
| Ppu.PPU.SetBGP | gb/ppu/tiles.go:57-63 | BGP reads back the written value |
| Ppu.PPU.SetOBP0 | gb/ppu/tiles.go:65-71 | OBP0 reads back the written value |
| Ppu.PPU.SetOBP1 | gb/ppu/tiles.go:73-79 | OBP1 reads back the written value |
| Ppu.PPU.SetSCY | gb/ppu/transfer.go:57-63 | SCY reads back the written value |
| Ppu.PPU.SetSCX | gb/ppu/transfer.go:65-71 | SCX reads back the written value |
| Ppu.PPU.SetWY | gb/ppu/transfer.go:73-79 | WY reads back the written value |
| Ppu.PPU.SetWX | gb/ppu/transfer.go:81-87 | WX reads back the written value |
| Ppu.PPU.StartOAMSearch | gb/ppu/oam.go:56-59 | the sprite cache is emptied |
| Ppu.PPU.StepOAMSearch | gb/ppu/oam.go:62-85 | the cache becomes OamStep of the old cache, OAM, sc, ly and the sprite height, or is left alone where Go would panic on an OAM index |
| Ppu.PPU.StartPixelTransfer | gb/ppu/transfer.go:4-10 | the fetcher and lx become StartTransfer of the old state and registers |
| Ppu.PPU.StepPixelTransfer | gb/ppu/transfer.go:13-41 | the fetcher, lx, mode and frame become exactly those of TransferStepAsWritten on the old state; it fails exactly where that does, the Go panics |
| Ppu.PPU.WindowCheckOf | gb/ppu/transfer.go:15-17 | the fetcher becomes that of the window check as written, keeping its invariant |
| Ppu.PPU.ResetToWindow | gb/ppu/transfer.go:16 | the fetcher is aimed at column 0 and line ly - WY of the window map; lx and mode are kept |
| Ppu.PPU.DrawOf | gb/ppu/transfer.go:23-29 | the state, the pixel and the frame are those of Draw on the old state |
| Ppu.PPU.PlotPixel | gb/ppu/transfer.go:25-28 | without a popped pixel nothing changes; otherwise the shade lands at (lx, ly) and lx moves on, or the step fails past the frame with nothing changed |
| Ppu.PPU.FinishOf | gb/ppu/transfer.go:31-40 | the mode and fetcher become those of Finish on the old state, and the fetcher keeps its invariant |
| PpuFetcher.ColourBits | gb/ppu/fetcher.go:204-207 | the colour number of a column is bit i of the low data byte plus twice bit i of the high one, always in 0..3 |
| PpuFetcher.MapIndex | gb/ppu/fetcher.go:145 | the tile-map entry bgMap + tileY * 32 + tileX lies inside VRAM |
| PpuFetcher.ResetValid | gb/ppu/fetcher.go:64-83 | Reset with a map base inside VRAM restores the invariant, empties the FIFO and restarts the background path at Tile |
| PpuFetcher.ResetDiscard | gb/ppu/fetcher.go:68-73 | Reset aims at the tile column holding pixel x but discards only x & 3 pixels of it, so for x mod 8 in 4..7 the line starts 4 pixels too far left |
| PpuFetcher.PopValid | gb/ppu/fetcher.go:85-109 | Pop keeps the invariant and the fetcher state |
| PpuFetcher.PopOutcome | gb/ppu/fetcher.go:85-109 | Pop changes nothing with 8 pixels or fewer queued or while a sprite is fetched; otherwise it removes the front pixel, and it yields a shade exactly when no discard credit is left |
| PpuFetcher.PushStarts | gb/ppu/fetcher.go:111-136 | PushSprite succeeds exactly when no sprite is being fetched; a refusal changes nothing, a success enters SpriteTile with the sprite and the FIFO untouched |
| PpuFetcher.SmallSpriteRow | gb/ppu/fetcher.go:119-133 | for an 8-row sprite on the line, row r = ly + 16 - Y is read from the sprite's own tile at offset 2r, or at the odd offset 15 - 2r when flipped vertically |
| PpuFetcher.FlipMirrors | gb/ppu/fetcher.go:220-225 | a horizontally flipped sprite row is the unflipped row mirrored |
| PpuFetcher.LoadBgValid | gb/ppu/fetcher.go:195-215 | loadBg succeeds exactly when at most 8 pixels are queued, appends the tile row, and so never lets the FIFO pass 16 pixels |
| PpuFetcher.LoadSpriteValid | gb/ppu/fetcher.go:217-241 | loadSprite succeeds exactly when at least 8 pixels are queued, and then overwrites pixels 0..7 with the sprite row, keeping the rest and the length |
| PpuFetcher.LoadStepsValid | gb/ppu/fetcher.go:153-168 | the Data1 and Idle loading steps keep the invariant |
| PpuFetcher.SetStateValid | gb/ppu/fetcher.go:141-192 | changing only the state number keeps the invariant |
| PpuFetcher.StepValid | gb/ppu/fetcher.go:138-193 | a successful step keeps the invariant, and a step fails exactly on a sprite load into a FIFO of fewer than 8 pixels |
| PpuFetcher.BgStepValid | gb/ppu/fetcher.go:143-168 | the background states keep the invariant |
| PpuFetcher.SpriteStepValid | gb/ppu/fetcher.go:170-190 | the sprite states keep the invariant and fail exactly on a sprite load into a short FIFO |
| PpuFetcher.BgTransitions | gb/ppu/fetcher.go:143-168 | on the background path a step never fails, never enters a sprite state, and moves Tile to Data0 to Data1, then to Tile after a load or Idle when the FIFO is too full |
| PpuFetcher.BgLoadNext | gb/ppu/fetcher.go:153-168 | the two loading states move as the background transition table says |
| PpuFetcher.LoadAfterData1 | gb/ppu/fetcher.go:153-162 | whatever the second data byte, the Data1 step moves as the transition table says |
| PpuFetcher.LoadStates | gb/ppu/fetcher.go:157-168 | after Data1 the state is Tile when at most 8 pixels are queued and Idle otherwise; Idle moves to Tile only then |
| PpuFetcher.SpriteTransitions | gb/ppu/fetcher.go:170-190 | with at least 8 pixels queued the sprite path runs SpriteTile, SpriteData0, SpriteData1, SpriteIdle and back to Tile without failing, taking the sprite's tile number |
| PpuFetcher.Fetcher.constructor | gb/ppu/fetcher.go:57-62 | every field at its zero value, which satisfies the invariant |
| PpuFetcher.Fetcher.Reset | gb/ppu/fetcher.go:64-83 | the fields become ResetState of the old fields |
| PpuFetcher.Fetcher.Pop | gb/ppu/fetcher.go:85-109 | the fields, shade and success flag are those of PopState |
| PpuFetcher.Fetcher.PushSprite | gb/ppu/fetcher.go:111-136 | the fields and the result are those of PushState |
| PpuFetcher.Fetcher.RowAddr | gb/ppu/fetcher.go:120-133 | the 8-bit steps of PushSprite give SpriteRowAddr's tile number and row offset |
| PpuFetcher.Fetcher.FlipOf | gb/ppu/fetcher.go:124-127 | the vertical flip gives FlipRowOffset |
| PpuFetcher.Fetcher.NextTileOf | gb/ppu/fetcher.go:129-133 | the move to the next tile gives NextTileRow |
| PpuFetcher.Fetcher.Step | gb/ppu/fetcher.go:138-193 | the fields become StepState of the old ones, or stay unchanged where Go would panic |
| PpuFetcher.Fetcher.StepBg | gb/ppu/fetcher.go:143-168 | the background states: the fields become BgStep of the old ones |
| PpuFetcher.Fetcher.Data1Of | gb/ppu/fetcher.go:153-162 | the second data byte is stored, then the load of the Data1 step |
| PpuFetcher.Fetcher.LoadOrWaitOf | gb/ppu/fetcher.go:157-162 | Tile after a load, Idle otherwise |
| PpuFetcher.Fetcher.LoadOrStayOf | gb/ppu/fetcher.go:164-168 | Tile once a load succeeds, unchanged otherwise |
| PpuFetcher.Fetcher.StepSprite | gb/ppu/fetcher.go:170-190 | the sprite states: the fields become SpriteStep of the old ones, or stay unchanged on a short FIFO |
| PpuFetcher.Fetcher.LoadBg | gb/ppu/fetcher.go:195-215 | the fields and result are those of LoadBgState |
| PpuFetcher.Fetcher.AppendRow | gb/ppu/fetcher.go:202-209 | the loop from bit 7 down to bit 0 appends exactly the eight pixels of the tile row |
| PpuFetcher.Fetcher.LoadSprite | gb/ppu/fetcher.go:217-235 | the loop puts the sprite row in FIFO slots 0..7 and keeps the rest |
| PpuFetcher.Fetcher.SpritePixel | gb/ppu/fetcher.go:227-231 | the sprite pixel built from bit x carries that column's colour number and the sprite's palette and priority |
| PpuFetcher.Fetcher.Mix | gb/ppu/fetcher.go:237-241 | the sprite pixel replaces FIFO slot i and nothing else |

## Left out

- The UI, the shaders and the command line (main/main.go, main/display.go, main/shaders.go, main/input.go, main/debug.go): window and terminal I/O.
- gb/clock.go: wall-clock pacing with a ticker and a mutex, which is concurrency.
- `Run`, `NewGameBoy` and `Input` in gb/gameboy.go: a goroutine and channel loop. Only RunClocks, the tick budget, LoadBootRom and LoadCartridge are modelled.
- The frame hand-off `pushFrame` (gb/ppu.go, gb/pixel_transfer.go, gb/transfer.go): a non-blocking channel send. The frame is modelled as the array the pixels are written into.
- The serial debug print of gb/io.go:105-109: console output.
- gb/debug.go and the debug.go files of gb/cpu and gb/ppu: debugging surfaces. gb/debug.go calls a RunCycles that does not exist.
- `readIO` and `writeIO` of gb/mmu/io.go:100-179: their `case AddrJOYP && m.joypad != nil` guards never compare the address, and writeIO has no value parameter. The MMU model reports reads and writes of FF00-FF7F as failures instead of dispatching them.
- The thin wrappers with no logic of their own: gb/mmu/mmu.go, gb/mmu/ppu.go, gb/mmu/joypad.go, gb/mmu/bootrom.go and gb/mmu/cartridge.go.
- The TODO files: gb/cpu/instruction.go, gb/cpu/interrupts.go (`triggerHalt`), gb/ppu/control.go and gb/transfer.go (`stepTransfer`).
- HALT entry: neither instruction table has an entry for 0x76. Only the halt-bug fetch (gb/cpu.go:247-256) and the halt exit on a pending interrupt (gb/interrupts.go:28) are modelled.
- In-place memory and aliasing:
  - Memory.Write (gb/memory.go) and WriteIO (gb/io.go) store into Go arrays. Here they are GbMemoryMap.Write and GbMemoryMap.WriteIO, pure updates that return a new Bus value.
  - The monolithic CPU class holds that Bus as a value field.
  - So in-place update and aliasing of vram, wram, oam, hram and io are not captured. No other object sees a write before the CPU's bus field is reassigned.
- The split CPU's memory: the MemoryIO interface of gb/cpu is a flat 64 KiB memory, or none. It is not the MMU of `mmu.dfy`, so the CPU bus gating and DMA are proved only on the MMU side.
- Go panics become error results, not crashes:
  - an index out of range becomes `Err(OutOfRange(i))`, for example a monolithic read of 0x4000-0x7FFF, a frame index past the frame, or loadSprite on a short FIFO;
  - a call through a nil interface becomes `Err(NilCall(addr))`;
  - `log.Fatal` on a missing opcode in RunClocks becomes `Err(Unimplemented(op))`.
- Ppu.PPU.ReadVRAM, Ppu.PPU.WriteVRAM, Ppu.PPU.ReadOAM and Ppu.PPU.WriteOAM require an address below 0x4000 or 0x100, as their doc comments in gb/ppu/memory.go say. The index panic beyond that range is not modelled.
- The PPU's Step, which RunClocks calls (gb/gameboy.go:100), does not exist in gb/ppu. GameBoy.GameBoy stands in a PPU that reports the same positive number of clocks, ppuStep, on every call.
  - That the PPU never falls behind the CPU is proved for every ppuStep.
  - Exact catch-up is proved for steps of 1, 2 or 4 clocks.
  - The real PPU's cost per call is not modelled.
- Fields the source uses but never declares are fields of the model:
  - the split Joypad's `input` byte, which starts at Go's zero value;
  - the split PPU's bgMap, winMap, tileset, spriteSize and winEnable flags, and its lx, sc, mode, oamCache, frame and fetcher;
  - the monolithic PPU's lx, fetcher and register snapshots;
  - the monolithic OAM search's cache;
  - the split MMU's cartridge, boot ROM, dma and dmaClocks.
- The split joypad's MMU field: NewJoypad leaves it nil and nothing assigns it, so Joypad.Joypad keeps `mmuAttached` false after construction and never delivers an interrupt. Its contracts state what happens with an MMU attached, but no caller in the package can attach one.
- The PPU's VRAMAccessible and OAMAccessible (gb/mmu/cpu.go) are implemented nowhere, so their answers are parameters of the MMU's bus operations.
- The monolithic fetcher's `ppu.vram` and `ppu.Tile` are implemented nowhere, so VRAM and the tile-data source are parameters of GbFetcher.
- Helpers the code calls but which are implemented nowhere are stand-ins:
  - utils.CopyBit (Bits.CopyBit) and utils.GetBit16 (Bits.GetBit16) with their evident meaning;
  - Memory.Write16 and Memory.Read16 (GbMachine.Write16, GbMachine.Read16), low byte first;
  - RequestInterrupt and handleInterrupts of package cpu, recorded in the CPU's event trace.
- resolve in gb/ppu/transfer.go:44-55 compares the boolean `px.palette` with 0 and 1. The model reads these as false and true.
- The per-mode step functions that gb/ppu.go's Update calls are empty in that file, so GbPpu models only the counters, the mode bits of STAT and the VBlank requests.
- GbMachine.ExecLd8: states only that IME, halt and F's clear low nibble are kept; what the load copies is stated by GbMachine.LdCopiesRegister.
- GbMachine.ExecLoadA: states only the kept IME, halt and F; the loaded value is stated by GbMachine.LoadA and GbMachine.StoreThenLoadA.
- GbMachine.ExecStoreA: states only the kept IME, halt and F; the store is stated through GbMachine.StoreThenLoadA.
- GbMachine.ExecLd16Imm: states only the kept IME, halt and F; the pair it loads from the immediate word is not stated in a contract.
- GbMachine.ExecLdAbsSP: states only the kept IME, halt and F; the two bytes of SP it stores at the immediate address are not stated in a contract.
- GbMachine.ExecPop: states only the kept IME, halt and F; the pop is stated through GbMachine.PushPopMoves.
- GbMachine.ExecPush: states only the kept IME, halt and F; the push is stated through GbMachine.PushPopMoves.
- GbMachine.ExecLdHLSPOffset: states only the kept IME, halt and F; the sum is stated by GbMachine.LdHLSPOffsetSum.
- GbMachine.ExecIncDec8: states only the kept IME, halt and F; the result and flags of the register forms are stated by GbMachine.IncDec8Reg, the (HL) forms' store is not stated.
- GbMachine.ExecDaa: states only the kept IME, halt and F; the adjusted value and flags are those of GbAlu.OpDaa, whose contract and lemmas state them.
- GbMachine.ExecCpl: states only the kept IME, halt and F; the complement is stated by GbMachine.CplComplements.
- GbMachine.ExecScf: states only the kept IME, halt and F; the flags are stated by GbMachine.ScfSetsCarry.
- GbMachine.ExecCcf: states only the kept IME, halt and F; the flags are stated by GbMachine.CcfFlipsCarry.
- GbMachine.ExecAlu: states only the kept IME, halt and F; the arithmetic is stated by the GbAlu lemmas, GbMachine.CarryFlagIgnored and GbMachine.CpOverwritesA.
- GbMachine.ExecIncDec16: states only the kept IME, halt and F; the store is stated by GbMachine.IncDec16IsStore and GbMachine.IncDec16Inverse.
- GbMachine.ExecAddHL: states only the kept IME, halt and F; the sum is stated by GbMachine.AddHLSums.
- GbMachine.ExecAddSPOffset: states only the kept IME, halt and F; the sum is stated by GbMachine.AddSPOffsetSum.
- GbMachine.Exec: states only the frame invariant over the whole table; each entry's effect is that of the Exec function for its form.
- GbMachine.Run: states only the frame invariant of the instruction phase; the cycles it charges are stated by GbMachine.StepCost and GbMachine.HaltedStep.

## Findings

| source | as written | input that shows it | evidently intended | confidence | as-written member | corrected member |
|---|---|---|---|---|---|---|
| gb/instructions.go:916-924 | after an addition, opDaa tests `a > 0x99` on A after the +0x06 low-digit adjustment, so a correction that carries A past 0xFF hides the decimal carry | A = 0x61 + 0x99 = 0xFA with N, H and C clear: DAA gives 0x00 with C clear | test the unadjusted A: 0x60 with C set, the decimal sum 61 + 99 = 160 | not executed | GbAlu.OpDaa, GbAlu.DaaAsWrittenLosesCarry | GbAlu.OpDaaIntended, GbAlu.DaaAfterAdd |
| gb/joypad.go:86-93 | in both generations (also gb/joypad/joypad.go:56-62) the button step tests bit 5 of JOYP after the D-pad step has AND-ed it with `input >> 4`, which clears bit 5, so selecting the D-pad also reads the button lines | write 0x20 (D-pad selected) with only A pressed (input 0xFE): JOYP reads 0x0E, as if Right were held | test the select bits as written: 0x2F, no line low | not executed | JoypadMatrix.Matrix, JoypadMatrix.DPadReadsButtonLines | JoypadMatrix.MatrixIntended, JoypadMatrix.MatrixIntendedLines, JoypadMatrix.IntendedPressRequestsInterrupt |
| gb/ppu/transfer.go:15-17 | the window check resets the fetcher on every step at which lx equals WX, emptying the FIFO before the pop, so lx never passes WX | window on, ly >= WY and lx = WX < 160: the step draws nothing, lx stays, and the same reset repeats on every later step of the line | reset to the window once per line, then let its pixels through | not executed | Ppu.TransferStepAsWritten, Ppu.WindowStallsAsWritten | Ppu.TransferStep, Ppu.WindowLetsPixelsThrough, Ppu.WindowStartsOnce |
| gb/cpu/micro_ops.go:208-209 | opSAdd sets H from the 8-bit difference `(a & 0xf) - (b & 0xf) > 0xf`, a borrow, and C from the 16-bit sum `r > 0xff` | a = 0x000F, b = 0x01 leaves H clear though the add carries out of bit 3; a = 0x0100, b = 0 sets C with no carry | H and C are the carries out of bits 3 and 7 of the 8-bit add of a's low byte and b, as in the monolithic opSignedAdd | not executed | CpuOps.SAddFlagsAsWritten, CpuOps.SAddAsWrittenDiffers | CpuOps.SAddFlags, CpuOps.SAddFlagsMatchMonolithic |
