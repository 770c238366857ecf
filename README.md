# Steel6502 core in Dafny

A model of the processor core of Steel6502, an emulator of the WDC W65C02S (the CMOS
successor of the 6502) written in Rust, together with the paged memory and the machine
bus it runs on.

The model has three layers.

- **Memory and bus** (`memory.dfy`, `bus.dfy`) are imperative.
  - `MemoryPage` is a 256-byte array.
  - `RAMSegment` and `ROMSegment` hold a run of pages. A ghost `Bytes` sequence is tied to the page buffers by `Valid()`.
  - `Bus.Machine` routes the 64 KiB address space through a 256-entry page map: 32 KiB of RAM at 0x0000-0x7FFF and 32 KiB of ROM at 0x8000-0xFFFF. Its ghost `View()` is the address space the processor sees.
  - A write into ROM is the emulator's panic. The model reports it as an explicit outcome.
- **Reference semantics** (`isa.dfy`, `semantics.dfy`) are pure functions.
  - `isa.dfy` holds the flags, addressing modes and mnemonics, and the 256-entry opcode table laid out row by row as the datasheet's matrix.
  - `semantics.dfy` holds every operation body, operand resolution and `step`, as functions from the registers and the 64 KiB address space to the next state.
  - An operation ends in one of three ways: `Done`, `Failed` (the `CpuError` the Rust code returns) or `Panicked` (a ROM write, an `unimplemented!()` body, or an `unreachable!()` operand).
- **The processor** (`cpu.dfy`) is a class `W65C02S`.
  - Its six register fields are updated in place, and its methods talk to a `Bus.Machine`.
  - Every method, from `status_set` up to `step`, is proved to compute the matching reference function.
  - The properties in `properties.dfy` are proved about those functions, so they hold for the processor too.

Integer widths follow the source: `u8` is `bv8` and `u16` is `bv16`, so every `wrapping_add`/`wrapping_sub` is native bit-vector arithmetic.

## Model

| member | source | states |
|---|---|---|
| Prelude.Join | src/cpu/w65c02s.rs:1040-1045 | the little-endian join `(high << 8) \| low` gives back its low and high bytes |
| Prelude.JoinOfHalves | src/cpu/w65c02s.rs:1040-1045 | splitting a word into its bytes and joining them again gives the word back |
| Isa.Mask | src/cpu/w65c02s.rs:19-31 | each flag's mask is a single bit, and none is bit 5 |
| Isa.MasksDisjoint | src/cpu/w65c02s.rs:19-31 | two flags share a bit exactly when they are the same flag |
| Isa.NumOperandBytes | src/cpu/w65c02s.rs:1167-1191 | at most two operand bytes; none exactly for the accumulator, implied and stack modes |
| Isa.OperationAt | src/cpu/w65c02s.rs:57-314 | the decoding table agrees with the written table at every opcode except 0x9C (STZ absolute) and 0x9E (STZ absolute,X) |
| Isa.StzAsWritten | src/cpu/w65c02s.rs:214-216 | the written table decodes 0x9C as STZ a,x and 0x9E as STZ a,y |
| Isa.StzAbsoluteMissingAsWritten | src/cpu/w65c02s.rs:57-314 | in the written table no opcode is STZ absolute, 0x9C is the only STZ a,x and 0x9E is an STZ a,y |
| Isa.StzAsDatasheet | src/cpu/w65c02s.rs:57-314 | in the decoding table STZ absolute is exactly 0x9C, STZ a,x exactly 0x9E, and no opcode is STZ a,y |
| Isa.MissingIffListedAsWritten | src/cpu/w65c02s.rs:56-314 | an opcode has no entry in the written table exactly when the comment's list of invalid opcodes names it |
| Isa.MissingIffListed | src/cpu/w65c02s.rs:56-314 | the same holds for the decoding table |
| Isa.ExactlyFortyFourInvalid | src/cpu/w65c02s.rs:56-314 | the set of opcodes without an entry is the listed set, and it has exactly 44 elements |
| Isa.IncreasingElementsCount | src/cpu/w65c02s.rs:56 | a strictly increasing list has as many distinct elements as entries (used to count the invalid opcodes) |
| Isa.SignExtend | src/cpu/w65c02s.rs:1089-1093 | the `i8` offset widened to 16 bits keeps its low byte and has a high byte of 0x00 or 0xFF by sign |
| Semantics.SetFlag | src/cpu/w65c02s.rs:371-374 | the flag reads back as the value given, and every other bit of P is kept |
| Semantics.UpdateZN | src/cpu/w65c02s.rs:380-383 | Z is set iff the value is zero and N iff its bit 7 is set; the other six bits are kept |
| Semantics.ReadU16 | src/cpu/w65c02s.rs:1040-1045 | low byte from `address`, high byte from `address + 1` wrapping at 0xFFFF |
| Semantics.Write | src/bus/bus.rs:69-76 | a write succeeds iff the address is below 0x8000 and then changes exactly that byte; otherwise it is the ROM-write panic at that address |
| Semantics.FetchU16 | src/cpu/w65c02s.rs:323-328 | the fetched word is the little-endian word at PC, and PC moves on by two |
| Semantics.StackAddress | src/cpu/w65c02s.rs:54 | the stack slot is in page one at offset SP, so always in RAM |
| Semantics.Reset | src/cpu/w65c02s.rs:348-352 | PC is loaded from 0xFFFC/0xFFFD, P becomes 0x34, and A, X, Y and SP are kept |
| Semantics.Put | src/cpu/w65c02s.rs:735-755 | loading a register sets that register to the value, and every other register (the other data registers, PC, SP and P) is kept |
| Memory.IdxSplit | src/memory/memory.rs:97-102 | page times 256 plus offset gives back the global index |
| Memory.CheckIdx | src/memory/memory.rs:103-110 | succeeds iff the index lies inside the segment's pages, with the split; otherwise `OutOfRange(idx)` |
| Memory.IdxSplitInRange | src/memory/memory.rs:103-110 | the page of the split is one of `n` pages exactly when the index is below `256 * n` |
| Memory.MemoryPage.constructor | src/memory/memory.rs:24-26 | a fresh page of 256 zero bytes |
| Memory.MemoryPage.CheckIdx | src/memory/memory.rs:28-34 | an index is accepted iff it is below 256 |
| Memory.MemoryPage.ReadUnchecked | src/memory/memory.rs:37-39 | returns the byte at the offset |
| Memory.MemoryPage.WriteUnchecked | src/memory/memory.rs:46-48 | changes exactly the byte at the offset |
| Memory.MemoryPage.Contents | src/memory/memory.rs:50-52 | the 256 bytes in order |
| Memory.MemoryPage.Peek | src/memory/memory.rs:61-63 | succeeds with the byte iff the index is below 256, else `OutOfRange(idx)` |
| Memory.MemoryPage.Read | src/memory/memory.rs:66-72 | the inline bounds check agrees with `Peek` |
| Memory.MemoryPage.Write | src/memory/memory.rs:75-82 | in range, exactly that byte changes; out of range, `OutOfRange(idx)` and nothing changes |
| Memory.RAMSegment.constructor | src/memory/memory.rs:90-95 | `num_pages` distinct zeroed pages, `256 * num_pages` bytes |
| Memory.RAMSegment.PeekPageOffset | src/memory/memory.rs:115-117 | the byte at `page * 256 + offset` of the segment |
| Memory.RAMSegment.ReadPageOffset | src/memory/memory.rs:112-114 | the byte at `page * 256 + offset` of the segment |
| Memory.RAMSegment.WritePageOffset | src/memory/memory.rs:119-121 | changes exactly the byte at `page * 256 + offset` |
| Memory.RAMSegment.Peek | src/memory/memory.rs:150-154 | succeeds with the byte iff the index is below the segment size, else `OutOfRange(idx)` |
| Memory.RAMSegment.Read | src/memory/memory.rs:155-159 | agrees with `Peek` |
| Memory.RAMSegment.Write | src/memory/memory.rs:162-168 | in range, exactly that byte changes; out of range, `OutOfRange(idx)` and nothing changes |
| Memory.RAMSegment.Load | src/memory/memory.rs:123-133 | corrected load: the first `min(len, size)` bytes become the image, the rest is kept |
| Memory.RAMSegment.LoadAsWritten | src/memory/memory.rs:123-133 | load as guarded in the source: it panics exactly when the image is longer than the segment, after filling the whole segment |
| Memory.RAMSegment.Contents | src/memory/memory.rs:134-143 | the pages' bytes concatenated in order, equal to the segment's contents |
| Memory.ROMSegment.constructor | src/memory/memory.rs:175-180 | `num_pages` distinct zeroed pages |
| Memory.ROMSegment.PeekPageOffset | src/memory/memory.rs:216-218 | the byte at `page * 256 + offset` |
| Memory.ROMSegment.ReadPageOffset | src/memory/memory.rs:213-215 | the byte at `page * 256 + offset` |
| Memory.ROMSegment.Peek | src/memory/memory.rs:226-230 | succeeds with the byte iff the index is below the segment size |
| Memory.ROMSegment.Read | src/memory/memory.rs:231-235 | agrees with `Peek` |
| Memory.ROMSegment.StorePageOffset | src/memory/memory.rs:206 | the unchecked page write `load` uses changes exactly one byte |
| Memory.ROMSegment.Load | src/memory/memory.rs:197-211 | an image longer than the segment is refused whole with `OutOfRange(size)`; otherwise it becomes the first bytes and the rest is kept |
| Bus.SplitAddress | src/bus/bus.rs:16-18 | page and offset recombine to the address; the page is below 0x80 iff the address is below 0x8000 |
| Bus.Machine.StandardPageMap | src/bus/bus.rs:37-47 | pages 0x00-0x7F map to RAM pages 0-127, pages 0x80-0xFF to ROM pages 0-127 |
| Bus.Machine.NewRam32kRom32k | src/bus/bus.rs:29-50 | zeroed RAM; ROM holds the image followed by zeros, visible from 0x8000 |
| Bus.Machine.NewRam32kRom32kOrPanic | src/bus/bus.rs:29-35 | the construction panics exactly when the ROM image is longer than 32 KiB; otherwise RAM is zeroed and ROM holds the image followed by zeros |
| Bus.Machine.LoadRam | src/bus/bus.rs:52-54 | with the corrected segment load: the RAM image is copied from address 0 up to the end of RAM, and ROM is untouched |
| Bus.Machine.LoadRamAsWritten | src/bus/bus.rs:52-54 | as written: an image of at most 32 KiB is copied from address 0; a longer one fills all of RAM and then panics; ROM is untouched either way |
| Bus.Machine.RamContents | src/bus/bus.rs:55-57 | element `i` of the dump is what a read of address `i` returns |
| Bus.Machine.Read | src/bus/bus.rs:60-67 | the byte of the address space at the address: RAM below 0x8000, ROM above |
| Bus.Machine.Write | src/bus/bus.rs:69-76 | below 0x8000 exactly that byte changes; a ROM address is the panic and nothing changes |
| Cpu.BusReadU16 | src/cpu/w65c02s.rs:1040-1045 | two bus reads give the reference little-endian word |
| Cpu.ReadZeroPagePointer | src/cpu/w65c02s.rs:1120-1126 | the pointer of the `(zp)` modes, its high byte from `zp + 1` wrapped within page zero |
| Cpu.W65C02S.constructor | src/cpu/w65c02s.rs:39-47 | `Default`: every register zero |
| Cpu.W65C02S.StatusSet | src/cpu/w65c02s.rs:371-374 | P becomes `SetFlag(P, flag, val)`; the other registers are kept |
| Cpu.W65C02S.StatusUpdateZN | src/cpu/w65c02s.rs:380-383 | P becomes `UpdateZN(P, val)` |
| Cpu.W65C02S.SetPDefault | src/cpu/w65c02s.rs:385-387 | P becomes 0x34 |
| Cpu.W65C02S.AddToAccumulator | src/cpu/w65c02s.rs:395-405 | A and P become the reference `AddWithCarry` |
| Cpu.W65C02S.SubtractFromAccumulator | src/cpu/w65c02s.rs:881-888 | A and P become the reference `SubtractWithBorrow` |
| Cpu.W65C02S.CompareWith | src/cpu/w65c02s.rs:619-645 | P becomes the reference compare flags |
| Cpu.W65C02S.TestBits | src/cpu/w65c02s.rs:498-511 | P becomes BIT's flags, immediate mode leaving N and V alone |
| Cpu.W65C02S.ShiftLeft | src/cpu/w65c02s.rs:419-429 | result and P as ASL defines them |
| Cpu.W65C02S.ShiftRight | src/cpu/w65c02s.rs:756-766 | result and P as LSR defines them |
| Cpu.W65C02S.RotateLeft | src/cpu/w65c02s.rs:834-845 | result and P as ROL defines them |
| Cpu.W65C02S.RotateRight | src/cpu/w65c02s.rs:846-857 | result and P as ROR defines them |
| Cpu.W65C02S.Increment | src/cpu/w65c02s.rs:684-693 | result and P as INC defines them |
| Cpu.W65C02S.Decrement | src/cpu/w65c02s.rs:646-655 | result and P as DEC defines them |
| Cpu.W65C02S.TestAndReset | src/cpu/w65c02s.rs:952-961 | result and P as TRB defines them |
| Cpu.W65C02S.TestAndSet | src/cpu/w65c02s.rs:962-971 | result and P as TSB defines them |
| Cpu.W65C02S.FetchU8 | src/cpu/w65c02s.rs:318-322 | returns the byte at PC and increments PC, wrapping |
| Cpu.W65C02S.FetchU16 | src/cpu/w65c02s.rs:324-328 | returns the little-endian word at PC and advances PC by two |
| Cpu.W65C02S.StackPushU8 | src/cpu/w65c02s.rs:331-334 | writes at `0x0100 \| SP`, then decrements SP |
| Cpu.W65C02S.StackPushReturnAddress | src/cpu/w65c02s.rs:721-726 | two pushes, high byte first |
| Cpu.W65C02S.StackPushBreakFrame | src/cpu/w65c02s.rs:559-563 | BRK's three pushes: PC+1 high, PC+1 low, P with B set |
| Cpu.W65C02S.StackPullU8 | src/cpu/w65c02s.rs:336-339 | increments SP, then reads `0x0100 \| SP` |
| Cpu.W65C02S.Reset | src/cpu/w65c02s.rs:348-352 | the registers become the reference `Reset` |
| Cpu.W65C02S.ResolveAbsolute | src/cpu/w65c02s.rs:1049-1077 | the five absolute modes resolve as the reference does |
| Cpu.W65C02S.ResolveZeroPage | src/cpu/w65c02s.rs:1097-1119 | `zp`, `zp,x`, `zp,y` and `zp,rel` resolve as the reference does |
| Cpu.W65C02S.ResolveZeroPageIndirect | src/cpu/w65c02s.rs:1102-1136 | `(zp,x)`, `(zp)` and `(zp),y` resolve as the reference does |
| Cpu.W65C02S.ResolveOperand | src/cpu/w65c02s.rs:1047-1145 | the operand and the new registers are the reference resolution of the mode |
| Cpu.W65C02S.OperandRead | src/cpu/w65c02s.rs:1388-1396 | the reference operand read: a byte, or `InvalidOperand` for implied and relative operands |
| Cpu.W65C02S.OperandWrite | src/cpu/w65c02s.rs:1397-1403 | the reference operand write: memory or A, the ROM panic, or `InvalidOperand` |
| Cpu.W65C02S.OpAdc | src/cpu/w65c02s.rs:393-408 | matches the reference body: ADC sets A to the sum modulo 256 and C, V, Z, N as the reference function, or reports an unreadable operand with nothing changed (properties: Properties.AdcCarryAndOverflow) |
| Cpu.W65C02S.OpSbc | src/cpu/w65c02s.rs:879-891 | matches the reference body: SBC computes `A + !M + C` with C, V, Z, N, or reports an unreadable operand (properties: Properties.SbcIsAdcOfComplement) |
| Cpu.W65C02S.OpAnd | src/cpu/w65c02s.rs:409-418 | matches the reference body: A becomes `A & M`, Z and N describe it; an unreadable operand is reported and nothing changes |
| Cpu.W65C02S.OpOra | src/cpu/w65c02s.rs:770-779 | matches the reference body: A becomes `A | M`, Z and N describe it; an unreadable operand is reported |
| Cpu.W65C02S.OpEor | src/cpu/w65c02s.rs:674-683 | matches the reference body: A becomes `A ^ M`, Z and N describe it; an unreadable operand is reported |
| Cpu.W65C02S.OpCmp | src/cpu/w65c02s.rs:619-627 | matches the reference body: only P changes, to the compare flags of A against M (properties: Properties.CompareFlagsMeaning) |
| Cpu.W65C02S.OpCpx | src/cpu/w65c02s.rs:628-636 | matches the reference body: only P changes, to the compare flags of X against M |
| Cpu.W65C02S.OpCpy | src/cpu/w65c02s.rs:637-645 | matches the reference body: only P changes, to the compare flags of Y against M |
| Cpu.W65C02S.OpBit | src/cpu/w65c02s.rs:498-511 | matches the reference body: Z from `A & M`; N and V copied from bits 7 and 6 of M except for an immediate operand |
| Cpu.W65C02S.OpAsl | src/cpu/w65c02s.rs:419-429 | matches the reference body: the operand becomes `M << 1`, C takes bit 7, Z and N the result; P is updated before the write, so a store into ROM aborts after it |
| Cpu.W65C02S.OpLsr | src/cpu/w65c02s.rs:756-766 | matches the reference body: the operand becomes `M >> 1`, C takes bit 0, Z and N the result |
| Cpu.W65C02S.OpRol | src/cpu/w65c02s.rs:834-845 | matches the reference body: the operand becomes `M << 1 | C`, C takes bit 7, Z and N the result |
| Cpu.W65C02S.OpRor | src/cpu/w65c02s.rs:846-857 | matches the reference body: the operand becomes `M >> 1 | C << 7`, C takes bit 0, Z and N the result |
| Cpu.W65C02S.OpTrb | src/cpu/w65c02s.rs:952-961 | matches the reference body: memory becomes `M & !A`; Z is set when M and A share no bit |
| Cpu.W65C02S.OpTsb | src/cpu/w65c02s.rs:962-971 | matches the reference body: memory becomes `M | A`; Z is set when M and A share no bit |
| Cpu.W65C02S.OpInc | src/cpu/w65c02s.rs:684-693 | matches the reference body: the operand becomes `M + 1` modulo 256, Z and N describe it |
| Cpu.W65C02S.OpDec | src/cpu/w65c02s.rs:646-655 | matches the reference body: the operand becomes `M - 1` modulo 256, Z and N describe it |
| Cpu.W65C02S.OpRmbN | src/cpu/w65c02s.rs:826-833 | matches the reference body: bit n of the byte is cleared and written back; P is untouched (properties: Properties.ClearAndSetBit) |
| Cpu.W65C02S.OpSmbN | src/cpu/w65c02s.rs:907-914 | matches the reference body: bit n of the byte is set and written back; P is untouched |
| Cpu.W65C02S.OpLda | src/cpu/w65c02s.rs:735-741 | matches the reference body: A becomes M, Z and N describe it; nothing else changes |
| Cpu.W65C02S.OpLdx | src/cpu/w65c02s.rs:742-748 | matches the reference body: X becomes M, Z and N describe it |
| Cpu.W65C02S.OpLdy | src/cpu/w65c02s.rs:749-755 | matches the reference body: Y becomes M, Z and N describe it |
| Cpu.W65C02S.OpSta | src/cpu/w65c02s.rs:915-919 | matches the reference body: A is written to the operand: memory below 0x8000 changes at one address, a ROM address aborts, a non-address operand is reported |
| Cpu.W65C02S.OpStx | src/cpu/w65c02s.rs:923-927 | matches the reference body: X is written to the operand as STA writes A |
| Cpu.W65C02S.OpSty | src/cpu/w65c02s.rs:928-932 | matches the reference body: Y is written to the operand as STA writes A |
| Cpu.W65C02S.OpStz | src/cpu/w65c02s.rs:933-937 | matches the reference body: zero is written to the operand as STA writes A |
| Cpu.W65C02S.OpInx | src/cpu/w65c02s.rs:694-702 | matches the reference body: X becomes `X + 1` modulo 256, Z and N describe it |
| Cpu.W65C02S.OpIny | src/cpu/w65c02s.rs:703-711 | matches the reference body: Y becomes `Y + 1` modulo 256, Z and N describe it |
| Cpu.W65C02S.OpDex | src/cpu/w65c02s.rs:656-664 | matches the reference body: X becomes `X - 1` modulo 256, Z and N describe it |
| Cpu.W65C02S.OpDey | src/cpu/w65c02s.rs:665-673 | matches the reference body: Y becomes `Y - 1` modulo 256, Z and N describe it |
| Cpu.W65C02S.OpTax | src/cpu/w65c02s.rs:938-944 | matches the reference body: X becomes A, Z and N describe it |
| Cpu.W65C02S.OpTay | src/cpu/w65c02s.rs:945-951 | matches the reference body: Y becomes A, Z and N describe it |
| Cpu.W65C02S.OpTsx | src/cpu/w65c02s.rs:972-978 | matches the reference body: X becomes SP, Z and N describe it |
| Cpu.W65C02S.OpTxa | src/cpu/w65c02s.rs:979-985 | matches the reference body: A becomes X, Z and N describe it |
| Cpu.W65C02S.OpTxs | src/cpu/w65c02s.rs:986-990 | matches the reference body: SP becomes X and P is untouched |
| Cpu.W65C02S.OpTya | src/cpu/w65c02s.rs:991-997 | matches the reference body: A becomes Y, Z and N describe it |
| Cpu.W65C02S.OpClc | src/cpu/w65c02s.rs:599-603 | matches the reference body: C is cleared, every other bit and register kept |
| Cpu.W65C02S.OpCld | src/cpu/w65c02s.rs:604-608 | matches the reference body: D is cleared, every other bit and register kept |
| Cpu.W65C02S.OpCli | src/cpu/w65c02s.rs:609-613 | matches the reference body: I is cleared, every other bit and register kept |
| Cpu.W65C02S.OpClv | src/cpu/w65c02s.rs:614-618 | matches the reference body: V is cleared, every other bit and register kept |
| Cpu.W65C02S.OpSec | src/cpu/w65c02s.rs:892-896 | matches the reference body: C is set, every other bit and register kept |
| Cpu.W65C02S.OpSed | src/cpu/w65c02s.rs:897-901 | matches the reference body: D is set, every other bit and register kept |
| Cpu.W65C02S.OpSei | src/cpu/w65c02s.rs:902-906 | matches the reference body: I is set, every other bit and register kept |
| Cpu.W65C02S.OpBcc | src/cpu/w65c02s.rs:462-473 | matches the reference body: PC moves by the signed offset when C is clear and stays otherwise; a non-relative operand is the source's `unreachable!()` abort (properties: Properties.BranchForward, Properties.BranchBackward) |
| Cpu.W65C02S.OpBcs | src/cpu/w65c02s.rs:474-485 | matches the reference body: PC moves by the signed offset when C is set |
| Cpu.W65C02S.OpBeq | src/cpu/w65c02s.rs:486-497 | matches the reference body: PC moves by the signed offset when Z is set |
| Cpu.W65C02S.OpBmi | src/cpu/w65c02s.rs:512-523 | matches the reference body: PC moves by the signed offset when N is set |
| Cpu.W65C02S.OpBne | src/cpu/w65c02s.rs:524-535 | matches the reference body: PC moves by the signed offset when Z is clear |
| Cpu.W65C02S.OpBpl | src/cpu/w65c02s.rs:536-547 | matches the reference body: PC moves by the signed offset when N is clear |
| Cpu.W65C02S.OpBvc | src/cpu/w65c02s.rs:575-586 | matches the reference body: PC moves by the signed offset when V is clear |
| Cpu.W65C02S.OpBvs | src/cpu/w65c02s.rs:587-598 | matches the reference body: PC moves by the signed offset when V is set |
| Cpu.W65C02S.OpBra | src/cpu/w65c02s.rs:548-557 | matches the reference body: PC always moves by the signed offset |
| Cpu.W65C02S.OpBbrN | src/cpu/w65c02s.rs:430-445 | matches the reference body: PC moves by the signed offset when bit n of the zero-page byte is clear |
| Cpu.W65C02S.OpBbsN | src/cpu/w65c02s.rs:446-461 | matches the reference body: PC moves by the signed offset when bit n of the zero-page byte is set |
| Cpu.W65C02S.OpPha | src/cpu/w65c02s.rs:780-784 | matches the reference body: A is pushed: written at `0x0100 | SP`, then SP decremented (properties: Properties.PhaThenPla) |
| Cpu.W65C02S.OpPhp | src/cpu/w65c02s.rs:785-789 | matches the reference body: P is pushed with bits 4 and 5 set (properties: Properties.PhpThenPlp) |
| Cpu.W65C02S.OpPhx | src/cpu/w65c02s.rs:790-794 | matches the reference body: X is pushed |
| Cpu.W65C02S.OpPhy | src/cpu/w65c02s.rs:795-799 | matches the reference body: Y is pushed |
| Cpu.W65C02S.OpPla | src/cpu/w65c02s.rs:800-806 | matches the reference body: SP is incremented and A loaded from `0x0100 | SP`; Z and N describe it |
| Cpu.W65C02S.OpPlx | src/cpu/w65c02s.rs:812-818 | matches the reference body: X is pulled; Z and N describe it |
| Cpu.W65C02S.OpPly | src/cpu/w65c02s.rs:819-825 | matches the reference body: Y is pulled; Z and N describe it |
| Cpu.W65C02S.OpPlp | src/cpu/w65c02s.rs:807-811 | matches the reference body: P becomes the pulled byte with bit 5 set and B clear (properties: Properties.PulledStatusBits) |
| Cpu.W65C02S.OpBrk | src/cpu/w65c02s.rs:558-574 | matches the reference body: pushes PC+1 and P with B set, sets I and jumps through the vector at 0xFFFE (properties: Properties.BrkFrame, Properties.BrkThenRti) |
| Cpu.W65C02S.OpJmp | src/cpu/w65c02s.rs:712-717 | matches the reference body: PC becomes the operand address |
| Cpu.W65C02S.OpJsr | src/cpu/w65c02s.rs:718-734 | matches the reference body: pushes PC-1 high byte first and jumps (properties: Properties.JsrFrame, Properties.JsrThenRts) |
| Cpu.W65C02S.OpRti | src/cpu/w65c02s.rs:858-869 | matches the reference body: pulls P (bit 5 set, B clear), then PC low and high bytes |
| Cpu.W65C02S.OpRts | src/cpu/w65c02s.rs:870-878 | matches the reference body: pulls PC low and high bytes and continues one past that address |
| Cpu.W65C02S.OpNop | src/cpu/w65c02s.rs:767-769 | matches the reference body: nothing changes |
| Cpu.W65C02S.OpStp | src/cpu/w65c02s.rs:920-922 | matches the reference body: the unimplemented body is an abort of the emulator |
| Cpu.W65C02S.OpWai | src/cpu/w65c02s.rs:998-1000 | matches the reference body: the unimplemented body is an abort of the emulator |
| Cpu.W65C02S.ExecuteAlu | src/cpu/w65c02s.rs:359 | the call through the table's operation pointer for ADC, SBC, AND, ORA, EOR, CMP, CPX, CPY and BIT matches the reference |
| Cpu.W65C02S.ExecuteLoadStore | src/cpu/w65c02s.rs:359 | the same for the loads and stores |
| Cpu.W65C02S.ExecuteModify | src/cpu/w65c02s.rs:359 | the same for the read-modify-write operations |
| Cpu.W65C02S.ExecuteTransfer | src/cpu/w65c02s.rs:359 | the same for the register transfers |
| Cpu.W65C02S.ExecuteRegister | src/cpu/w65c02s.rs:359 | the same for increments, decrements and transfers |
| Cpu.W65C02S.ExecuteFlag | src/cpu/w65c02s.rs:359 | the same for the flag operations |
| Cpu.W65C02S.ExecuteConditionalBranch | src/cpu/w65c02s.rs:359 | the same for the flag-tested branches |
| Cpu.W65C02S.ExecuteBranch | src/cpu/w65c02s.rs:359 | the same for every branch, BRA, BBRn and BBSn included |
| Cpu.W65C02S.ExecuteStack | src/cpu/w65c02s.rs:359 | the same for pushes and pulls |
| Cpu.W65C02S.ExecuteControl | src/cpu/w65c02s.rs:359 | the same for BRK, JMP, JSR, RTI, RTS, NOP, STP and WAI |
| Cpu.W65C02S.ExecuteData | src/cpu/w65c02s.rs:359 | the same for the four data groups |
| Cpu.W65C02S.ExecuteFlow | src/cpu/w65c02s.rs:359 | the same for the four control-flow groups |
| Cpu.W65C02S.Execute | src/cpu/w65c02s.rs:359 | executing any mnemonic matches the reference `Exec` |
| Cpu.W65C02S.Step | src/cpu/w65c02s.rs:354-367 | one `step`, decoding with the table it is given (the one as written, `AsWritten`, or the corrected one), matches the reference `Step` on that table: the mnemonic, or the error, or the abort |
| Properties.BitMaskIsShift | src/cpu/w65c02s.rs:431 | the bit masks are `1 << n` |
| Properties.ClearAndSetBit | src/cpu/w65c02s.rs:826-833 | RMBn clears bit n and SMBn sets it; every other bit of the byte is kept |
| Properties.SetFlagSetsOrClears | src/cpu/w65c02s.rs:371-374 | `status_set` is `P \| mask` for true and `P & !mask` for false |
| Properties.SetDecimalCommutes | src/cpu/w65c02s.rs:371-374 | setting D commutes with setting or clearing any other flag |
| Properties.AdcCarryAndOverflow | src/cpu/w65c02s.rs:393-408 | result + 256 * C' = A + M + C, V iff the operands share a sign the result lacks, Z and N from the result, I, D, B and bit 5 kept |
| Properties.SbcIsAdcOfComplement | src/cpu/w65c02s.rs:879-891 | SBC gives the same result and flags as ADC of `!M` |
| Properties.CarryInIgnoresOtherFlags | src/cpu/w65c02s.rs:395 | the carry-in depends on C alone |
| Properties.UpdateZNKeepsD | src/cpu/w65c02s.rs:380-383 | the Z/N update commutes with setting D |
| Properties.FlagUpdatesKeepD | src/cpu/w65c02s.rs:398-403 | the C, V, Z, N updates of ADC and SBC commute with setting D |
| Properties.WideSumIgnoresDecimalFlag | src/cpu/w65c02s.rs:395 | ADC's 16-bit sum does not depend on D |
| Properties.AdcIgnoresDecimalFlag | src/cpu/w65c02s.rs:393-408 | ADC is binary whatever D says: same result and same flags, D apart |
| Properties.SbcIgnoresDecimalFlag | src/cpu/w65c02s.rs:879-891 | SBC is binary whatever D says |
| Properties.CompareFlagsMeaning | src/cpu/w65c02s.rs:619-627 | C iff reg >= M, Z iff reg == M, N is bit 7 of reg - M, V, I, D, B and bit 5 kept |
| Properties.CompareChangesOnlyStatus | src/cpu/w65c02s.rs:619-645 | a compare changes P alone, or reports an unreadable operand and changes nothing |
| Properties.ReadOperandFails | src/cpu/w65c02s.rs:1388-1396 | the operand read fails exactly for implied and relative operands, with `InvalidOperand` |
| Properties.WriteOperandOutcome | src/cpu/w65c02s.rs:1397-1403 | writes fail exactly for non-address, non-accumulator operands, abort exactly for ROM addresses, and otherwise change exactly A or one byte |
| Properties.ResolveAdvancesPcAbsolute | src/cpu/w65c02s.rs:1049-1077 | the absolute modes advance PC by `num_operand_bytes` (two) and change no other register |
| Properties.ResolveAdvancesPcZeroPage | src/cpu/w65c02s.rs:1097-1143 | `zp`, `zp,x`, `zp,y`, `zp,rel` advance PC by `num_operand_bytes` and change no other register |
| Properties.ResolveAdvancesPcZeroPageIndirect | src/cpu/w65c02s.rs:1102-1136 | the `(zp)` modes advance PC by `num_operand_bytes` (one) |
| Properties.ResolveAdvancesPcOther | src/cpu/w65c02s.rs:1078-1096 | immediate and relative advance PC by one; accumulator, implied and stack leave the registers alone |
| Properties.ZeroPageModesStayInPageZero | src/cpu/w65c02s.rs:1097-1119 | `zp`, `zp,x` and `zp,y` always designate an address below 0x100 |
| Properties.ZeroPageIndexedWraps | src/cpu/w65c02s.rs:1110-1119 | `zp,x` and `zp,y` designate `(zp + index) & 0xFF` |
| Properties.ZeroPagePointerWraps | src/cpu/w65c02s.rs:1120-1126 | a zero-page pointer takes its high byte from `(zp + 1) mod 256` |
| Properties.ZeroPageIndirectUsesPointer | src/cpu/w65c02s.rs:1120-1127 | `(zp)` designates the pointer stored at the operand byte |
| Properties.ZeroPageIndexedIndirectUsesPointer | src/cpu/w65c02s.rs:1102-1109 | `(zp,x)` designates the pointer at `zp + X` wrapped in page zero |
| Properties.ZeroPageIndirectIndexedYUsesPointer | src/cpu/w65c02s.rs:1128-1136 | `(zp),y` designates the pointer at `zp` plus Y in 16 bits |
| Properties.AbsoluteIndirectCrossesPages | src/cpu/w65c02s.rs:1072-1077 | `(a)` reads the pointer's high byte from `ptr + 1` across page boundaries; only 0xFFFF wraps, to address 0 |
| Properties.PulledStatusBits | src/cpu/w65c02s.rs:807-811 | the pulled P has bit 5 set, B clear and the other six bits from the stack |
| Properties.PullUndoesPush | src/cpu/w65c02s.rs:331-339 | a pull after a push returns the pushed byte and the original registers |
| Properties.PushWritesStackPage | src/cpu/w65c02s.rs:331-334 | a push decrements SP and writes the byte at `0x0100 \| SP` and nowhere else |
| Properties.PullSkipsWrite | src/cpu/w65c02s.rs:336-339 | a pull reads only the slot above SP |
| Properties.PullKeepsPcAndStatus | src/cpu/w65c02s.rs:336-339 | a pull depends on SP alone and carries PC and P along |
| Properties.PhaThenPla | src/cpu/w65c02s.rs:780-806 | PHA then PLA restores every register, with Z and N describing A |
| Properties.PhpThenPlp | src/cpu/w65c02s.rs:785-811 | PHP then PLP restores every register, with bit 5 of P set and B clear |
| Properties.ThirdPushPulledFirst | src/cpu/w65c02s.rs:331-339 | after three pushes the first pull returns the third byte |
| Properties.SecondPushPulledSecond | src/cpu/w65c02s.rs:331-339 | the second pull returns the second byte |
| Properties.FirstPushPulledLast | src/cpu/w65c02s.rs:331-339 | the third pull returns the first byte and restores SP |
| Properties.PullsUndoTwoPushes | src/cpu/w65c02s.rs:331-339 | two pulls after two pushes return the bytes in reverse order and restore the registers |
| Properties.ReturnAddressIsTwoPushes | src/cpu/w65c02s.rs:721-726 | the return address goes on the stack as two pushes, high byte first |
| Properties.BreakFrameIsThreePushes | src/cpu/w65c02s.rs:559-563 | BRK's frame is three pushes: PC+1 high, PC+1 low, P with B set |
| Properties.BreakFrameRegisters | src/cpu/w65c02s.rs:559-563 | pushing BRK's frame lowers SP by three and changes no other register |
| Properties.TwoPushesContents | src/cpu/w65c02s.rs:331-334 | two pushes write at SP and SP-1 and nowhere else |
| Properties.ThreePushesContents | src/cpu/w65c02s.rs:331-334 | three pushes write at SP, SP-1 and SP-2 and nowhere else |
| Properties.BreakFrameContents | src/cpu/w65c02s.rs:558-563 | after BRK's frame: PC+1 high at SP, low at SP-1, P with B at SP-2, every other byte kept |
| Properties.BrkFrame | src/cpu/w65c02s.rs:558-574 | the BRK body (PC already past the opcode) pushes its frame, lowers SP by three, sets I, keeps A, X, Y and loads PC from 0xFFFE/0xFFFF; the whole step is Properties.StepBrk |
| Properties.RtiAfterBreakFrame | src/cpu/w65c02s.rs:858-869 | RTI on a BRK frame restores SP and PC+1, and P with bit 5 set and B clear |
| Properties.BrkThenRti | src/cpu/w65c02s.rs:558-574 | RTI after BRK resumes at PC+1, past the signature byte, with every register but P restored |
| Properties.JsrFrame | src/cpu/w65c02s.rs:718-734 | JSR writes PC-1 high at SP and low at SP-1, lowers SP by two and jumps |
| Properties.JsrPushes | src/cpu/w65c02s.rs:718-734 | JSR is two pushes of PC-1 then the jump |
| Properties.RtsAfterTwoPushes | src/cpu/w65c02s.rs:870-878 | RTS on two pushed bytes continues one past the address they form and restores SP |
| Properties.JsrThenRts | src/cpu/w65c02s.rs:870-878 | the RTS body after the JSR body continues at the PC the JSR body started from, with every register as it was; the two whole steps are Properties.StepJsrThenRts |
| Properties.BranchForward | src/cpu/w65c02s.rs:462-473 | an offset below 0x80 moves PC forward by the offset |
| Properties.BranchBackward | src/cpu/w65c02s.rs:462-473 | an offset of 0x80 or more moves PC back by `0x100 - offset`, wrapping |
| Properties.InvalidOpcodeStep | src/cpu/w65c02s.rs:354-356 | with either table, an empty table entry gives `InvalidOpcode(opcode)` with PC past the opcode and nothing else changed |
| Properties.StepDecoded | src/cpu/w65c02s.rs:354-367 | a step whose opcode decodes to an operation and whose operand resolves reports that operation's mnemonic with the body's outcome |
| Properties.ControlOpcodes | src/cpu/w65c02s.rs:57-314 | BRK, JSR and RTS are at 0x00, 0x20 and 0x60 in both tables |
| Properties.JsrFetched | src/cpu/w65c02s.rs:718-734 | the JSR body after its operand fetch pushes the opcode address + 2, lowers SP by two and jumps to the target |
| Properties.StepJsr | src/cpu/w65c02s.rs:354-367 | a whole JSR step: SP lowered by two, PC at the target, the return address pushed, every other register kept |
| Properties.StepJsrFrame | src/cpu/w65c02s.rs:718-734 | after a JSR step the high byte of opcode address + 2 is at SP, the low byte at SP-1, and every other byte is kept |
| Properties.BrkFetched | src/cpu/w65c02s.rs:558-574 | the BRK body after the opcode fetch pushes opcode address + 2 and P with B set, sets I and jumps through 0xFFFE |
| Properties.StepBrk | src/cpu/w65c02s.rs:354-367 | a whole BRK step: SP lowered by three, I set, PC from the vector, A, X and Y kept |
| Properties.StepBrkFrame | src/cpu/w65c02s.rs:558-563 | after a BRK step the stack holds opcode address + 2 (high at SP, low at SP-1) and P with B set at SP-2, so the frame's return address skips the signature byte; every other byte is kept |
| Properties.StepRts | src/cpu/w65c02s.rs:870-878 | a whole RTS step is the RTS body on the fetched state and always completes |
| Properties.StepJsrThenRts | src/cpu/w65c02s.rs:870-878 | a JSR step to a subroutine starting with RTS, followed by the RTS step, continues at the instruction after the three-byte JSR with every register as it was |
| Properties.StzExec | src/cpu/w65c02s.rs:933-937 | STZ on an address stores zero there in RAM and aborts in ROM, registers kept |
| Properties.StzDecodesCorrected | src/cpu/w65c02s.rs:214 | with the corrected table 0x9C is STZ absolute and its operand is the following word |
| Properties.StzDecodesAsWritten | src/cpu/w65c02s.rs:214 | with the written table 0x9C is STZ absolute,X and its operand is the following word plus X |
| Properties.StepStzCorrected | src/cpu/w65c02s.rs:214 | the step at 0x9C with the corrected table clears the byte at the operand word (aborts when it is in ROM) |
| Properties.StepStzAsWritten | src/cpu/w65c02s.rs:214 | the step at 0x9C with the written table clears the byte at the operand word plus X (aborts when that is in ROM) |
| Properties.StzTablesDiffer | src/cpu/w65c02s.rs:214 | with X non-zero, 0x9C clears the operand word's byte under the corrected table but not under the written one, so the two steps differ |

## Left out

- `irq_run` and `nmi_run` are `todo!()` in the source and never called. `NMIB_LOW` is declared but not used. Interrupt lines are not modelled.
- `page_crossed` in `ResolvedOperand` and `crosses_pages` are computed but never read by any operation. The model does not carry them.
- Decimal mode: the source ignores D in ADC and SBC. The model does the same, and `Properties.AdcIgnoresDecimalFlag` states it.
- `Mnemomic::from_str` (text-to-mnemonic parsing) and the program entry point in `src/main.rs` are not part of this model.
- The bus is a `Bus.Machine`, not a `dyn Bus`. The only bus in the repository is this machine.
- The op-function pointers of the table become the `Operation` mnemonic plus a dispatch through operation groups (`Execute`). The grouping is a structure of the model, not of the source.
- `Unmapped` pages: the standard page map never produces them, so the bus's unmapped-page panics are unreachable and not modelled.
- `Indexed::len` is the `sizeBytes` field of each segment.
- The source aborts with `panic!`, `unimplemented!()` and `unreachable!()` in several places. These are `Panicked`/`Aborted` outcomes, and the state after an abort is not constrained.
- Bus.Machine.NewRam32kRom32k: a ROM image longer than 32 KiB makes the source panic. The constructor takes that as a precondition; `Bus.Machine.NewRam32kRom32kOrPanic` models the panic.
- Properties.ResolveAdvancesPcAbsolute: the property that resolving advances PC by `num_operand_bytes` is stated in four lemmas, one per group of addressing modes, not as one lemma over all seventeen modes.
- Memory.RAMSegment.Load: models the corrected guard. The source's guard is modelled by `Memory.RAMSegment.LoadAsWritten` (see Findings).
- Bus.Machine.LoadRam: uses the corrected segment load. `Bus.Machine.LoadRamAsWritten` is the same operation through the load as written, panic included (see Findings).
- Isa.Lookup takes the table as a parameter: `AsWritten` is the table exactly as in the source (`Isa.OperationAsWritten`), `Corrected` the one with the STZ fix (`Isa.OperationAt`). `Semantics.Step` and `Cpu.W65C02S.Step` work with either, and every step lemma except the STZ ones holds for both (see Findings).

## Findings

| source | as written | input that shows it | evidently intended | confidence | as-written member | corrected member |
|---|---|---|---|---|---|---|
| src/memory/memory.rs:126 | `load` stops only when `i > size_bytes`, so for an image longer than the segment it goes on to index `size_bytes` and indexes a page that does not exist | `load_ram` with a 0x8001-byte image: the byte at index 0x8000 selects page 128 of a 128-page RAM and the indexing panics | stop at `i >= size_bytes`, truncating the image to the segment | high; not executed | Memory.RAMSegment.LoadAsWritten, Bus.Machine.LoadRamAsWritten | Memory.RAMSegment.Load, Bus.Machine.LoadRam |
| src/cpu/w65c02s.rs:214-216 | opcode 0x9C is STZ absolute,X and 0x9E is STZ absolute,Y; no opcode is STZ absolute | opcode 0x9C, which the W65C02S datasheet defines as STZ absolute | 0x9C STZ absolute, 0x9E STZ absolute,X (the W65C02S has no STZ absolute,Y) | high; not executed | Isa.StzAbsoluteMissingAsWritten, Properties.StepStzAsWritten, Properties.StzTablesDiffer | Isa.StzAsDatasheet, Properties.StepStzCorrected |
