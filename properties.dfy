/**
 * Properties of the reference semantics: what the emulator promises about flags,
 * addressing, arithmetic, the stack discipline of BRK, JSR and RTS, and the
 * behaviour of `step` on opcodes the table leaves empty.
 */
module Properties {
  import opened Prelude
  import opened Isa
  import opened Semantics

  // ---------------------------------------------------------------- bytes and words

  /** The table of single-bit masks is `1 << n`. */
  lemma BitMaskIsShift(n: BitIndex)
    ensures BitMask(n) == 1 << n as bv3
  {
  }

  /** RMBn clears bit n and SMBn sets it; every other bit of the byte is kept. */
  lemma ClearAndSetBit(val: Byte, n: BitIndex)
    ensures !BitIsSet(ClearBit(val, n), n) && BitIsSet(SetBit(val, n), n)
    ensures ClearBit(val, n) & !BitMask(n) == val & !BitMask(n)
    ensures SetBit(val, n) & !BitMask(n) == val & !BitMask(n)
  {
  }

  /** `status_set` either sets or clears the flag's bit. */
  lemma SetFlagSetsOrClears(p: Byte, f: Status, u: bool)
    ensures SetFlag(p, f, u) == if u then p | Mask(f) else p & !Mask(f)
  {
  }

  /** Setting D commutes with setting or clearing any other flag. */
  lemma SetDecimalCommutes(p: Byte, g: Status, v: bool)
    requires g != D
    ensures SetFlag(SetFlag(p, D, true), g, v) == SetFlag(SetFlag(p, g, v), D, true)
  {
    MasksDisjoint(g, D);
    var m := Mask(g);
    assert m & 0x08 == 0;
    SetFlagSetsOrClears(p, D, true);
    SetFlagSetsOrClears(SetFlag(p, g, v), D, true);
    SetFlagSetsOrClears(p, g, v);
    SetFlagSetsOrClears(p | 0x08, g, v);
    if v {
      assert (p | 0x08) | m == (p | m) | 0x08;
    } else {
      assert (p | 0x08) & !m == (p & !m) | 0x08;
    }
  }

  // ---------------------------------------------------------------- arithmetic

  /**
   * ADC: the result is the sum modulo 256 and C is the carry out of bit 7, that is
   * `A' + 256 * C' == A + M + C` computed without loss in 16 bits. V is set exactly
   * when A and M have the same sign and the result's sign differs. Z and N describe
   * the result, and I, D, B and bit 5 of P are kept.
   */
  lemma AdcCarryAndOverflow(a: Byte, m: Byte, p: Byte)
    ensures var (r, q) := AddWithCarry(a, m, p);
      && r as Word + (if Check(q, C) then 0x100 else 0) == a as Word + m as Word + CarryIn(p)
      && (Check(q, V) <==> (a & 0x80 == m & 0x80 && r & 0x80 != a & 0x80))
      && (Check(q, Z) <==> r == 0)
      && (Check(q, N) <==> r & 0x80 != 0)
      && q & 0x3C == p & 0x3C
  {
  }

  /** SBC is ADC of the complemented operand: `A + !M + C`, borrow being `!C`. */
  lemma SbcIsAdcOfComplement(a: Byte, m: Byte, p: Byte)
    ensures SubtractWithBorrow(a, m, p) == AddWithCarry(a, !m, p)
  {
    var r := Lo(WideSum(a, !m, p));
    assert (!(a ^ !m) & (a ^ r)) & 0x80 == (r ^ a) & (a ^ m) & 0x80;
  }

  /** The carry ADC and SBC add in depends on C alone. */
  lemma CarryInIgnoresOtherFlags(p: Byte, f: Status, v: bool)
    requires f != C
    ensures CarryIn(SetFlag(p, f, v)) == CarryIn(p)
  {
    MasksDisjoint(f, C);
  }

  /** Setting D before or after the Z and N update gives the same P. */
  lemma UpdateZNKeepsD(q: Byte, r: Byte)
    ensures UpdateZN(SetFlag(q, D, true), r) == SetFlag(UpdateZN(q, r), D, true)
  {
    SetDecimalCommutes(q, Z, r == 0);
    SetDecimalCommutes(SetFlag(q, Z, r == 0), N, (r >> 7) > 0);
  }

  /** The flag updates of ADC and SBC (C, then V, then Z and N) carry a set D along. */
  lemma FlagUpdatesKeepD(p: Byte, carry: bool, overflow: bool, r: Byte)
    ensures UpdateZN(SetFlag(SetFlag(SetFlag(p, D, true), C, carry), V, overflow), r)
         == SetFlag(UpdateZN(SetFlag(SetFlag(p, C, carry), V, overflow), r), D, true)
  {
    SetDecimalCommutes(p, C, carry);
    var p1 := SetFlag(p, C, carry);
    SetDecimalCommutes(p1, V, overflow);
    UpdateZNKeepsD(SetFlag(p1, V, overflow), r);
  }

  /** The 16-bit sum ADC forms does not depend on D. */
  lemma WideSumIgnoresDecimalFlag(a: Byte, m: Byte, p: Byte)
    ensures WideSum(a, m, SetFlag(p, D, true)) == WideSum(a, m, p)
  {
    CarryInIgnoresOtherFlags(p, D, true);
  }

  /** ADC is binary whatever D says: with D set it gives the same result and the same
      flags, D apart. */
  lemma AdcIgnoresDecimalFlag(a: Byte, m: Byte, p: Byte)
    ensures AddWithCarry(a, m, SetFlag(p, D, true)).0 == AddWithCarry(a, m, p).0
    ensures AddWithCarry(a, m, SetFlag(p, D, true)).1 == SetFlag(AddWithCarry(a, m, p).1, D, true)
  {
    WideSumIgnoresDecimalFlag(a, m, p);
    var sum := WideSum(a, m, p);
    var r := Lo(sum);
    FlagUpdatesKeepD(p, sum > 0xFF, (!(a ^ m) & (a ^ r)) & 0x80 != 0, r);
  }

  /** SBC is binary whatever D says. */
  lemma SbcIgnoresDecimalFlag(a: Byte, m: Byte, p: Byte)
    ensures SubtractWithBorrow(a, m, SetFlag(p, D, true)).0 == SubtractWithBorrow(a, m, p).0
    ensures SubtractWithBorrow(a, m, SetFlag(p, D, true)).1 == SetFlag(SubtractWithBorrow(a, m, p).1, D, true)
  {
    SbcIsAdcOfComplement(a, m, p);
    SbcIsAdcOfComplement(a, m, SetFlag(p, D, true));
    AdcIgnoresDecimalFlag(a, !m, p);
  }

  /** CMP, CPX, CPY: C is `reg >= M`, Z is `reg == M`, N is bit 7 of `reg - M`; the
      other flags are kept. */
  lemma CompareFlagsMeaning(reg: Byte, m: Byte, p: Byte)
    ensures Check(CompareFlags(reg, m, p), C) <==> reg >= m
    ensures Check(CompareFlags(reg, m, p), Z) <==> reg == m
    ensures Check(CompareFlags(reg, m, p), N) <==> (reg - m) & 0x80 != 0
    ensures CompareFlags(reg, m, p) & 0x7C == p & 0x7C
  {
  }

  /** A compare changes only P: the compared register, the others, PC, SP and memory
      are left alone; an operand that cannot be read is reported and changes nothing. */
  lemma CompareChangesOnlyStatus(r: Register, operand: Operand, s: State)
    ensures var out := ExecCompare(r, operand, s);
      match ReadOperand(operand, s.regs, s.mem)
      case Ok(m) => out == Done(State(s.regs.(p := CompareFlags(Get(s.regs, r), m, s.regs.p)), s.mem))
      case Err(e) => out == Failed(e, s)
  {
  }

  // ---------------------------------------------------------------- operands

  /** `Operand::read` fails exactly for the operands that name no byte. */
  lemma ReadOperandFails(operand: Operand, regs: Regs, mem: Mem)
    ensures ReadOperand(operand, regs, mem).Err? <==> operand.Implied? || operand.Relative?
    ensures ReadOperand(operand, regs, mem).Err? ==> ReadOperand(operand, regs, mem).error == InvalidOperand(operand)
  {
  }

  /** `Operand::write` lands in memory or A and fails for every other operand; a store
      into ROM aborts. */
  lemma WriteOperandOutcome(operand: Operand, v: Byte, s: State)
    ensures WriteOperand(operand, v, s).Failed? <==> !(operand.Address? || operand.Accumulator?)
    ensures WriteOperand(operand, v, s).Panicked? <==> operand.Address? && operand.address >= 0x8000
    ensures operand.Accumulator? ==> WriteOperand(operand, v, s) == Done(State(s.regs.(a := v), s.mem))
    ensures operand.Address? && operand.address < 0x8000 ==>
      WriteOperand(operand, v, s) == Done(State(s.regs, s.mem[operand.address as int := v]))
  {
  }

  // ---------------------------------------------------------------- addressing

  // Resolving an operand moves PC past exactly the operand bytes of the mode
  // (`num_operand_bytes`) and changes no other register. The modes are taken in the
  // groups the resolver itself uses.

  /** The five absolute modes read a two-byte operand. */
  lemma ResolveAdvancesPcAbsolute(mode: AddressingMode, regs: Regs, mem: Mem)
    requires mode.Absolute? || mode.AbsoluteIndexedIndirect? || mode.AbsoluteIndexedX?
      || mode.AbsoluteIndexedY? || mode.AbsoluteIndirect?
    ensures NumOperandBytes(mode) == 2
    ensures ResolveOperand(mode, regs, mem).1 == regs.(pc := regs.pc + NumOperandBytes(mode) as Word)
  {
  }

  /** `zp`, `zp,x` and `zp,y` read one byte; `zp,rel` reads two. */
  lemma ResolveAdvancesPcZeroPage(mode: AddressingMode, regs: Regs, mem: Mem)
    requires mode.ZeroPage? || mode.ZeroPageIndexedX? || mode.ZeroPageIndexedY? || mode.ZeroPageRelative?
    ensures ResolveOperand(mode, regs, mem).1 == regs.(pc := regs.pc + NumOperandBytes(mode) as Word)
  {
    match mode
    case ZeroPage =>
    case ZeroPageIndexedX =>
    case ZeroPageIndexedY =>
    case ZeroPageRelative =>
  }

  /** The three `(zp)` modes read one byte. */
  lemma ResolveAdvancesPcZeroPageIndirect(mode: AddressingMode, regs: Regs, mem: Mem)
    requires mode.ZeroPageIndexedIndirect? || mode.ZeroPageIndirect? || mode.ZeroPageIndirectIndexedY?
    ensures NumOperandBytes(mode) == 1
    ensures ResolveOperand(mode, regs, mem).1 == regs.(pc := regs.pc + NumOperandBytes(mode) as Word)
  {
    match mode
    case ZeroPageIndexedIndirect =>
    case ZeroPageIndirect =>
    case ZeroPageIndirectIndexedY =>
  }

  /** Immediate and relative operands read one byte; the accumulator, implied and
      stack modes read none and leave the registers as they were. */
  lemma ResolveAdvancesPcOther(mode: AddressingMode, regs: Regs, mem: Mem)
    requires mode.Accumulator? || mode.Immediate? || mode.Implied? || mode.ProgramCounterRelative? || mode.Stack?
    ensures ResolveOperand(mode, regs, mem).1 == regs.(pc := regs.pc + NumOperandBytes(mode) as Word)
    ensures NumOperandBytes(mode) == 0 ==> ResolveOperand(mode, regs, mem).1 == regs
  {
    match mode
    case Accumulator =>
    case Immediate =>
    case Implied =>
    case ProgramCounterRelative =>
    case Stack =>
  }

  /** The zero-page modes, indexed or not, always designate an address in page zero. */
  lemma ZeroPageModesStayInPageZero(mode: AddressingMode, regs: Regs, mem: Mem)
    requires mode.ZeroPage? || mode.ZeroPageIndexedX? || mode.ZeroPageIndexedY?
    ensures ResolveOperand(mode, regs, mem).0.Address?
    ensures ResolveOperand(mode, regs, mem).0.address < 0x100
  {
  }

  /** Indexed zero-page addresses wrap within page zero: `zp,x` and `zp,y` designate
      the 16-bit sum of the base and the index with its high byte dropped. */
  lemma ZeroPageIndexedWraps(regs: Regs, mem: Mem)
    ensures var zp := mem[regs.pc as int];
      && ResolveOperand(ZeroPageIndexedX, regs, mem).0.address == (zp as Word + regs.x as Word) & 0xFF
      && ResolveOperand(ZeroPageIndexedY, regs, mem).0.address == (zp as Word + regs.y as Word) & 0xFF
  {
  }

  /** A pointer in page zero: its low byte is at `zp`, its high byte at `zp + 1`
      taken modulo 256, so the pointer at 0xFF takes its high byte from address 0. */
  lemma ZeroPagePointerWraps(mem: Mem, zp: Byte)
    ensures Lo(ZeroPagePointer(mem, zp)) == mem[zp as int]
    ensures Hi(ZeroPagePointer(mem, zp)) == mem[(zp as int + 1) % 256]
  {
    assert ((zp + 1) as Word) as int == (zp as int + 1) % 256;
  }

  /** `(zp)` designates the pointer stored at the operand byte. */
  lemma ZeroPageIndirectUsesPointer(regs: Regs, mem: Mem)
    ensures ResolveOperand(ZeroPageIndirect, regs, mem).0
      == Address(ZeroPagePointer(mem, mem[regs.pc as int]))
  {
  }

  /** `(zp,x)` adds X to the operand byte within page zero, then reads the pointer there. */
  lemma ZeroPageIndexedIndirectUsesPointer(regs: Regs, mem: Mem)
    ensures ResolveOperand(ZeroPageIndexedIndirect, regs, mem).0
      == Address(ZeroPagePointer(mem, mem[regs.pc as int] + regs.x))
  {
  }

  /** `(zp),y` reads the pointer at the operand byte and adds Y to it in 16 bits. */
  lemma ZeroPageIndirectIndexedYUsesPointer(regs: Regs, mem: Mem)
    ensures ResolveOperand(ZeroPageIndirectIndexedY, regs, mem).0
      == Address(ZeroPagePointer(mem, mem[regs.pc as int]) + regs.y as Word)
  {
  }

  /** `(a)` has no page-wrap quirk: a pointer at the end of a page takes its high byte
      from the first byte of the next page, and only 0xFFFF wraps, to address 0. */
  lemma AbsoluteIndirectCrossesPages(regs: Regs, mem: Mem)
    ensures var ptr := ReadU16(mem, regs.pc);
      var target := ResolveOperand(AbsoluteIndirect, regs, mem).0.address;
      && Lo(target) == Read(mem, ptr)
      && Hi(target) == Read(mem, ptr + 1)
      && (Lo(ptr) == 0xFF && ptr != 0xFFFF ==> Hi(ptr + 1) == Hi(ptr) + 1 && Lo(ptr + 1) == 0)
      && (ptr == 0xFFFF ==> Hi(target) == mem[0])
  {
  }

  // ---------------------------------------------------------------- status register

  /** PLP and RTI install the pulled byte with bit 5 set and B clear; the other six
      bits come from the stack unchanged. */
  lemma PulledStatusBits(v: Byte)
    ensures PulledStatus(v) & 0x20 != 0
    ensures PulledStatus(v) & 0x10 == 0
    ensures PulledStatus(v) & 0xCF == v & 0xCF
  {
  }

  // ---------------------------------------------------------------- stack

  /** Distinct addresses are distinct indices into memory. */
  lemma AddressIndexInjective(x: Word, y: Word)
    requires x != y
    ensures x as int != y as int
  {
    assert (x as int) as Word == x;
    assert (y as int) as Word == y;
  }

  /** A pull undoes a push: it returns the pushed byte and restores the registers. */
  lemma PullUndoesPush(regs: Regs, mem: Mem, v: Byte)
    ensures var (r1, m1) := StackPush(regs, mem, v);
      StackPull(r1, m1) == (v, regs)
  {
  }

  /** A push decrements SP and writes the byte at `0x0100 | SP`, in page one, and
      nowhere else. */
  lemma PushWritesStackPage(regs: Regs, mem: Mem, v: Byte, address: Word)
    ensures StackPush(regs, mem, v).0 == regs.(sp := regs.sp - 1)
    ensures Read(StackPush(regs, mem, v).1, address)
      == if address == StackAddress(regs.sp) then v else Read(mem, address)
  {
    if address != StackAddress(regs.sp) {
      AddressIndexInjective(address, StackAddress(regs.sp));
    }
  }

  /** A pull reads only the slot above SP. */
  lemma PullSkipsWrite(regs: Regs, mem: Mem, address: Word, v: Byte)
    requires address != StackAddress(regs.sp + 1)
    ensures StackPull(regs, mem[address as int := v]) == StackPull(regs, mem)
  {
    AddressIndexInjective(address, StackAddress(regs.sp + 1));
  }

  /** A pull depends on SP alone and carries PC and P along. */
  lemma PullKeepsPcAndStatus(regs: Regs, mem: Mem, pc: Word, p: Byte)
    ensures StackPull(regs.(pc := pc, p := p), mem)
      == (StackPull(regs, mem).0, StackPull(regs, mem).1.(pc := pc, p := p))
  {
  }

  /** PHA then PLA leaves every register as it was, except that Z and N describe A. */
  lemma PhaThenPla(s: State)
    ensures ExecPush(PHA, s).Done?
    ensures ExecPull(PLA, ExecPush(PHA, s).s).Done?
    ensures ExecPull(PLA, ExecPush(PHA, s).s).s.regs == s.regs.(p := UpdateZN(s.regs.p, s.regs.a))
  {
    PullUndoesPush(s.regs, s.mem, s.regs.a);
  }

  /** PHP then PLP leaves every register as it was, except that bit 5 of P ends up set
      and B clear. */
  lemma PhpThenPlp(s: State)
    ensures ExecPush(PHP, s).Done?
    ensures ExecPull(PLP, ExecPush(PHP, s).s).Done?
    ensures ExecPull(PLP, ExecPush(PHP, s).s).s.regs == s.regs.(p := PulledStatus(s.regs.p))
  {
    PullUndoesPush(s.regs, s.mem, s.regs.p | 0x30);
    assert PulledStatus(s.regs.p | 0x30) == PulledStatus(s.regs.p);
  }

  // Three pushes then three pulls, one pull at a time.

  lemma ThirdPushPulledFirst(regs: Regs, mem: Mem, b1: Byte, b2: Byte, b3: Byte, pc: Word, p: Byte)
    ensures var (r1, m1) := StackPush(regs, mem, b1);
      var (r2, m2) := StackPush(r1, m1, b2);
      var (r3, m3) := StackPush(r2, m2, b3);
      StackPull(r3.(pc := pc, p := p), m3) == (b3, r2.(pc := pc, p := p))
  {
    var (r1, m1) := StackPush(regs, mem, b1);
    var (r2, m2) := StackPush(r1, m1, b2);
    var (r3, m3) := StackPush(r2, m2, b3);
    PullUndoesPush(r2, m2, b3);
    PullKeepsPcAndStatus(r3, m3, pc, p);
  }

  lemma SecondPushPulledSecond(regs: Regs, mem: Mem, b1: Byte, b2: Byte, b3: Byte, pc: Word, p: Byte)
    ensures var (r1, m1) := StackPush(regs, mem, b1);
      var (r2, m2) := StackPush(r1, m1, b2);
      var (r3, m3) := StackPush(r2, m2, b3);
      StackPull(r2.(pc := pc, p := p), m3) == (b2, r1.(pc := pc, p := p))
  {
    var (r1, m1) := StackPush(regs, mem, b1);
    var (r2, m2) := StackPush(r1, m1, b2);
    var (r3, m3) := StackPush(r2, m2, b3);
    PullSkipsWrite(r2, m2, StackAddress(r2.sp), b3);
    PullUndoesPush(r1, m1, b2);
    PullKeepsPcAndStatus(r2, m3, pc, p);
  }

  lemma FirstPushPulledLast(regs: Regs, mem: Mem, b1: Byte, b2: Byte, b3: Byte, pc: Word, p: Byte)
    ensures var (r1, m1) := StackPush(regs, mem, b1);
      var (r2, m2) := StackPush(r1, m1, b2);
      var (r3, m3) := StackPush(r2, m2, b3);
      StackPull(r1.(pc := pc, p := p), m3) == (b1, regs.(pc := pc, p := p))
  {
    var (r1, m1) := StackPush(regs, mem, b1);
    var (r2, m2) := StackPush(r1, m1, b2);
    var (r3, m3) := StackPush(r2, m2, b3);
    PullSkipsWrite(r1, m2, StackAddress(r2.sp), b3);
    assert StackPull(r1, m3) == StackPull(r1, m2);
    PullSkipsWrite(r1, m1, StackAddress(r1.sp), b2);
    assert StackPull(r1, m2) == StackPull(r1, m1);
    PullUndoesPush(regs, mem, b1);
    PullKeepsPcAndStatus(r1, m3, pc, p);
  }

  /** Two pushes then two pulls. */
  lemma PullsUndoTwoPushes(regs: Regs, mem: Mem, b1: Byte, b2: Byte)
    ensures var (r1, m1) := StackPush(regs, mem, b1);
      var (r2, m2) := StackPush(r1, m1, b2);
      var (x, r3) := StackPull(r2, m2);
      var (y, r4) := StackPull(r3, m2);
      (x, y, r4) == (b2, b1, regs)
  {
    var (r1, m1) := StackPush(regs, mem, b1);
    var (r2, m2) := StackPush(r1, m1, b2);
    PullUndoesPush(r1, m1, b2);
    PullSkipsWrite(r1, m1, StackAddress(r1.sp), b2);
    PullUndoesPush(regs, mem, b1);
  }

  // ---------------------------------------------------------------- control flow

  /** A return address is two pushes, high byte first. */
  lemma ReturnAddressIsTwoPushes(regs: Regs, mem: Mem, ret: Word)
    ensures var (r1, m1) := StackPush(regs, mem, Hi(ret));
      PushReturnAddress(regs, mem, ret) == StackPush(r1, m1, Lo(ret))
  {
  }

  /** BRK's frame is three pushes: PC+1 high byte, PC+1 low byte, P with B set. */
  lemma BreakFrameIsThreePushes(regs: Regs, mem: Mem)
    ensures var (r1, m1) := StackPush(regs, mem, Hi(regs.pc + 1));
      var (r2, m2) := StackPush(r1, m1, Lo(regs.pc + 1));
      PushBreakFrame(regs, mem) == StackPush(r2, m2, regs.p | 0x10)
  {
    ReturnAddressIsTwoPushes(regs, mem, regs.pc + 1);
    var (r2, m2) := PushReturnAddress(regs, mem, regs.pc + 1);
    assert r2.p == regs.p;
  }

  /** Pushing BRK's frame moves SP down by three and changes no other register. */
  lemma BreakFrameRegisters(regs: Regs, mem: Mem)
    ensures PushBreakFrame(regs, mem).0 == regs.(sp := regs.sp - 3)
  {
    var ret := regs.pc + 1;
    var (r1, m1) := StackPush(regs, mem, Hi(ret));
    var (r2, m2) := StackPush(r1, m1, Lo(ret));
    BreakFrameIsThreePushes(regs, mem);
    assert PushBreakFrame(regs, mem) == StackPush(r2, m2, regs.p | 0x10);
  }

  /** Two pushes write their bytes at SP and SP-1 and nowhere else. */
  lemma TwoPushesContents(regs: Regs, mem: Mem, b1: Byte, b2: Byte, address: Word)
    ensures var (r1, m1) := StackPush(regs, mem, b1);
      Read(StackPush(r1, m1, b2).1, address)
        == if address == StackAddress(regs.sp - 1) then b2
           else if address == StackAddress(regs.sp) then b1
           else Read(mem, address)
  {
    var (r1, m1) := StackPush(regs, mem, b1);
    PushWritesStackPage(regs, mem, b1, address);
    PushWritesStackPage(r1, m1, b2, address);
  }

  /** Three pushes write their bytes at SP, SP-1 and SP-2 and nowhere else. */
  lemma ThreePushesContents(regs: Regs, mem: Mem, b1: Byte, b2: Byte, b3: Byte, address: Word)
    ensures var (r1, m1) := StackPush(regs, mem, b1);
      var (r2, m2) := StackPush(r1, m1, b2);
      Read(StackPush(r2, m2, b3).1, address)
        == if address == StackAddress(regs.sp - 2) then b3
           else if address == StackAddress(regs.sp - 1) then b2
           else if address == StackAddress(regs.sp) then b1
           else Read(mem, address)
  {
    var (r1, m1) := StackPush(regs, mem, b1);
    var (r2, m2) := StackPush(r1, m1, b2);
    TwoPushesContents(regs, mem, b1, b2, address);
    assert Read(m2, address)
      == if address == StackAddress(regs.sp - 1) then b2
         else if address == StackAddress(regs.sp) then b1
         else Read(mem, address);
    assert r2.sp == regs.sp - 2;
    PushWritesStackPage(r2, m2, b3, address);
  }

  /** BRK's frame in memory: PC+1 high byte at SP, PC+1 low byte at SP-1 and P with B
      set at SP-2; every other byte is kept. */
  lemma BreakFrameContents(regs: Regs, mem: Mem, address: Word)
    ensures Read(PushBreakFrame(regs, mem).1, address)
      == if address == StackAddress(regs.sp - 2) then regs.p | 0x10
         else if address == StackAddress(regs.sp - 1) then Lo(regs.pc + 1)
         else if address == StackAddress(regs.sp) then Hi(regs.pc + 1)
         else Read(mem, address)
  {
    var ret := regs.pc + 1;
    var (r1, m1) := StackPush(regs, mem, Hi(ret));
    var (r2, m2) := StackPush(r1, m1, Lo(ret));
    BreakFrameIsThreePushes(regs, mem);
    assert PushBreakFrame(regs, mem) == StackPush(r2, m2, regs.p | 0x10);
    ThreePushesContents(regs, mem, Hi(ret), Lo(ret), regs.p | 0x10, address);
    assert Read(StackPush(r2, m2, regs.p | 0x10).1, address)
      == if address == StackAddress(regs.sp - 2) then regs.p | 0x10
         else if address == StackAddress(regs.sp - 1) then Lo(ret)
         else if address == StackAddress(regs.sp) then Hi(ret)
         else Read(mem, address);
  }

  /** BRK, with PC already past its opcode: the frame goes on the stack, I is set, the
      other registers are kept and PC comes from the IRQ/BRK vector at 0xFFFE. */
  lemma BrkFrame(s: State)
    ensures ExecBrk(s)
      == Done(State(s.regs.(sp := s.regs.sp - 3, p := SetFlag(s.regs.p, I, true), pc := ReadU16(s.mem, IRQB_LOW)),
                    PushBreakFrame(s.regs, s.mem).1))
  {
    BreakFrameRegisters(s.regs, s.mem);
    BreakFrameContents(s.regs, s.mem, IRQB_LOW);
    BreakFrameContents(s.regs, s.mem, IRQB_LOW + 1);
    var (r3, m3) := PushBreakFrame(s.regs, s.mem);
    assert r3 == s.regs.(sp := s.regs.sp - 3);
  }

  /** RTI on a BRK frame pulls back P (with bit 5 set and B clear), then PC+1, and
      restores SP, whatever PC and P were meanwhile. */
  lemma RtiAfterBreakFrame(regs: Regs, mem: Mem, pc: Word, p: Byte)
    ensures var (r3, m3) := PushBreakFrame(regs, mem);
      ExecRti(State(r3.(pc := pc, p := p), m3))
        == Done(State(regs.(pc := Join(Lo(regs.pc + 1), Hi(regs.pc + 1)), p := PulledStatus(regs.p | 0x10)), m3))
  {
    var ret := regs.pc + 1;
    ThirdPushPulledFirst(regs, mem, Hi(ret), Lo(ret), regs.p | 0x10, pc, p);
    SecondPushPulledSecond(regs, mem, Hi(ret), Lo(ret), regs.p | 0x10, pc, p);
    FirstPushPulledLast(regs, mem, Hi(ret), Lo(ret), regs.p | 0x10, pc, p);
    var (r1, m1) := StackPush(regs, mem, Hi(ret));
    var (r2, m2) := StackPush(r1, m1, Lo(ret));
    var (r3, m3) := StackPush(r2, m2, regs.p | 0x10);
    BreakFrameIsThreePushes(regs, mem);
    assert StackPull(r3.(pc := pc, p := p), m3) == (regs.p | 0x10, r2.(pc := pc, p := p));
    assert StackPull(r2.(pc := pc, p := p), m3) == (Lo(ret), r1.(pc := pc, p := p));
    assert StackPull(r1.(pc := pc, p := p), m3) == (Hi(ret), regs.(pc := pc, p := p));
  }

  /** RTI after BRK returns past the signature byte with SP restored; P comes back
      from the frame with bit 5 set and B clear. */
  lemma BrkThenRti(s: State)
    ensures ExecBrk(s).Done?
    ensures ExecRti(ExecBrk(s).s) == Done(State(s.regs.(pc := s.regs.pc + 1, p := PulledStatus(s.regs.p)), ExecBrk(s).s.mem))
  {
    BrkFrame(s);
    BreakFrameRegisters(s.regs, s.mem);
    var (r3, m3) := PushBreakFrame(s.regs, s.mem);
    RtiAfterBreakFrame(s.regs, s.mem, ReadU16(s.mem, IRQB_LOW), SetFlag(s.regs.p, I, true));
    assert r3 == s.regs.(sp := s.regs.sp - 3);
    JoinOfHalves(s.regs.pc + 1);
    assert PulledStatus(s.regs.p | 0x10) == PulledStatus(s.regs.p);
  }

  /** JSR, with PC past its two operand bytes, pushes the address of its last byte
      (PC-1), high byte first, and jumps to the target. */
  lemma JsrFrame(target: Word, s: State)
    ensures ExecJsr(Address(target), s)
      == Done(State(s.regs.(sp := s.regs.sp - 2, pc := target),
                    s.mem[StackAddress(s.regs.sp) as int := Hi(s.regs.pc - 1)]
                         [StackAddress(s.regs.sp - 1) as int := Lo(s.regs.pc - 1)]))
  {
  }

  /** JSR as two pushes. */
  lemma JsrPushes(target: Word, s: State)
    ensures var (r1, m1) := StackPush(s.regs, s.mem, Hi(s.regs.pc - 1));
      var (r2, m2) := StackPush(r1, m1, Lo(s.regs.pc - 1));
      ExecJsr(Address(target), s) == Done(State(r2.(pc := target), m2))
  {
    ReturnAddressIsTwoPushes(s.regs, s.mem, s.regs.pc - 1);
    var (r2, m2) := PushReturnAddress(s.regs, s.mem, s.regs.pc - 1);
    assert ExecJsr(Address(target), s) == Done(State(r2.(pc := target), m2));
  }

  /** RTS on two pushed bytes returns one past the address they form and restores SP. */
  lemma RtsAfterTwoPushes(regs: Regs, mem: Mem, hi: Byte, lo: Byte, pc: Word)
    ensures var (r1, m1) := StackPush(regs, mem, hi);
      var (r2, m2) := StackPush(r1, m1, lo);
      ExecRts(State(r2.(pc := pc), m2)) == Done(State(regs.(pc := Join(lo, hi) + 1), m2))
  {
    PullsUndoTwoPushes(regs, mem, hi, lo);
    var (r1, m1) := StackPush(regs, mem, hi);
    var (r2, m2) := StackPush(r1, m1, lo);
    PullKeepsPcAndStatus(r2, m2, pc, r2.p);
    var (x, r3) := StackPull(r2, m2);
    PullKeepsPcAndStatus(r3, m2, pc, r3.p);
  }

  /** RTS after JSR continues right after the JSR with every register as it was. */
  lemma JsrThenRts(target: Word, s: State)
    ensures ExecJsr(Address(target), s).Done?
    ensures ExecRts(ExecJsr(Address(target), s).s) == Done(State(s.regs, ExecJsr(Address(target), s).s.mem))
  {
    var ret := s.regs.pc - 1;
    RtsAfterTwoPushes(s.regs, s.mem, Hi(ret), Lo(ret), target);
    JsrPushes(target, s);
    JoinOfHalves(ret);
  }

  /** A taken branch with an offset below 0x80 moves PC forward by up to 127 bytes. */
  lemma BranchForward(pc: Word, offset: Byte)
    requires offset < 0x80
    ensures Branch(pc, offset) == pc + offset as Word
  {
  }

  /** An offset of 0x80 or more is negative: PC moves back by `0x100 - offset`, by up to
      128 bytes, wrapping in 16 bits. */
  lemma BranchBackward(pc: Word, offset: Byte)
    requires offset >= 0x80
    ensures Branch(pc, offset) == pc - (0x100 - offset as Word)
  {
  }

  // ---------------------------------------------------------------- step

  /** A step whose opcode decodes to `op` runs `op`'s body on the resolved operand. */
  lemma StepDecoded(table: Table, s: State, op: Operation, operand: Operand, r2: Regs)
    requires Lookup(table, Read(s.mem, s.regs.pc)) == Some(op)
    requires ResolveOperand(op.mode, s.regs.(pc := s.regs.pc + 1), s.mem) == (operand, r2)
    ensures Step(table, s)
      == match Exec(op.mnemonic, operand, State(r2, s.mem))
         case Done(next) => Stepped(op.mnemonic, next)
         case Failed(e, next) => StepFailed(e, next)
         case Panicked(why) => StepPanicked(why)
  {
  }

  // Each operation body is reached through its group.

  lemma BrkDispatch(operand: Operand, s: State)
    ensures Exec(BRK, operand, s) == ExecBrk(s)
  {
    assert GroupOf(BRK) == ControlOps;
    assert Exec(BRK, operand, s) == ExecControl(BRK, operand, s);
  }

  lemma JsrDispatch(operand: Operand, s: State)
    ensures Exec(JSR, operand, s) == ExecJsr(operand, s)
  {
    assert GroupOf(JSR) == ControlOps;
    assert Exec(JSR, operand, s) == ExecControl(JSR, operand, s);
  }

  lemma RtsDispatch(operand: Operand, s: State)
    ensures Exec(RTS, operand, s) == ExecRts(s)
  {
    assert GroupOf(RTS) == ControlOps;
    assert Exec(RTS, operand, s) == ExecControl(RTS, operand, s);
  }

  lemma StzDispatch(operand: Operand, s: State)
    ensures Exec(STZ, operand, s) == WriteOperand(operand, 0, s)
  {
    assert GroupOf(STZ) == LoadStore;
    assert Exec(STZ, operand, s) == ExecLoadStore(STZ, operand, s);
  }

  /** Pushing a return address moves SP down by two and keeps the other registers,
      whatever PC is; the bytes written do not depend on PC. */
  lemma ReturnAddressKeepsOthers(regs: Regs, mem: Mem, ret: Word, pc: Word)
    ensures PushReturnAddress(regs.(pc := pc), mem, ret)
      == (regs.(sp := regs.sp - 2, pc := pc), PushReturnAddress(regs, mem, ret).1)
  {
  }

  /** JSR once its operand has been fetched (PC three past the opcode): the return
      address pushed is opcode + 2. */
  lemma JsrFetched(target: Word, s: State)
    ensures ExecJsr(Address(target), State(s.regs.(pc := s.regs.pc + 3), s.mem))
      == Done(State(s.regs.(sp := s.regs.sp - 2, pc := target), PushReturnAddress(s.regs, s.mem, s.regs.pc + 2).1))
  {
    var r2 := s.regs.(pc := s.regs.pc + 3);
    assert r2.pc - 1 == s.regs.pc + 2;
    ReturnAddressKeepsOthers(s.regs, s.mem, s.regs.pc + 2, r2.pc);
  }

  /** BRK, JSR and RTS sit at 0x00, 0x20 and 0x60 in both tables. */
  lemma ControlOpcodes(table: Table)
    ensures Lookup(table, 0x00) == Some(Operation(Stack, BRK))
    ensures Lookup(table, 0x20) == Some(Operation(Absolute, JSR))
    ensures Lookup(table, 0x60) == Some(Operation(Stack, RTS))
  {
  }

  /** A whole JSR step, with either table: the target is the word after the opcode, and
      the address of the JSR's last byte (opcode + 2) is pushed. */
  lemma StepJsr(table: Table, s: State)
    requires Read(s.mem, s.regs.pc) == 0x20
    ensures Step(table, s)
      == Stepped(JSR, State(s.regs.(sp := s.regs.sp - 2, pc := ReadU16(s.mem, s.regs.pc + 1)),
                            PushReturnAddress(s.regs, s.mem, s.regs.pc + 2).1))
  {
    ControlOpcodes(table);
    var target := ReadU16(s.mem, s.regs.pc + 1);
    var r2 := s.regs.(pc := s.regs.pc + 3);
    AbsoluteOperand(s.regs, s.mem);
    StepDecoded(table, s, Operation(Absolute, JSR), Address(target), r2);
    JsrDispatch(Address(target), State(r2, s.mem));
    JsrFetched(target, s);
  }

  /** The stack after a JSR step: opcode + 2, high byte at SP and low byte at SP-1;
      every other byte is kept. */
  lemma StepJsrFrame(table: Table, s: State, address: Word)
    requires Read(s.mem, s.regs.pc) == 0x20
    ensures Step(table, s).Stepped?
    ensures Read(Step(table, s).s.mem, address)
      == if address == StackAddress(s.regs.sp - 1) then Lo(s.regs.pc + 2)
         else if address == StackAddress(s.regs.sp) then Hi(s.regs.pc + 2)
         else Read(s.mem, address)
  {
    StepJsr(table, s);
    var ret := s.regs.pc + 2;
    ReturnAddressIsTwoPushes(s.regs, s.mem, ret);
    TwoPushesContents(s.regs, s.mem, Hi(ret), Lo(ret), address);
  }

  /** BRK's frame is its return address followed by P with B set. */
  lemma BreakFrameIsReturnAddress(regs: Regs, mem: Mem, ret: Word)
    requires ret == regs.pc + 1
    ensures PushBreakFrame(regs, mem).1
      == StackPush(PushReturnAddress(regs, mem, ret).0, PushReturnAddress(regs, mem, ret).1, regs.p | 0x10).1
  {
    var (r2, m2) := PushReturnAddress(regs, mem, ret);
    assert r2.p == regs.p;
  }

  /** Where a push writes depends on SP alone. */
  lemma PushMemoryDependsOnSp(r1: Regs, r2: Regs, mem: Mem, v: Byte)
    requires r1.sp == r2.sp
    ensures StackPush(r1, mem, v).1 == StackPush(r2, mem, v).1
  {
  }

  /** BRK's frame once the opcode has been fetched (PC one past it): the return address
      pushed is opcode + 2, then P with B set goes to SP-2. */
  lemma BreakFrameAfterFetch(regs: Regs, mem: Mem)
    ensures PushBreakFrame(regs.(pc := regs.pc + 1), mem).1
      == StackPush(regs.(sp := regs.sp - 2), PushReturnAddress(regs, mem, regs.pc + 2).1, regs.p | 0x10).1
  {
    var fetched := regs.(pc := regs.pc + 1);
    var ret := regs.pc + 2;
    BreakFrameIsReturnAddress(fetched, mem, ret);
    ReturnAddressKeepsOthers(regs, mem, ret, fetched.pc);
    var m2 := PushReturnAddress(regs, mem, ret).1;
    PushMemoryDependsOnSp(PushReturnAddress(fetched, mem, ret).0, regs.(sp := regs.sp - 2), m2, regs.p | 0x10);
  }

  /** BRK once its opcode has been fetched, in terms of the opcode's address. */
  lemma BrkFetched(s: State)
    ensures ExecBrk(State(s.regs.(pc := s.regs.pc + 1), s.mem))
      == Done(State(s.regs.(sp := s.regs.sp - 3, p := SetFlag(s.regs.p, I, true), pc := ReadU16(s.mem, IRQB_LOW)),
                    StackPush(s.regs.(sp := s.regs.sp - 2), PushReturnAddress(s.regs, s.mem, s.regs.pc + 2).1, s.regs.p | 0x10).1))
  {
    var r1 := s.regs.(pc := s.regs.pc + 1);
    var vector := ReadU16(s.mem, IRQB_LOW);
    BrkFrame(State(r1, s.mem));
    BreakFrameAfterFetch(s.regs, s.mem);
    assert r1.(sp := r1.sp - 3, p := SetFlag(r1.p, I, true), pc := vector)
      == s.regs.(sp := s.regs.sp - 3, p := SetFlag(s.regs.p, I, true), pc := vector);
  }

  /** A whole BRK step, with either table: the return address pushed is opcode + 2
      (past the signature byte), then P with B set; I is set and PC comes from the
      vector at 0xFFFE. */
  lemma StepBrk(table: Table, s: State)
    requires Read(s.mem, s.regs.pc) == 0x00
    ensures Step(table, s)
      == Stepped(BRK, State(s.regs.(sp := s.regs.sp - 3, p := SetFlag(s.regs.p, I, true), pc := ReadU16(s.mem, IRQB_LOW)),
                            StackPush(s.regs.(sp := s.regs.sp - 2), PushReturnAddress(s.regs, s.mem, s.regs.pc + 2).1, s.regs.p | 0x10).1))
  {
    ControlOpcodes(table);
    var r1 := s.regs.(pc := s.regs.pc + 1);
    StepDecoded(table, s, Operation(Stack, BRK), Operand.Implied, r1);
    BrkDispatch(Operand.Implied, State(r1, s.mem));
    BrkFetched(s);
  }

  /** The stack after a BRK step: opcode + 2, high byte at SP and low byte at SP-1,
      then P with B set at SP-2; every other byte is kept. */
  lemma StepBrkFrame(table: Table, s: State, address: Word)
    requires Read(s.mem, s.regs.pc) == 0x00
    ensures Step(table, s).Stepped?
    ensures Read(Step(table, s).s.mem, address)
      == if address == StackAddress(s.regs.sp - 2) then s.regs.p | 0x10
         else if address == StackAddress(s.regs.sp - 1) then Lo(s.regs.pc + 2)
         else if address == StackAddress(s.regs.sp) then Hi(s.regs.pc + 2)
         else Read(s.mem, address)
  {
    StepBrk(table, s);
    var ret := s.regs.pc + 2;
    var m2 := PushReturnAddress(s.regs, s.mem, ret).1;
    PushWritesStackPage(s.regs.(sp := s.regs.sp - 2), m2, s.regs.p | 0x10, address);
    ReturnAddressIsTwoPushes(s.regs, s.mem, ret);
    TwoPushesContents(s.regs, s.mem, Hi(ret), Lo(ret), address);
  }

  /** RTS does not depend on PC. */
  lemma RtsIgnoresPc(regs: Regs, mem: Mem, pc: Word)
    ensures ExecRts(State(regs.(pc := pc), mem)) == ExecRts(State(regs, mem))
  {
    PullKeepsPcAndStatus(regs, mem, pc, regs.p);
    var (low, r1) := StackPull(regs, mem);
    PullKeepsPcAndStatus(r1, mem, pc, r1.p);
  }

  /** A whole RTS step, with either table: the opcode fetch has no effect on where
      RTS returns to. */
  lemma StepRts(table: Table, s: State)
    requires Read(s.mem, s.regs.pc) == 0x60
    ensures ExecRts(s).Done?
    ensures Step(table, s) == Stepped(RTS, ExecRts(s).s)
  {
    ControlOpcodes(table);
    var r1 := s.regs.(pc := s.regs.pc + 1);
    StepDecoded(table, s, Operation(Stack, RTS), Operand.Implied, r1);
    RtsDispatch(Operand.Implied, State(r1, s.mem));
    RtsIgnoresPc(s.regs, s.mem, r1.pc);
  }

  /** JSR then RTS as two whole steps: when the subroutine starts with RTS (and the
      return address was not pushed over it), execution continues at the instruction
      after the three-byte JSR with every register as it was. */
  lemma StepJsrThenRts(table: Table, s: State)
    requires Read(s.mem, s.regs.pc) == 0x20
    requires ReadU16(s.mem, s.regs.pc + 1) != StackAddress(s.regs.sp)
    requires ReadU16(s.mem, s.regs.pc + 1) != StackAddress(s.regs.sp - 1)
    requires Read(s.mem, ReadU16(s.mem, s.regs.pc + 1)) == 0x60
    ensures Step(table, s).Stepped?
    ensures Step(table, Step(table, s).s) == Stepped(RTS, State(s.regs.(pc := s.regs.pc + 3), Step(table, s).s.mem))
  {
    var target := ReadU16(s.mem, s.regs.pc + 1);
    StepJsr(table, s);
    StepJsrFrame(table, s, target);
    var called := Step(table, s).s;
    StepRts(table, called);
    JsrFetched(target, s);
    JsrThenRts(target, State(s.regs.(pc := s.regs.pc + 3), s.mem));
  }

  /** An absolute operand (JSR, STZ), resolved after the opcode fetch. */
  lemma AbsoluteOperand(regs: Regs, mem: Mem)
    ensures ResolveOperand(Absolute, regs.(pc := regs.pc + 1), mem)
      == (Address(ReadU16(mem, regs.pc + 1)), regs.(pc := regs.pc + 3))
  {
  }

  /** The operand of STZ absolute,X, resolved after the opcode fetch. */
  lemma StzIndexedOperand(regs: Regs, mem: Mem)
    ensures ResolveOperand(AbsoluteIndexedX, regs.(pc := regs.pc + 1), mem)
      == (Address(Indexed(ReadU16(mem, regs.pc + 1), regs.x)), regs.(pc := regs.pc + 3))
  {
  }

  /** STZ through an address operand: RAM takes the zero, ROM aborts. */
  lemma StzExec(address: Word, st: State)
    ensures address < 0x8000 ==> Exec(STZ, Address(address), st) == Done(State(st.regs, st.mem[address as int := 0]))
    ensures address >= 0x8000 ==> Exec(STZ, Address(address), st) == Panicked(RomWrite(address))
  {
    StzDispatch(Address(address), st);
  }

  /** With the corrected table, 0x9C decodes to STZ absolute. */
  lemma StzDecodesCorrected(s: State)
    ensures Lookup(Corrected, 0x9C) == Some(Operation(Absolute, STZ))
    ensures ResolveOperand(Absolute, s.regs.(pc := s.regs.pc + 1), s.mem)
      == (Address(ReadU16(s.mem, s.regs.pc + 1)), s.regs.(pc := s.regs.pc + 3))
  {
    AbsoluteOperand(s.regs, s.mem);
  }

  /** With the written table, 0x9C decodes to STZ absolute,X. */
  lemma StzDecodesAsWritten(s: State)
    ensures Lookup(AsWritten, 0x9C) == Some(Operation(AbsoluteIndexedX, STZ))
    ensures ResolveOperand(AbsoluteIndexedX, s.regs.(pc := s.regs.pc + 1), s.mem)
      == (Address(Indexed(ReadU16(s.mem, s.regs.pc + 1), s.regs.x)), s.regs.(pc := s.regs.pc + 3))
  {
    StzAsWritten();
    StzIndexedOperand(s.regs, s.mem);
  }

  /** STZ absolute at 0x9C decoded with the corrected table stores zero at the operand
      (and aborts when the operand is in ROM). */
  lemma StepStzCorrected(s: State)
    requires Read(s.mem, s.regs.pc) == 0x9C
    ensures var base := ReadU16(s.mem, s.regs.pc + 1);
      base < 0x8000 ==> Step(Corrected, s) == Stepped(STZ, State(s.regs.(pc := s.regs.pc + 3), s.mem[base as int := 0]))
    ensures var base := ReadU16(s.mem, s.regs.pc + 1);
      base >= 0x8000 ==> Step(Corrected, s) == StepPanicked(RomWrite(base))
  {
    var base := ReadU16(s.mem, s.regs.pc + 1);
    var r2 := s.regs.(pc := s.regs.pc + 3);
    StzDecodesCorrected(s);
    StzExec(base, State(r2, s.mem));
    StepDecoded(Corrected, s, Operation(Absolute, STZ), Address(base), r2);
  }

  /** The same byte decoded with the written table stores zero at the operand plus X
      (and aborts when that address is in ROM). */
  lemma StepStzAsWritten(s: State)
    requires Read(s.mem, s.regs.pc) == 0x9C
    ensures var target := Indexed(ReadU16(s.mem, s.regs.pc + 1), s.regs.x);
      target < 0x8000 ==> Step(AsWritten, s) == Stepped(STZ, State(s.regs.(pc := s.regs.pc + 3), s.mem[target as int := 0]))
    ensures var target := Indexed(ReadU16(s.mem, s.regs.pc + 1), s.regs.x);
      target >= 0x8000 ==> Step(AsWritten, s) == StepPanicked(RomWrite(target))
  {
    var target := Indexed(ReadU16(s.mem, s.regs.pc + 1), s.regs.x);
    var r2 := s.regs.(pc := s.regs.pc + 3);
    StzDecodesAsWritten(s);
    StzExec(target, State(r2, s.mem));
    StepDecoded(AsWritten, s, Operation(AbsoluteIndexedX, STZ), Address(target), r2);
  }

  /** Adding a non-zero index moves an address. */
  lemma IndexedMoves(base: Word, x: Byte)
    requires x != 0
    ensures Indexed(base, x) != base
  {
  }

  /** Zeroing one byte leaves a different address alone. */
  lemma ZeroElsewhere(mem: Mem, target: Word, address: Word)
    requires target != address
    ensures Read(mem[target as int := 0], address) == Read(mem, address)
  {
    AddressIndexInjective(target, address);
  }

  /** The two tables give observably different steps: with X non-zero, a RAM operand
      holding a non-zero byte is cleared by the corrected STZ absolute and left alone
      by the written table's STZ absolute,X (which may instead abort on ROM). */
  lemma StzTablesDiffer(s: State)
    requires Read(s.mem, s.regs.pc) == 0x9C && s.regs.x != 0
    requires ReadU16(s.mem, s.regs.pc + 1) < 0x8000
    requires Read(s.mem, ReadU16(s.mem, s.regs.pc + 1)) != 0
    ensures Step(Corrected, s).Stepped? && Read(Step(Corrected, s).s.mem, ReadU16(s.mem, s.regs.pc + 1)) == 0
    ensures !Step(AsWritten, s).Stepped? || Read(Step(AsWritten, s).s.mem, ReadU16(s.mem, s.regs.pc + 1)) != 0
    ensures Step(Corrected, s) != Step(AsWritten, s)
  {
    var base := ReadU16(s.mem, s.regs.pc + 1);
    var target := Indexed(base, s.regs.x);
    StepStzCorrected(s);
    StepStzAsWritten(s);
    IndexedMoves(base, s.regs.x);
    ZeroElsewhere(s.mem, target, base);
  }

  /** An opcode the table leaves empty is reported with the opcode byte; PC has moved
      past it and nothing else changes. */
  lemma InvalidOpcodeStep(table: Table, s: State)
    requires Lookup(table, Read(s.mem, s.regs.pc)).None?
    ensures Step(table, s) == StepFailed(InvalidOpcode(Read(s.mem, s.regs.pc)), State(s.regs.(pc := s.regs.pc + 1), s.mem))
  {
  }
}
