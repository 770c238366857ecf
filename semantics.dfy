/**
 * Reference semantics of the W65C02S core: every operation of the processor as a
 * function from the registers and the 64 KiB address space to the next state. The
 * imperative processor in module Cpu is proved to compute exactly these functions.
 */
module Semantics {
  import opened Prelude
  import opened Isa
  import Bus

  /** Vector and stack constants. */
  const IRQB_LOW: Word := 0xFFFE
  const RESB_LOW: Word := 0xFFFC
  const NMIB_LOW: Word := 0xFFFA
  const STACK_POINTER_BASE: Word := 0x0100
  /** The value `reset` gives P: I set, and the unused bit 5 and B read as set. */
  const P_DEFAULT: Byte := 0x34

  /** The address space as the processor sees it through the bus. */
  type Mem = m: seq<Byte> | |m| == 0x10000 witness seq(0x10000, _ => 0)

  datatype Regs = Regs(pc: Word, a: Byte, x: Byte, y: Byte, sp: Byte, p: Byte)

  datatype State = State(regs: Regs, mem: Mem)

  /** Why the emulator aborts instead of returning: a write into ROM, an opcode whose
      body is `unimplemented!()`, or an operand of a kind the body never expects. */
  datatype Panic = RomWrite(address: Word) | Unimplemented(mnemonic: Mnemonic) | Unreachable(mnemonic: Mnemonic)

  /** What one operation body produces. */
  datatype Outcome = Done(s: State) | Failed(error: CpuError, s: State) | Panicked(reason: Panic)

  /** What one `step` produces. */
  datatype StepResult =
    | Stepped(mnemonic: Mnemonic, s: State)
    | StepFailed(error: CpuError, s: State)
    | StepPanicked(reason: Panic)

  // ---------------------------------------------------------------- status register

  /** Whether a flag is set in P. */
  predicate Check(p: Byte, flag: Status)
  {
    p & Mask(flag) > 0
  }

  /** The flag's bit becomes `val`; no other bit of P moves. */
  function SetFlag(p: Byte, flag: Status, val: bool): (r: Byte)
    ensures Check(r, flag) == val
    ensures r & !Mask(flag) == p & !Mask(flag)
  {
    (p & !Mask(flag)) | (Mask(flag) * if val then 1 else 0)
  }

  /** Z reports a zero value and N its bit 7; the other six bits of P are kept. */
  function UpdateZN(p: Byte, v: Byte): (r: Byte)
    ensures Check(r, Z) <==> v == 0
    ensures Check(r, N) <==> v & 0x80 != 0
    ensures r & 0x7D == p & 0x7D
  {
    SetFlag(SetFlag(p, Z, v == 0), N, (v >> 7) > 0)
  }

  // ---------------------------------------------------------------- memory

  function Read(mem: Mem, address: Word): Byte
  {
    mem[address as int]
  }

  /** Little-endian word at `address`, the high byte from `address + 1` (mod 2^16). */
  function ReadU16(mem: Mem, address: Word): (w: Word)
    ensures Lo(w) == Read(mem, address) && Hi(w) == Read(mem, address + 1)
  {
    Join(Read(mem, address), Read(mem, address + 1))
  }

  /** The bus write: RAM takes the byte, a ROM address aborts the emulator. */
  function Write(mem: Mem, address: Word, v: Byte): (r: Result<Mem, Panic>)
    ensures r.Ok? <==> address < Bus.ROM_BASE
    ensures r.Ok? ==> r.value == mem[address as int := v]
    ensures r.Err? ==> r.error == RomWrite(address)
  {
    if address < Bus.ROM_BASE then Ok(mem[address as int := v]) else Err(RomWrite(address))
  }

  // ---------------------------------------------------------------- fetch and stack

  function FetchU8(regs: Regs, mem: Mem): (r: (Byte, Regs))
  {
    (Read(mem, regs.pc), regs.(pc := regs.pc + 1))
  }

  function FetchU16(regs: Regs, mem: Mem): (r: (Word, Regs))
    ensures r.0 == ReadU16(mem, regs.pc)
    ensures r.1 == regs.(pc := regs.pc + 2)
  {
    var (low, r1) := FetchU8(regs, mem);
    var (high, r2) := FetchU8(r1, mem);
    (Join(low, high), r2)
  }

  /** The stack lives in page one: `0x0100 | SP`. */
  function StackAddress(sp: Byte): (address: Word)
    ensures Hi(address) == 0x01 && Lo(address) == sp
    ensures address < Bus.ROM_BASE
  {
    STACK_POINTER_BASE | sp as Word
  }

  /** Store at the stack pointer, then decrement it. The stack page is RAM, so the
      bus write always lands. */
  function StackPush(regs: Regs, mem: Mem, v: Byte): (r: (Regs, Mem))
  {
    (regs.(sp := regs.sp - 1), mem[StackAddress(regs.sp) as int := v])
  }

  /** The return address of JSR and BRK goes on the stack high byte first. */
  function PushReturnAddress(regs: Regs, mem: Mem, returnAddress: Word): (r: (Regs, Mem))
  {
    var (r1, m1) := StackPush(regs, mem, Hi(returnAddress));
    StackPush(r1, m1, Lo(returnAddress))
  }

  /** BRK's stack frame: the address after the signature byte, then P with B set. */
  function PushBreakFrame(regs: Regs, mem: Mem): (r: (Regs, Mem))
  {
    var (r2, m2) := PushReturnAddress(regs, mem, regs.pc + 1);
    StackPush(r2, m2, r2.p | 0x10)
  }

  /** Increment the stack pointer, then load from it. */
  function StackPull(regs: Regs, mem: Mem): (r: (Byte, Regs))
  {
    var sp := regs.sp + 1;
    (Read(mem, StackAddress(sp)), regs.(sp := sp))
  }

  function Reset(regs: Regs, mem: Mem): (r: Regs)
    ensures r.pc == Join(mem[0xFFFC], mem[0xFFFD]) && r.p == P_DEFAULT
    ensures r.a == regs.a && r.x == regs.x && r.y == regs.y && r.sp == regs.sp
  {
    var entry := ReadU16(mem, RESB_LOW);
    regs.(p := P_DEFAULT, pc := entry)
  }

  // ---------------------------------------------------------------- addressing

  /** A pointer stored in page zero: its high byte comes from `zp + 1` wrapped to page zero. */
  function ZeroPagePointer(mem: Mem, zp: Byte): Word
  {
    Join(Read(mem, zp as Word), Read(mem, (zp + 1) as Word))
  }

  /** A 16-bit base plus an index register, wrapping at 0x10000. */
  function Indexed(base: Word, index: Byte): Word
  {
    base + index as Word
  }

  /** A zero-page base plus an index register, wrapping within page zero. */
  function ZeroPageIndexed(zp: Byte, index: Byte): Byte
  {
    zp + index
  }

  /** Fetch the operand bytes of `mode` and compute the operand they designate. */
  function ResolveOperand(mode: AddressingMode, regs: Regs, mem: Mem): (r: (Operand, Regs))
  {
    match mode
    case Absolute =>
      var (address, r1) := FetchU16(regs, mem);
      (Address(address), r1)
    case AbsoluteIndexedIndirect =>
      var (base, r1) := FetchU16(regs, mem);
      (Address(ReadU16(mem, Indexed(base, regs.x))), r1)
    case AbsoluteIndexedX =>
      var (base, r1) := FetchU16(regs, mem);
      (Address(Indexed(base, regs.x)), r1)
    case AbsoluteIndexedY =>
      var (base, r1) := FetchU16(regs, mem);
      (Address(Indexed(base, regs.y)), r1)
    case AbsoluteIndirect =>
      var (ptr, r1) := FetchU16(regs, mem);
      (Address(ReadU16(mem, ptr)), r1)
    case Accumulator =>
      (Operand.Accumulator, regs)
    case Immediate =>
      var (v, r1) := FetchU8(regs, mem);
      (Value(v), r1)
    case Implied =>
      (Operand.Implied, regs)
    case ProgramCounterRelative =>
      var (offset, r1) := FetchU8(regs, mem);
      (Relative(offset), r1)
    case Stack =>
      (Operand.Implied, regs)
    case ZeroPage =>
      var (zp, r1) := FetchU8(regs, mem);
      (Address(zp as Word), r1)
    case ZeroPageIndexedIndirect =>
      var (zp, r1) := FetchU8(regs, mem);
      (Address(ZeroPagePointer(mem, ZeroPageIndexed(zp, regs.x))), r1)
    case ZeroPageIndexedX =>
      var (zp, r1) := FetchU8(regs, mem);
      (Address(ZeroPageIndexed(zp, regs.x) as Word), r1)
    case ZeroPageIndexedY =>
      var (zp, r1) := FetchU8(regs, mem);
      (Address(ZeroPageIndexed(zp, regs.y) as Word), r1)
    case ZeroPageIndirect =>
      var (zp, r1) := FetchU8(regs, mem);
      (Address(ZeroPagePointer(mem, zp)), r1)
    case ZeroPageIndirectIndexedY =>
      var (zp, r1) := FetchU8(regs, mem);
      (Address(Indexed(ZeroPagePointer(mem, zp), regs.y)), r1)
    case ZeroPageRelative =>
      var (zp, r1) := FetchU8(regs, mem);
      var (offset, r2) := FetchU8(r1, mem);
      (ZpAddrRelative(zp, offset), r2)
  }

  /** `Operand::read`: immediates, memory, the accumulator and a zero-page byte. */
  function ReadOperand(operand: Operand, regs: Regs, mem: Mem): (r: Result<Byte, CpuError>)
  {
    match operand
    case Value(v) => Ok(v)
    case Address(address) => Ok(Read(mem, address))
    case Accumulator => Ok(regs.a)
    case ZpAddrRelative(zp, _) => Ok(Read(mem, zp as Word))
    case _ => Err(InvalidOperand(operand))
  }

  /** `Operand::write`: memory through the bus, or the accumulator. */
  function WriteOperand(operand: Operand, v: Byte, s: State): (r: Outcome)
  {
    match operand
    case Address(address) =>
      (match Write(s.mem, address, v)
       case Ok(mem) => Done(s.(mem := mem))
       case Err(why) => Panicked(why))
    case Accumulator => Done(s.(regs := s.regs.(a := v)))
    case _ => Failed(InvalidOperand(operand), s)
  }

  // ---------------------------------------------------------------- registers by name

  datatype Register = A | X | Y

  function Get(regs: Regs, r: Register): Byte
  {
    match r
    case A => regs.a
    case X => regs.x
    case Y => regs.y
  }

  function Put(regs: Regs, r: Register, v: Byte): (out: Regs)
    ensures Get(out, r) == v
    ensures out.pc == regs.pc && out.sp == regs.sp && out.p == regs.p
    ensures forall q :: q != r ==> Get(out, q) == Get(regs, q)
  {
    match r
    case A => regs.(a := v)
    case X => regs.(x := v)
    case Y => regs.(y := v)
  }

  // ---------------------------------------------------------------- arithmetic

  function CarryIn(p: Byte): Word
  {
    if Check(p, C) then 1 else 0
  }

  /** The carry flag as the bit that ROL and ROR shift in. */
  function CarryBit(p: Byte): Byte
  {
    if Check(p, C) then 1 else 0
  }

  /** The 16-bit sum `a + b + C` that ADC and SBC both form before truncating. */
  function WideSum(a: Byte, b: Byte, p: Byte): Word
  {
    a as Word + b as Word + CarryIn(p)
  }

  /** ADC: binary sum with carry; C, V, Z and N updated in that order. */
  function AddWithCarry(a: Byte, val: Byte, p: Byte): (r: (Byte, Byte))
  {
    var sum := WideSum(a, val, p);
    var result := Lo(sum);
    var p1 := SetFlag(p, C, sum > 0xFF);
    var overflow := (!(a ^ val) & (a ^ result)) & 0x80 != 0;
    var p2 := SetFlag(p1, V, overflow);
    (result, UpdateZN(p2, result))
  }

  /** SBC: binary difference with borrow, computed as `A + !M + C` in 16 bits. */
  function SubtractWithBorrow(a: Byte, val: Byte, p: Byte): (r: (Byte, Byte))
  {
    var diff := WideSum(a, !val, p);
    var result := Lo(diff);
    var p1 := SetFlag(p, C, diff > 0xFF);
    var p2 := SetFlag(p1, V, ((result ^ a) & (a ^ val) & 0x80) != 0);
    (result, UpdateZN(p2, result))
  }

  /** CMP, CPX, CPY: C is `reg >= M`, Z and N from `reg - M`. */
  function CompareFlags(reg: Byte, val: Byte, p: Byte): Byte
  {
    UpdateZN(SetFlag(p, C, reg >= val), reg - val)
  }

  /** The bitwise family AND, ORA, EOR. */
  function Bitwise(mnemonic: Mnemonic, a: Byte, val: Byte): Byte
    requires mnemonic in {AND, ORA, EOR}
  {
    match mnemonic
    case AND => a & val
    case ORA => a | val
    case EOR => a ^ val
  }

  /** Result and new P of the read-modify-write family. */
  function ModifyResult(mnemonic: Mnemonic, val: Byte, regs: Regs): (r: (Byte, Byte))
    requires IsModifyOp(mnemonic)
  {
    var p := regs.p;
    match mnemonic
    case ASL =>
      var result := val << 1;
      (result, UpdateZN(SetFlag(p, C, val & 0x80 > 0), result))
    case LSR =>
      var result := val >> 1;
      (result, UpdateZN(SetFlag(p, C, val & 1 > 0), result))
    case ROL =>
      var result := (val << 1) | CarryBit(p);
      (result, UpdateZN(SetFlag(p, C, (val >> 7) > 0), result))
    case ROR =>
      var result := (val >> 1) | (CarryBit(p) << 7);
      (result, UpdateZN(SetFlag(p, C, val & 1 > 0), result))
    case INC =>
      var result := val + 1;
      (result, UpdateZN(p, result))
    case DEC =>
      var result := val - 1;
      (result, UpdateZN(p, result))
    case RMBN(n) =>
      (ClearBit(val, n), p)
    case SMBN(n) =>
      (SetBit(val, n), p)
    case TRB =>
      (val & !regs.a, SetFlag(p, Z, NoCommonBits(val, regs.a)))
    case TSB =>
      (val | regs.a, SetFlag(p, Z, NoCommonBits(val, regs.a)))
  }

  /** TRB and TSB set Z when the memory byte and A share no set bit. */
  predicate NoCommonBits(val: Byte, a: Byte)
  {
    val & a == 0
  }

  /** The single-bit mask `1 << n`, written out bit by bit. */
  function BitMask(n: BitIndex): Byte
  {
    match n
    case 0 => 0x01 case 1 => 0x02 case 2 => 0x04 case 3 => 0x08
    case 4 => 0x10 case 5 => 0x20 case 6 => 0x40 case 7 => 0x80
  }

  /** The flag test of each conditional branch; BRA always branches. */
  function BranchTaken(mnemonic: Mnemonic, p: Byte): bool
    requires IsBranch(mnemonic)
  {
    match mnemonic
    case BCC => !Check(p, C)
    case BCS => Check(p, C)
    case BEQ => Check(p, Z)
    case BMI => Check(p, N)
    case BNE => !Check(p, Z)
    case BPL => !Check(p, N)
    case BVC => !Check(p, V)
    case BVS => Check(p, V)
    case BRA => true
  }

  predicate IsBranch(mnemonic: Mnemonic)
  {
    mnemonic.BCC? || mnemonic.BCS? || mnemonic.BEQ? || mnemonic.BMI? || mnemonic.BNE?
    || mnemonic.BPL? || mnemonic.BVC? || mnemonic.BVS? || mnemonic.BRA?
  }

  /** PC moved by a signed 8-bit offset, wrapping in 16 bits. */
  function Branch(pc: Word, offset: Byte): Word
  {
    pc + SignExtend(offset)
  }

  /** BIT's flags: Z from `A & M`; N and V copied from bits 7 and 6 of M unless the
      operand is an immediate. */
  function BitStatus(p: Byte, a: Byte, val: Byte, immediate: bool): Byte
  {
    var p1 := SetFlag(p, Z, a & val == 0);
    if immediate then p1 else SetFlag(SetFlag(p1, N, (val >> 7) > 0), V, val & 0x40 > 0)
  }

  /** RMBn's new byte: bit n cleared, the others kept. */
  function ClearBit(val: Byte, n: BitIndex): Byte
  {
    val & !BitMask(n)
  }

  /** SMBn's new byte: bit n set, the others kept. */
  function SetBit(val: Byte, n: BitIndex): Byte
  {
    val | BitMask(n)
  }

  /** Whether bit n of a byte is set. */
  predicate BitIsSet(val: Byte, n: BitIndex)
  {
    val & BitMask(n) != 0
  }

  /** The P value PLP and RTI install: bit 5 forced on, B forced off. */
  function PulledStatus(v: Byte): Byte
  {
    (v | 0x20) & !0x10
  }

  // ---------------------------------------------------------------- operation bodies

  function WithRegs(s: State, regs: Regs): State
  {
    s.(regs := regs)
  }

  /** ADC and SBC. */
  function ExecArithmetic(mnemonic: Mnemonic, operand: Operand, s: State): Outcome
    requires mnemonic in {ADC, SBC}
  {
    match ReadOperand(operand, s.regs, s.mem)
    case Err(e) => Failed(e, s)
    case Ok(val) =>
      var (result, p) :=
        if mnemonic == ADC then AddWithCarry(s.regs.a, val, s.regs.p)
        else SubtractWithBorrow(s.regs.a, val, s.regs.p);
      Done(WithRegs(s, s.regs.(a := result, p := p)))
  }

  /** AND, ORA, EOR. */
  function ExecBitwise(mnemonic: Mnemonic, operand: Operand, s: State): Outcome
    requires mnemonic in {AND, ORA, EOR}
  {
    match ReadOperand(operand, s.regs, s.mem)
    case Err(e) => Failed(e, s)
    case Ok(val) =>
      var result := Bitwise(mnemonic, s.regs.a, val);
      Done(WithRegs(s, s.regs.(a := result, p := UpdateZN(s.regs.p, result))))
  }

  /** CMP, CPX, CPY against register `r`. */
  function ExecCompare(r: Register, operand: Operand, s: State): Outcome
  {
    match ReadOperand(operand, s.regs, s.mem)
    case Err(e) => Failed(e, s)
    case Ok(val) => Done(WithRegs(s, s.regs.(p := CompareFlags(Get(s.regs, r), val, s.regs.p))))
  }

  /** BIT: Z from `A & M`; N and V copied from M except in immediate mode. */
  function ExecBit(operand: Operand, s: State): Outcome
  {
    match ReadOperand(operand, s.regs, s.mem)
    case Err(e) => Failed(e, s)
    case Ok(val) =>
      Done(WithRegs(s, s.regs.(p := BitStatus(s.regs.p, s.regs.a, val, operand.Value?))))
  }

  /** ASL, LSR, ROL, ROR, INC, DEC, RMBn, SMBn, TRB, TSB: P is updated before the write. */
  function ExecReadModifyWrite(mnemonic: Mnemonic, operand: Operand, s: State): Outcome
    requires IsModifyOp(mnemonic)
  {
    match ReadOperand(operand, s.regs, s.mem)
    case Err(e) => Failed(e, s)
    case Ok(val) =>
      var (result, p) := ModifyResult(mnemonic, val, s.regs);
      WriteOperand(operand, result, WithRegs(s, s.regs.(p := p)))
  }

  /** LDA, LDX, LDY. */
  function ExecLoad(r: Register, operand: Operand, s: State): Outcome
  {
    match ReadOperand(operand, s.regs, s.mem)
    case Err(e) => Failed(e, s)
    case Ok(val) => Done(WithRegs(s, Put(s.regs, r, val).(p := UpdateZN(s.regs.p, val))))
  }

  /** STA, STX, STY store a register, STZ stores zero. */
  function ExecStore(mnemonic: Mnemonic, operand: Operand, s: State): Outcome
    requires mnemonic in {STA, STX, STY, STZ}
  {
    var v := match mnemonic
      case STA => s.regs.a
      case STX => s.regs.x
      case STY => s.regs.y
      case STZ => 0;
    WriteOperand(operand, v, s)
  }

  /** INX, INY, DEX, DEY. */
  function ExecStepRegister(r: Register, increment: bool, s: State): Outcome
  {
    var v := Get(s.regs, r);
    var result := if increment then v + 1 else v - 1;
    Done(WithRegs(s, Put(s.regs, r, result).(p := UpdateZN(s.regs.p, result))))
  }

  /** The six register-to-register transfers. */
  predicate IsTransfer(m: Mnemonic)
  {
    m.TAX? || m.TAY? || m.TSX? || m.TXA? || m.TXS? || m.TYA?
  }

  /** TAX, TAY, TSX, TXA, TXS, TYA; only TXS leaves P alone. */
  function ExecTransfer(mnemonic: Mnemonic, s: State): Outcome
    requires IsTransfer(mnemonic)
  {
    var regs := s.regs;
    match mnemonic
    case TAX => Done(WithRegs(s, regs.(x := regs.a, p := UpdateZN(regs.p, regs.a))))
    case TAY => Done(WithRegs(s, regs.(y := regs.a, p := UpdateZN(regs.p, regs.a))))
    case TSX => Done(WithRegs(s, regs.(x := regs.sp, p := UpdateZN(regs.p, regs.sp))))
    case TXA => Done(WithRegs(s, regs.(a := regs.x, p := UpdateZN(regs.p, regs.x))))
    case TXS => Done(WithRegs(s, regs.(sp := regs.x)))
    case TYA => Done(WithRegs(s, regs.(a := regs.y, p := UpdateZN(regs.p, regs.y))))
  }

  /** CLC, CLD, CLI, CLV, SEC, SED, SEI. */
  function ExecFlag(flag: Status, val: bool, s: State): Outcome
  {
    Done(WithRegs(s, s.regs.(p := SetFlag(s.regs.p, flag, val))))
  }

  /** Conditional branches and BRA. */
  function ExecBranch(mnemonic: Mnemonic, operand: Operand, s: State): Outcome
    requires IsBranch(mnemonic)
  {
    match operand
    case Relative(offset) =>
      if BranchTaken(mnemonic, s.regs.p) then Done(WithRegs(s, s.regs.(pc := Branch(s.regs.pc, offset))))
      else Done(s)
    case _ => Panicked(Unreachable(mnemonic))
  }

  /** BBRn branches when bit n of the zero-page byte is clear, BBSn when it is set. */
  function ExecBranchOnBit(mnemonic: Mnemonic, operand: Operand, s: State): Outcome
    requires mnemonic.BBRN? || mnemonic.BBSN?
  {
    match operand
    case ZpAddrRelative(zp, offset) =>
      var val := Read(s.mem, zp as Word);
      var taken := if mnemonic.BBSN? then BitIsSet(val, mnemonic.n) else !BitIsSet(val, mnemonic.n);
      if taken then Done(WithRegs(s, s.regs.(pc := Branch(s.regs.pc, offset))))
      else Done(s)
    case _ => Panicked(Unreachable(mnemonic))
  }

  /** PHA, PHX, PHY, and PHP, which pushes P with bits 4 and 5 set. */
  function ExecPush(mnemonic: Mnemonic, s: State): Outcome
    requires mnemonic in {PHA, PHP, PHX, PHY}
  {
    var v := match mnemonic
      case PHA => s.regs.a
      case PHP => s.regs.p | 0x30
      case PHX => s.regs.x
      case PHY => s.regs.y;
    var (regs, mem) := StackPush(s.regs, s.mem, v);
    Done(State(regs, mem))
  }

  /** PLA, PLX, PLY set Z and N from the pulled byte; PLP installs it as P. */
  function ExecPull(mnemonic: Mnemonic, s: State): Outcome
    requires mnemonic in {PLA, PLP, PLX, PLY}
  {
    var (v, regs) := StackPull(s.regs, s.mem);
    match mnemonic
    case PLA => Done(WithRegs(s, regs.(a := v, p := UpdateZN(regs.p, v))))
    case PLX => Done(WithRegs(s, regs.(x := v, p := UpdateZN(regs.p, v))))
    case PLY => Done(WithRegs(s, regs.(y := v, p := UpdateZN(regs.p, v))))
    case PLP => Done(WithRegs(s, regs.(p := PulledStatus(v))))
  }

  /** BRK: push PC+1 (high byte first) and P|0x10, set I, jump through 0xFFFE. */
  function ExecBrk(s: State): Outcome
  {
    var (r3, m3) := PushBreakFrame(s.regs, s.mem);
    var r4 := r3.(p := SetFlag(r3.p, I, true));
    var target := Join(Read(m3, IRQB_LOW), Read(m3, IRQB_LOW + 1));
    Done(State(r4.(pc := target), m3))
  }

  function ExecJmp(operand: Operand, s: State): Outcome
  {
    match operand
    case Address(address) => Done(WithRegs(s, s.regs.(pc := address)))
    case _ => Panicked(Unreachable(JMP))
  }

  /** JSR: push PC-1 (the last byte of the JSR), high byte first, then jump. */
  function ExecJsr(operand: Operand, s: State): Outcome
  {
    match operand
    case Address(address) =>
      var (r2, m2) := PushReturnAddress(s.regs, s.mem, s.regs.pc - 1);
      Done(State(r2.(pc := address), m2))
    case _ => Panicked(Unreachable(JSR))
  }

  /** RTI: pull P (masked as PLP does), then PC low and high. */
  function ExecRti(s: State): Outcome
  {
    var (pulled, r1) := StackPull(s.regs, s.mem);
    var (low, r2) := StackPull(r1, s.mem);
    var (high, r3) := StackPull(r2, s.mem);
    Done(WithRegs(s, r3.(p := PulledStatus(pulled), pc := Join(low, high))))
  }

  /** RTS: pull PC low and high, and continue one past it. */
  function ExecRts(s: State): Outcome
  {
    var (low, r1) := StackPull(s.regs, s.mem);
    var (high, r2) := StackPull(r1, s.mem);
    Done(WithRegs(s, r2.(pc := Join(low, high) + 1)))
  }

  /** The operation groups the mnemonics fall into. */
  datatype OpGroup =
    | Alu | LoadStore | Modify | RegisterOps | FlagOps | BranchOps | StackOps | ControlOps

  /** Arithmetic, logic, compare and bit test on A. */
  predicate IsAluOp(m: Mnemonic)
  {
    m.ADC? || m.SBC? || m.AND? || m.ORA? || m.EOR? || m.CMP? || m.CPX? || m.CPY? || m.BIT?
  }

  predicate IsLoadStoreOp(m: Mnemonic)
  {
    m.LDA? || m.LDX? || m.LDY? || m.STA? || m.STX? || m.STY? || m.STZ?
  }

  /** The read-modify-write family. */
  predicate IsModifyOp(m: Mnemonic)
  {
    m.ASL? || m.LSR? || m.ROL? || m.ROR? || m.INC? || m.DEC? || m.RMBN? || m.SMBN? || m.TRB? || m.TSB?
  }

  predicate IsRegisterOp(m: Mnemonic)
  {
    m.INX? || m.INY? || m.DEX? || m.DEY? || m.TAX? || m.TAY? || m.TSX? || m.TXA? || m.TXS? || m.TYA?
  }

  predicate IsFlagOp(m: Mnemonic)
  {
    m.CLC? || m.CLD? || m.CLI? || m.CLV? || m.SEC? || m.SED? || m.SEI? || m.NOP?
  }

  predicate IsBranchOp(m: Mnemonic)
  {
    IsBranch(m) || m.BBRN? || m.BBSN?
  }

  predicate IsStackOp(m: Mnemonic)
  {
    m.PHA? || m.PHP? || m.PHX? || m.PHY? || m.PLA? || m.PLP? || m.PLX? || m.PLY?
  }

  predicate IsControlOp(m: Mnemonic)
  {
    m.BRK? || m.JMP? || m.JSR? || m.RTI? || m.RTS? || m.STP? || m.WAI?
  }

  /** Every mnemonic falls into exactly the group its predicate names. */
  function GroupOf(mnemonic: Mnemonic): (g: OpGroup)
    ensures g == Alu ==> IsAluOp(mnemonic)
    ensures g == LoadStore ==> IsLoadStoreOp(mnemonic)
    ensures g == Modify ==> IsModifyOp(mnemonic)
    ensures g == RegisterOps ==> IsRegisterOp(mnemonic)
    ensures g == FlagOps ==> IsFlagOp(mnemonic)
    ensures g == BranchOps ==> IsBranchOp(mnemonic)
    ensures g == StackOps ==> IsStackOp(mnemonic)
    ensures g == ControlOps ==> IsControlOp(mnemonic)
  {
    match mnemonic
    case ADC => Alu
    case SBC => Alu
    case AND => Alu
    case ORA => Alu
    case EOR => Alu
    case CMP => Alu
    case CPX => Alu
    case CPY => Alu
    case BIT => Alu
    case LDA => LoadStore
    case LDX => LoadStore
    case LDY => LoadStore
    case STA => LoadStore
    case STX => LoadStore
    case STY => LoadStore
    case STZ => LoadStore
    case ASL => Modify
    case LSR => Modify
    case ROL => Modify
    case ROR => Modify
    case INC => Modify
    case DEC => Modify
    case RMBN(_) => Modify
    case SMBN(_) => Modify
    case TRB => Modify
    case TSB => Modify
    case INX => RegisterOps
    case INY => RegisterOps
    case DEX => RegisterOps
    case DEY => RegisterOps
    case TAX => RegisterOps
    case TAY => RegisterOps
    case TSX => RegisterOps
    case TXA => RegisterOps
    case TXS => RegisterOps
    case TYA => RegisterOps
    case CLC => FlagOps
    case CLD => FlagOps
    case CLI => FlagOps
    case CLV => FlagOps
    case SEC => FlagOps
    case SED => FlagOps
    case SEI => FlagOps
    case NOP => FlagOps
    case BCC => BranchOps
    case BCS => BranchOps
    case BEQ => BranchOps
    case BMI => BranchOps
    case BNE => BranchOps
    case BPL => BranchOps
    case BVC => BranchOps
    case BVS => BranchOps
    case BRA => BranchOps
    case BBRN(_) => BranchOps
    case BBSN(_) => BranchOps
    case PHA => StackOps
    case PHP => StackOps
    case PHX => StackOps
    case PHY => StackOps
    case PLA => StackOps
    case PLP => StackOps
    case PLX => StackOps
    case PLY => StackOps
    case BRK => ControlOps
    case JMP => ControlOps
    case JSR => ControlOps
    case RTI => ControlOps
    case RTS => ControlOps
    case STP => ControlOps
    case WAI => ControlOps
  }

  function ExecAlu(mnemonic: Mnemonic, operand: Operand, s: State): Outcome
    requires IsAluOp(mnemonic)
  {
    match mnemonic
    case ADC => ExecArithmetic(ADC, operand, s)
    case SBC => ExecArithmetic(SBC, operand, s)
    case AND => ExecBitwise(AND, operand, s)
    case ORA => ExecBitwise(ORA, operand, s)
    case EOR => ExecBitwise(EOR, operand, s)
    case CMP => ExecCompare(A, operand, s)
    case CPX => ExecCompare(X, operand, s)
    case CPY => ExecCompare(Y, operand, s)
    case BIT => ExecBit(operand, s)
  }

  function ExecLoadStore(mnemonic: Mnemonic, operand: Operand, s: State): Outcome
    requires IsLoadStoreOp(mnemonic)
  {
    match mnemonic
    case LDA => ExecLoad(A, operand, s)
    case LDX => ExecLoad(X, operand, s)
    case LDY => ExecLoad(Y, operand, s)
    case STA => ExecStore(STA, operand, s)
    case STX => ExecStore(STX, operand, s)
    case STY => ExecStore(STY, operand, s)
    case STZ => ExecStore(STZ, operand, s)
  }

  function ExecRegister(mnemonic: Mnemonic, operand: Operand, s: State): Outcome
    requires IsRegisterOp(mnemonic)
  {
    if IsTransfer(mnemonic) then ExecTransfer(mnemonic, s)
    else match mnemonic
      case INX => ExecStepRegister(X, true, s)
      case INY => ExecStepRegister(Y, true, s)
      case DEX => ExecStepRegister(X, false, s)
      case DEY => ExecStepRegister(Y, false, s)
  }

  function ExecFlagGroup(mnemonic: Mnemonic, operand: Operand, s: State): Outcome
    requires IsFlagOp(mnemonic)
  {
    match mnemonic
    case CLC => ExecFlag(C, false, s)
    case CLD => ExecFlag(D, false, s)
    case CLI => ExecFlag(I, false, s)
    case CLV => ExecFlag(V, false, s)
    case SEC => ExecFlag(C, true, s)
    case SED => ExecFlag(D, true, s)
    case SEI => ExecFlag(I, true, s)
    case NOP => Done(s)
  }

  function ExecBranchGroup(mnemonic: Mnemonic, operand: Operand, s: State): Outcome
    requires IsBranchOp(mnemonic)
  {
    if IsBranch(mnemonic) then ExecBranch(mnemonic, operand, s)
    else ExecBranchOnBit(mnemonic, operand, s)
  }

  function ExecStack(mnemonic: Mnemonic, operand: Operand, s: State): Outcome
    requires IsStackOp(mnemonic)
  {
    match mnemonic
    case PHA => ExecPush(PHA, s)
    case PHP => ExecPush(PHP, s)
    case PHX => ExecPush(PHX, s)
    case PHY => ExecPush(PHY, s)
    case PLA => ExecPull(PLA, s)
    case PLP => ExecPull(PLP, s)
    case PLX => ExecPull(PLX, s)
    case PLY => ExecPull(PLY, s)
  }

  function ExecControl(mnemonic: Mnemonic, operand: Operand, s: State): Outcome
    requires IsControlOp(mnemonic)
  {
    match mnemonic
    case BRK => ExecBrk(s)
    case JMP => ExecJmp(operand, s)
    case JSR => ExecJsr(operand, s)
    case RTI => ExecRti(s)
    case RTS => ExecRts(s)
    case STP => Panicked(Unimplemented(STP))
    case WAI => Panicked(Unimplemented(WAI))
  }

  /** The operation body selected by a mnemonic (the `exec` field of a table entry),
      reached through the group the mnemonic belongs to. */
  function Exec(mnemonic: Mnemonic, operand: Operand, s: State): Outcome
  {
    match GroupOf(mnemonic)
    case Alu => ExecAlu(mnemonic, operand, s)
    case LoadStore => ExecLoadStore(mnemonic, operand, s)
    case Modify => ExecReadModifyWrite(mnemonic, operand, s)
    case RegisterOps => ExecRegister(mnemonic, operand, s)
    case FlagOps => ExecFlagGroup(mnemonic, operand, s)
    case BranchOps => ExecBranchGroup(mnemonic, operand, s)
    case StackOps => ExecStack(mnemonic, operand, s)
    case ControlOps => ExecControl(mnemonic, operand, s)
  }

  /** One instruction: fetch the opcode, look it up in `table`, resolve the operand, execute. */
  function Step(table: Table, s: State): StepResult
  {
    var (opcode, r1) := FetchU8(s.regs, s.mem);
    match Lookup(table, opcode)
    case None => StepFailed(InvalidOpcode(opcode), WithRegs(s, r1))
    case Some(op) =>
      var (operand, r2) := ResolveOperand(op.mode, r1, s.mem);
      match Exec(op.mnemonic, operand, State(r2, s.mem))
      case Done(next) => Stepped(op.mnemonic, next)
      case Failed(e, next) => StepFailed(e, next)
      case Panicked(why) => StepPanicked(why)
  }
}
