/**
 * The W65C02S processor (src/cpu/w65c02s.rs) as an object whose registers are updated
 * in place while it talks to the machine bus. Every method is proved to compute the
 * matching function of module Semantics.
 */
module Cpu {
  import opened Prelude
  import opened Isa
  import opened Semantics
  import Bus

  /** How an operation body ends: `Ok(())`, `Err(e)`, or an abort of the emulator. */
  datatype ExecResult = Finished | Raised(error: CpuError) | Aborted(reason: Panic)

  /** How `step` ends: `Ok(mnemonic)`, `Err(e)`, or an abort of the emulator. */
  datatype StepReport = StepOk(mnemonic: Mnemonic) | StepErr(error: CpuError) | StepAbort(reason: Panic)

  /** An imperative result and the state after it agree with the reference outcome.
      After an abort the emulator is gone, so the state is not constrained. */
  ghost predicate Reflects(spec: Outcome, r: ExecResult, after: State)
  {
    && (spec.Done? ==> r == Finished && after == spec.s)
    && (spec.Failed? ==> r == Raised(spec.error) && after == spec.s)
    && (spec.Panicked? ==> r == Aborted(spec.reason))
  }

  ghost predicate StepReflects(spec: StepResult, r: StepReport, after: State)
  {
    match spec
    case Stepped(mnemonic, s) => r == StepOk(mnemonic) && after == s
    case StepFailed(e, s) => r == StepErr(e) && after == s
    case StepPanicked(why) => r == StepAbort(why)
  }

  /** `read_u16`: a little-endian word read through the bus, high byte at `address + 1`. */
  method BusReadU16(bus: Bus.Machine, address: Word) returns (w: Word)
    requires bus.Valid()
    ensures w == Semantics.ReadU16(bus.View(), address)
  {
    var low := bus.Read(address);
    var high := bus.Read(address + 1);
    w := Join(low, high);
  }

  /** The two-byte pointer read of the `(zp)` modes: the high byte comes from `zp + 1`
      wrapped within page zero. */
  method ReadZeroPagePointer(bus: Bus.Machine, zp: Byte) returns (w: Word)
    requires bus.Valid()
    ensures w == ZeroPagePointer(bus.View(), zp)
  {
    var low := bus.Read(zp as Word);
    var high := bus.Read((zp + 1) as Word);
    w := Join(low, high);
  }

  /** Addressing modes whose operand begins with a 16-bit fetch. */
  predicate IsAbsoluteMode(mode: AddressingMode)
  {
    mode.Absolute? || mode.AbsoluteIndexedIndirect? || mode.AbsoluteIndexedX?
    || mode.AbsoluteIndexedY? || mode.AbsoluteIndirect?
  }

  /** Addressing modes whose operand is a zero-page address. */
  predicate IsZeroPageMode(mode: AddressingMode)
  {
    mode.ZeroPage? || mode.ZeroPageIndexedX? || mode.ZeroPageIndexedY? || mode.ZeroPageRelative?
  }

  /** Addressing modes that read a pointer from page zero. */
  predicate IsZeroPageIndirectMode(mode: AddressingMode)
  {
    mode.ZeroPageIndexedIndirect? || mode.ZeroPageIndirect? || mode.ZeroPageIndirectIndexedY?
  }

  predicate IsDataGroup(g: OpGroup)
  {
    g.Alu? || g.LoadStore? || g.Modify? || g.RegisterOps?
  }

  predicate IsFlowGroup(g: OpGroup)
  {
    g.FlagOps? || g.BranchOps? || g.StackOps? || g.ControlOps?
  }

  class W65C02S {
    var pc: Word
    var a: Byte
    var x: Byte
    var y: Byte
    var sp: Byte
    var p: Byte

    /** `W65C02S::default()`: every register zero. */
    constructor ()
      ensures Registers() == Regs(0, 0, 0, 0, 0, 0)
    {
      pc, a, x, y, sp, p := 0, 0, 0, 0, 0, 0;
    }

    ghost function Registers(): Regs
      reads this
    {
      Regs(pc, a, x, y, sp, p)
    }

    /** The processor attached to a well-formed bus that it is not part of (in the source
        the processor and the bus are separate borrows). */
    ghost predicate Ready(bus: Bus.Machine)
      reads this, bus, bus.Repr
    {
      bus.Valid() && this !in bus.Repr
    }

    /** Registers plus the address space: what the reference semantics acts on. */
    ghost function Snapshot(bus: Bus.Machine): State
      requires bus.Valid()
      reads this, bus, bus.Repr
    {
      State(Registers(), bus.View())
    }

    // ------------------------------------------------------------ status register

    predicate StatusCheck(flag: Status)
      reads this
    {
      Check(p, flag)
    }

    /** `status_set`: the bit arithmetic is `SetFlag`'s. */
    method StatusSet(flag: Status, val: bool)
      modifies this
      ensures p == SetFlag(old(p), flag, val)
      ensures pc == old(pc) && a == old(a) && x == old(x) && y == old(y) && sp == old(sp)
    {
      p := SetFlag(p, flag, val);
    }

    /** `status_update_zn`: Z and N from a result byte. */
    method StatusUpdateZN(val: Byte)
      modifies this
      ensures p == UpdateZN(old(p), val)
      ensures pc == old(pc) && a == old(a) && x == old(x) && y == old(y) && sp == old(sp)
    {
      StatusSet(Z, val == 0);
      StatusSet(N, (val >> 7) > 0);
    }

    method SetPDefault()
      modifies this
      ensures p == P_DEFAULT
      ensures pc == old(pc) && a == old(a) && x == old(x) && y == old(y) && sp == old(sp)
    {
      p := 0x34;
    }

    // ------------------------------------------------------------ arithmetic of the operation bodies

    /** The register part of `op_adc`: 16-bit sum with carry, then C, V, Z, N, then A. */
    method AddToAccumulator(val: Byte)
      modifies this
      ensures (a, p) == AddWithCarry(old(a), val, old(p))
      ensures pc == old(pc) && x == old(x) && y == old(y) && sp == old(sp)
    {
      ghost var spec := AddWithCarry(a, val, p);
      var sum := WideSum(a, val, p);
      var result := Lo(sum);
      assert result == spec.0;
      StatusSet(C, sum > 0xFF);
      var overflow := (!(a ^ val) & (a ^ result)) & 0x80 != 0;
      StatusSet(V, overflow);
      StatusUpdateZN(result);
      a := result;
    }

    /** The register part of `op_sbc`: `A + !M + C` in 16 bits, then C, V, Z, N, then A. */
    method SubtractFromAccumulator(val: Byte)
      modifies this
      ensures (a, p) == SubtractWithBorrow(old(a), val, old(p))
      ensures pc == old(pc) && x == old(x) && y == old(y) && sp == old(sp)
    {
      ghost var spec := SubtractWithBorrow(a, val, p);
      var diff := WideSum(a, !val, p);
      var result := Lo(diff);
      assert result == spec.0;
      StatusSet(C, diff > 0xFF);
      StatusSet(V, ((result ^ a) & (a ^ val) & 0x80) != 0);
      StatusUpdateZN(result);
      a := result;
    }

    /** The register part of `op_cmp`, `op_cpx` and `op_cpy`. */
    method CompareWith(reg: Byte, val: Byte)
      modifies this
      ensures p == CompareFlags(reg, val, old(p))
      ensures pc == old(pc) && a == old(a) && x == old(x) && y == old(y) && sp == old(sp)
    {
      var result := reg - val;
      StatusSet(C, reg >= val);
      StatusUpdateZN(result);
    }

    /** The register part of `op_bit`. */
    method TestBits(val: Byte, immediate: bool)
      modifies this
      ensures p == BitStatus(old(p), old(a), val, immediate)
      ensures pc == old(pc) && a == old(a) && x == old(x) && y == old(y) && sp == old(sp)
    {
      StatusSet(Z, a & val == 0);
      if !immediate {
        StatusSet(N, (val >> 7) > 0);
        StatusSet(V, val & 0x40 > 0);
      }
    }

    /** The value and flag part of `op_asl`. */
    method ShiftLeft(val: Byte) returns (result: Byte)
      modifies this
      ensures (result, p) == ModifyResult(ASL, val, old(Registers()))
      ensures pc == old(pc) && a == old(a) && x == old(x) && y == old(y) && sp == old(sp)
    {
      result := val << 1;
      StatusSet(C, val & 0x80 > 0);
      StatusUpdateZN(result);
    }

    /** The value and flag part of `op_lsr`. */
    method ShiftRight(val: Byte) returns (result: Byte)
      modifies this
      ensures (result, p) == ModifyResult(LSR, val, old(Registers()))
      ensures pc == old(pc) && a == old(a) && x == old(x) && y == old(y) && sp == old(sp)
    {
      result := val >> 1;
      StatusSet(C, val & 1 > 0);
      StatusUpdateZN(result);
    }

    /** The value and flag part of `op_rol`: the old C enters bit 0. */
    method RotateLeft(val: Byte) returns (result: Byte)
      modifies this
      ensures (result, p) == ModifyResult(ROL, val, old(Registers()))
      ensures pc == old(pc) && a == old(a) && x == old(x) && y == old(y) && sp == old(sp)
    {
      var c := (val >> 7) > 0;
      result := (val << 1) | CarryBit(p);
      StatusSet(C, c);
      StatusUpdateZN(result);
    }

    /** The value and flag part of `op_ror`: the old C enters bit 7. */
    method RotateRight(val: Byte) returns (result: Byte)
      modifies this
      ensures (result, p) == ModifyResult(ROR, val, old(Registers()))
      ensures pc == old(pc) && a == old(a) && x == old(x) && y == old(y) && sp == old(sp)
    {
      var c := val & 1 > 0;
      result := (val >> 1) | (CarryBit(p) << 7);
      StatusSet(C, c);
      StatusUpdateZN(result);
    }

    /** The value and flag part of `op_inc`. */
    method Increment(val: Byte) returns (result: Byte)
      modifies this
      ensures (result, p) == ModifyResult(INC, val, old(Registers()))
      ensures pc == old(pc) && a == old(a) && x == old(x) && y == old(y) && sp == old(sp)
    {
      result := val + 1;
      StatusUpdateZN(result);
    }

    /** The value and flag part of `op_dec`. */
    method Decrement(val: Byte) returns (result: Byte)
      modifies this
      ensures (result, p) == ModifyResult(DEC, val, old(Registers()))
      ensures pc == old(pc) && a == old(a) && x == old(x) && y == old(y) && sp == old(sp)
    {
      result := val - 1;
      StatusUpdateZN(result);
    }

    /** The value and flag part of `op_trb`. */
    method TestAndReset(val: Byte) returns (result: Byte)
      modifies this
      ensures (result, p) == ModifyResult(TRB, val, old(Registers()))
      ensures pc == old(pc) && a == old(a) && x == old(x) && y == old(y) && sp == old(sp)
    {
      result := val & !a;
      StatusSet(Z, NoCommonBits(val, a));
    }

    /** The value and flag part of `op_tsb`. */
    method TestAndSet(val: Byte) returns (result: Byte)
      modifies this
      ensures (result, p) == ModifyResult(TSB, val, old(Registers()))
      ensures pc == old(pc) && a == old(a) && x == old(x) && y == old(y) && sp == old(sp)
    {
      result := val | a;
      StatusSet(Z, NoCommonBits(val, a));
    }

    // ------------------------------------------------------------ fetch and stack

    method FetchU8(bus: Bus.Machine) returns (v: Byte)
      requires bus.Valid()
      modifies this
      ensures v == Semantics.FetchU8(old(Registers()), bus.View()).0
      ensures Registers() == Semantics.FetchU8(old(Registers()), bus.View()).1
    {
      v := bus.Read(pc);
      pc := pc + 1;
    }

    method FetchU16(bus: Bus.Machine) returns (w: Word)
      requires bus.Valid()
      modifies this
      ensures w == Semantics.FetchU16(old(Registers()), bus.View()).0
      ensures Registers() == Semantics.FetchU16(old(Registers()), bus.View()).1
    {
      var low := FetchU8(bus);
      var high := FetchU8(bus);
      w := Join(low, high);
    }

    method StackPushU8(bus: Bus.Machine, val: Byte)
      requires Ready(bus)
      modifies this, bus.ram, bus.ram.Repr
      ensures Ready(bus)
      ensures Registers() == StackPush(old(Registers()), old(bus.View()), val).0
      ensures bus.View() == StackPush(old(Registers()), old(bus.View()), val).1
    {
      var written := bus.Write(StackAddress(sp), val);
      sp := sp - 1;
    }

    /** The two pushes JSR and BRK share: high byte, then low byte. */
    method StackPushReturnAddress(bus: Bus.Machine, returnAddress: Word)
      requires Ready(bus)
      modifies this, bus.ram, bus.ram.Repr
      ensures Ready(bus)
      ensures (Registers(), bus.View()) == PushReturnAddress(old(Registers()), old(bus.View()), returnAddress)
    {
      StackPushU8(bus, Hi(returnAddress));
      StackPushU8(bus, Lo(returnAddress));
    }

    method StackPushBreakFrame(bus: Bus.Machine)
      requires Ready(bus)
      modifies this, bus.ram, bus.ram.Repr
      ensures Ready(bus)
      ensures (Registers(), bus.View()) == PushBreakFrame(old(Registers()), old(bus.View()))
    {
      // Naming the specification value once, before any field changes, keeps the proof cheap.
      ghost var frame := PushBreakFrame(Registers(), bus.View());
      StackPushReturnAddress(bus, pc + 1);
      StackPushU8(bus, p | 0x10);
    }

    method StackPullU8(bus: Bus.Machine) returns (v: Byte)
      requires bus.Valid()
      modifies this
      ensures v == StackPull(old(Registers()), bus.View()).0
      ensures Registers() == StackPull(old(Registers()), bus.View()).1
    {
      sp := sp + 1;
      v := bus.Read(StackAddress(sp));
    }

    method Reset(bus: Bus.Machine)
      requires bus.Valid()
      modifies this
      ensures Registers() == Semantics.Reset(old(Registers()), bus.View())
    {
      var entry := BusReadU16(bus, RESB_LOW);
      SetPDefault();
      pc := entry;
    }

    // ------------------------------------------------------------ operands

    /** The modes whose operand starts with a 16-bit fetch. */
    method ResolveAbsolute(bus: Bus.Machine, mode: AddressingMode) returns (operand: Operand)
      requires bus.Valid() && IsAbsoluteMode(mode)
      modifies this
      ensures operand == Semantics.ResolveOperand(mode, old(Registers()), bus.View()).0
      ensures Registers() == Semantics.ResolveOperand(mode, old(Registers()), bus.View()).1
    {
      match mode
      case Absolute =>
        var address := FetchU16(bus);
        operand := Address(address);
      case AbsoluteIndexedIndirect =>
        var base := FetchU16(bus);
        var target := BusReadU16(bus, Indexed(base, x));
        operand := Address(target);
      case AbsoluteIndexedX =>
        var base := FetchU16(bus);
        operand := Address(Indexed(base, x));
      case AbsoluteIndexedY =>
        var base := FetchU16(bus);
        operand := Address(Indexed(base, y));
      case AbsoluteIndirect =>
        var ptr := FetchU16(bus);
        var target := BusReadU16(bus, ptr);
        operand := Address(target);
      case _ => assert false;
    }

    /** The modes whose operand is a zero-page byte itself. */
    method ResolveZeroPage(bus: Bus.Machine, mode: AddressingMode) returns (operand: Operand)
      requires bus.Valid() && IsZeroPageMode(mode)
      modifies this
      ensures operand == Semantics.ResolveOperand(mode, old(Registers()), bus.View()).0
      ensures Registers() == Semantics.ResolveOperand(mode, old(Registers()), bus.View()).1
    {
      match mode
      case ZeroPage =>
        var zp := FetchU8(bus);
        operand := Address(zp as Word);
      case ZeroPageIndexedX =>
        var base := FetchU8(bus);
        operand := Address(ZeroPageIndexed(base, x) as Word);
      case ZeroPageIndexedY =>
        var base := FetchU8(bus);
        operand := Address(ZeroPageIndexed(base, y) as Word);
      case ZeroPageRelative =>
        var zp := FetchU8(bus);
        var offset := FetchU8(bus);
        operand := ZpAddrRelative(zp, offset);
      case _ => assert false;
    }

    /** The modes that read a pointer from page zero. */
    method ResolveZeroPageIndirect(bus: Bus.Machine, mode: AddressingMode) returns (operand: Operand)
      requires bus.Valid() && IsZeroPageIndirectMode(mode)
      modifies this
      ensures operand == Semantics.ResolveOperand(mode, old(Registers()), bus.View()).0
      ensures Registers() == Semantics.ResolveOperand(mode, old(Registers()), bus.View()).1
    {
      match mode
      case ZeroPageIndexedIndirect =>
        var base := FetchU8(bus);
        var target := ReadZeroPagePointer(bus, ZeroPageIndexed(base, x));
        operand := Address(target);
      case ZeroPageIndirect =>
        var zp := FetchU8(bus);
        var target := ReadZeroPagePointer(bus, zp);
        operand := Address(target);
      case ZeroPageIndirectIndexedY =>
        var zp := FetchU8(bus);
        var base := ReadZeroPagePointer(bus, zp);
        operand := Address(Indexed(base, y));
      case _ => assert false;
    }

    /** `resolve_operand`: fetch the operand bytes of `mode` and say what they designate. */
    method ResolveOperand(bus: Bus.Machine, mode: AddressingMode) returns (operand: Operand)
      requires bus.Valid()
      modifies this
      ensures operand == Semantics.ResolveOperand(mode, old(Registers()), bus.View()).0
      ensures Registers() == Semantics.ResolveOperand(mode, old(Registers()), bus.View()).1
    {
      if IsAbsoluteMode(mode) {
        operand := ResolveAbsolute(bus, mode);
      } else if IsZeroPageMode(mode) {
        operand := ResolveZeroPage(bus, mode);
      } else if IsZeroPageIndirectMode(mode) {
        operand := ResolveZeroPageIndirect(bus, mode);
      } else {
        match mode
        case Accumulator =>
          operand := Operand.Accumulator;
        case Immediate =>
          var v := FetchU8(bus);
          operand := Value(v);
        case Implied =>
          operand := Operand.Implied;
        case ProgramCounterRelative =>
          var offset := FetchU8(bus);
          operand := Relative(offset);
        case Stack =>
          operand := Operand.Implied;
        case _ => assert false;
      }
    }

    /** `Operand::read`. */
    method OperandRead(bus: Bus.Machine, operand: Operand) returns (r: Result<Byte, CpuError>)
      requires bus.Valid()
      ensures r == ReadOperand(operand, Registers(), bus.View())
    {
      match operand
      case Value(v) =>
        r := Ok(v);
      case Address(address) =>
        var v := bus.Read(address);
        r := Ok(v);
      case Accumulator =>
        r := Ok(a);
      case ZpAddrRelative(zp, _) =>
        var v := bus.Read(zp as Word);
        r := Ok(v);
      case _ =>
        r := Err(InvalidOperand(operand));
    }

    /** `Operand::write`; a write into ROM aborts. */
    method OperandWrite(bus: Bus.Machine, operand: Operand, val: Byte) returns (r: ExecResult)
      requires Ready(bus)
      modifies this, bus.ram, bus.ram.Repr
      ensures Ready(bus)
      ensures Reflects(WriteOperand(operand, val, old(Snapshot(bus))), r, Snapshot(bus))
    {
      match operand
      case Address(address) =>
        var written := bus.Write(address, val);
        r := if written == Bus.Written then Finished else Aborted(RomWrite(address));
      case Accumulator =>
        a := val;
        r := Finished;
      case _ =>
        r := Raised(InvalidOperand(operand));
    }
    // ------------------------------------------------------------ operation bodies

    method OpAdc(bus: Bus.Machine, operand: Operand) returns (r: ExecResult)
      requires Ready(bus)
      modifies this
      ensures Reflects(ExecArithmetic(ADC, operand, old(Snapshot(bus))), r, Snapshot(bus))
    {
      var read := OperandRead(bus, operand);
      match read
      case Err(e) =>
        r := Raised(e);
      case Ok(val) =>
        AddToAccumulator(val);
        r := Finished;
    }

    method OpSbc(bus: Bus.Machine, operand: Operand) returns (r: ExecResult)
      requires Ready(bus)
      modifies this
      ensures Reflects(ExecArithmetic(SBC, operand, old(Snapshot(bus))), r, Snapshot(bus))
    {
      var read := OperandRead(bus, operand);
      match read
      case Err(e) =>
        r := Raised(e);
      case Ok(val) =>
        SubtractFromAccumulator(val);
        r := Finished;
    }

    method OpAnd(bus: Bus.Machine, operand: Operand) returns (r: ExecResult)
      requires Ready(bus)
      modifies this
      ensures Reflects(ExecBitwise(AND, operand, old(Snapshot(bus))), r, Snapshot(bus))
    {
      var read := OperandRead(bus, operand);
      match read
      case Err(e) =>
        r := Raised(e);
      case Ok(val) =>
        var result := Bitwise(AND, a, val);
        StatusUpdateZN(result);
        a := result;
        r := Finished;
    }

    method OpOra(bus: Bus.Machine, operand: Operand) returns (r: ExecResult)
      requires Ready(bus)
      modifies this
      ensures Reflects(ExecBitwise(ORA, operand, old(Snapshot(bus))), r, Snapshot(bus))
    {
      var read := OperandRead(bus, operand);
      match read
      case Err(e) =>
        r := Raised(e);
      case Ok(val) =>
        var result := Bitwise(ORA, a, val);
        StatusUpdateZN(result);
        a := result;
        r := Finished;
    }

    method OpEor(bus: Bus.Machine, operand: Operand) returns (r: ExecResult)
      requires Ready(bus)
      modifies this
      ensures Reflects(ExecBitwise(EOR, operand, old(Snapshot(bus))), r, Snapshot(bus))
    {
      var read := OperandRead(bus, operand);
      match read
      case Err(e) =>
        r := Raised(e);
      case Ok(val) =>
        var result := Bitwise(EOR, a, val);
        StatusUpdateZN(result);
        a := result;
        r := Finished;
    }

    method OpCmp(bus: Bus.Machine, operand: Operand) returns (r: ExecResult)
      requires Ready(bus)
      modifies this
      ensures Reflects(ExecCompare(A, operand, old(Snapshot(bus))), r, Snapshot(bus))
    {
      var read := OperandRead(bus, operand);
      match read
      case Err(e) =>
        r := Raised(e);
      case Ok(val) =>
        CompareWith(a, val);
        r := Finished;
    }

    method OpCpx(bus: Bus.Machine, operand: Operand) returns (r: ExecResult)
      requires Ready(bus)
      modifies this
      ensures Reflects(ExecCompare(X, operand, old(Snapshot(bus))), r, Snapshot(bus))
    {
      var read := OperandRead(bus, operand);
      match read
      case Err(e) =>
        r := Raised(e);
      case Ok(val) =>
        CompareWith(x, val);
        r := Finished;
    }

    method OpCpy(bus: Bus.Machine, operand: Operand) returns (r: ExecResult)
      requires Ready(bus)
      modifies this
      ensures Reflects(ExecCompare(Y, operand, old(Snapshot(bus))), r, Snapshot(bus))
    {
      var read := OperandRead(bus, operand);
      match read
      case Err(e) =>
        r := Raised(e);
      case Ok(val) =>
        CompareWith(y, val);
        r := Finished;
    }

    method OpBit(bus: Bus.Machine, operand: Operand) returns (r: ExecResult)
      requires Ready(bus)
      modifies this
      ensures Reflects(ExecBit(operand, old(Snapshot(bus))), r, Snapshot(bus))
    {
      var read := OperandRead(bus, operand);
      match read
      case Err(e) =>
        r := Raised(e);
      case Ok(val) =>
        TestBits(val, operand.Value?);
        r := Finished;
    }

    method OpAsl(bus: Bus.Machine, operand: Operand) returns (r: ExecResult)
      requires Ready(bus)
      modifies this, bus.ram, bus.ram.Repr
      ensures Ready(bus)
      ensures Reflects(ExecReadModifyWrite(ASL, operand, old(Snapshot(bus))), r, Snapshot(bus))
    {
      var read := OperandRead(bus, operand);
      match read
      case Err(e) =>
        r := Raised(e);
      case Ok(val) =>
        var result := ShiftLeft(val);
        r := OperandWrite(bus, operand, result);
    }

    method OpLsr(bus: Bus.Machine, operand: Operand) returns (r: ExecResult)
      requires Ready(bus)
      modifies this, bus.ram, bus.ram.Repr
      ensures Ready(bus)
      ensures Reflects(ExecReadModifyWrite(LSR, operand, old(Snapshot(bus))), r, Snapshot(bus))
    {
      var read := OperandRead(bus, operand);
      match read
      case Err(e) =>
        r := Raised(e);
      case Ok(val) =>
        var result := ShiftRight(val);
        r := OperandWrite(bus, operand, result);
    }

    method OpRol(bus: Bus.Machine, operand: Operand) returns (r: ExecResult)
      requires Ready(bus)
      modifies this, bus.ram, bus.ram.Repr
      ensures Ready(bus)
      ensures Reflects(ExecReadModifyWrite(ROL, operand, old(Snapshot(bus))), r, Snapshot(bus))
    {
      var read := OperandRead(bus, operand);
      match read
      case Err(e) =>
        r := Raised(e);
      case Ok(val) =>
        var result := RotateLeft(val);
        r := OperandWrite(bus, operand, result);
    }

    method OpRor(bus: Bus.Machine, operand: Operand) returns (r: ExecResult)
      requires Ready(bus)
      modifies this, bus.ram, bus.ram.Repr
      ensures Ready(bus)
      ensures Reflects(ExecReadModifyWrite(ROR, operand, old(Snapshot(bus))), r, Snapshot(bus))
    {
      var read := OperandRead(bus, operand);
      match read
      case Err(e) =>
        r := Raised(e);
      case Ok(val) =>
        var result := RotateRight(val);
        r := OperandWrite(bus, operand, result);
    }

    method OpTrb(bus: Bus.Machine, operand: Operand) returns (r: ExecResult)
      requires Ready(bus)
      modifies this, bus.ram, bus.ram.Repr
      ensures Ready(bus)
      ensures Reflects(ExecReadModifyWrite(TRB, operand, old(Snapshot(bus))), r, Snapshot(bus))
    {
      var read := OperandRead(bus, operand);
      match read
      case Err(e) =>
        r := Raised(e);
      case Ok(val) =>
        var result := TestAndReset(val);
        r := OperandWrite(bus, operand, result);
    }

    method OpTsb(bus: Bus.Machine, operand: Operand) returns (r: ExecResult)
      requires Ready(bus)
      modifies this, bus.ram, bus.ram.Repr
      ensures Ready(bus)
      ensures Reflects(ExecReadModifyWrite(TSB, operand, old(Snapshot(bus))), r, Snapshot(bus))
    {
      var read := OperandRead(bus, operand);
      match read
      case Err(e) =>
        r := Raised(e);
      case Ok(val) =>
        var result := TestAndSet(val);
        r := OperandWrite(bus, operand, result);
    }

    method OpInc(bus: Bus.Machine, operand: Operand) returns (r: ExecResult)
      requires Ready(bus)
      modifies this, bus.ram, bus.ram.Repr
      ensures Ready(bus)
      ensures Reflects(ExecReadModifyWrite(INC, operand, old(Snapshot(bus))), r, Snapshot(bus))
    {
      var read := OperandRead(bus, operand);
      match read
      case Err(e) =>
        r := Raised(e);
      case Ok(val) =>
        var result := Increment(val);
        r := OperandWrite(bus, operand, result);
    }

    method OpDec(bus: Bus.Machine, operand: Operand) returns (r: ExecResult)
      requires Ready(bus)
      modifies this, bus.ram, bus.ram.Repr
      ensures Ready(bus)
      ensures Reflects(ExecReadModifyWrite(DEC, operand, old(Snapshot(bus))), r, Snapshot(bus))
    {
      var read := OperandRead(bus, operand);
      match read
      case Err(e) =>
        r := Raised(e);
      case Ok(val) =>
        var result := Decrement(val);
        r := OperandWrite(bus, operand, result);
    }

    method OpRmbN(bus: Bus.Machine, operand: Operand, n: BitIndex) returns (r: ExecResult)
      requires Ready(bus)
      modifies this, bus.ram, bus.ram.Repr
      ensures Ready(bus)
      ensures Reflects(ExecReadModifyWrite(RMBN(n), operand, old(Snapshot(bus))), r, Snapshot(bus))
    {
      var read := OperandRead(bus, operand);
      match read
      case Err(e) =>
        r := Raised(e);
      case Ok(val) =>
        r := OperandWrite(bus, operand, ClearBit(val, n));
    }

    method OpSmbN(bus: Bus.Machine, operand: Operand, n: BitIndex) returns (r: ExecResult)
      requires Ready(bus)
      modifies this, bus.ram, bus.ram.Repr
      ensures Ready(bus)
      ensures Reflects(ExecReadModifyWrite(SMBN(n), operand, old(Snapshot(bus))), r, Snapshot(bus))
    {
      var read := OperandRead(bus, operand);
      match read
      case Err(e) =>
        r := Raised(e);
      case Ok(val) =>
        r := OperandWrite(bus, operand, SetBit(val, n));
    }

    method OpLda(bus: Bus.Machine, operand: Operand) returns (r: ExecResult)
      requires Ready(bus)
      modifies this
      ensures Reflects(ExecLoad(A, operand, old(Snapshot(bus))), r, Snapshot(bus))
    {
      var read := OperandRead(bus, operand);
      match read
      case Err(e) =>
        r := Raised(e);
      case Ok(val) =>
        a := val;
        StatusUpdateZN(a);
        r := Finished;
    }

    method OpLdx(bus: Bus.Machine, operand: Operand) returns (r: ExecResult)
      requires Ready(bus)
      modifies this
      ensures Reflects(ExecLoad(X, operand, old(Snapshot(bus))), r, Snapshot(bus))
    {
      var read := OperandRead(bus, operand);
      match read
      case Err(e) =>
        r := Raised(e);
      case Ok(val) =>
        x := val;
        StatusUpdateZN(x);
        r := Finished;
    }

    method OpLdy(bus: Bus.Machine, operand: Operand) returns (r: ExecResult)
      requires Ready(bus)
      modifies this
      ensures Reflects(ExecLoad(Y, operand, old(Snapshot(bus))), r, Snapshot(bus))
    {
      var read := OperandRead(bus, operand);
      match read
      case Err(e) =>
        r := Raised(e);
      case Ok(val) =>
        y := val;
        StatusUpdateZN(y);
        r := Finished;
    }

    method OpSta(bus: Bus.Machine, operand: Operand) returns (r: ExecResult)
      requires Ready(bus)
      modifies this, bus.ram, bus.ram.Repr
      ensures Ready(bus)
      ensures Reflects(ExecStore(STA, operand, old(Snapshot(bus))), r, Snapshot(bus))
    {
      r := OperandWrite(bus, operand, a);
    }

    method OpStx(bus: Bus.Machine, operand: Operand) returns (r: ExecResult)
      requires Ready(bus)
      modifies this, bus.ram, bus.ram.Repr
      ensures Ready(bus)
      ensures Reflects(ExecStore(STX, operand, old(Snapshot(bus))), r, Snapshot(bus))
    {
      r := OperandWrite(bus, operand, x);
    }

    method OpSty(bus: Bus.Machine, operand: Operand) returns (r: ExecResult)
      requires Ready(bus)
      modifies this, bus.ram, bus.ram.Repr
      ensures Ready(bus)
      ensures Reflects(ExecStore(STY, operand, old(Snapshot(bus))), r, Snapshot(bus))
    {
      r := OperandWrite(bus, operand, y);
    }

    method OpStz(bus: Bus.Machine, operand: Operand) returns (r: ExecResult)
      requires Ready(bus)
      modifies this, bus.ram, bus.ram.Repr
      ensures Ready(bus)
      ensures Reflects(ExecStore(STZ, operand, old(Snapshot(bus))), r, Snapshot(bus))
    {
      r := OperandWrite(bus, operand, 0);
    }

    method OpInx(bus: Bus.Machine, operand: Operand) returns (r: ExecResult)
      requires Ready(bus)
      modifies this
      ensures Reflects(ExecStepRegister(X, true, old(Snapshot(bus))), r, Snapshot(bus))
    {
      var result := x + 1;
      StatusUpdateZN(result);
      x := result;
      r := Finished;
    }

    method OpIny(bus: Bus.Machine, operand: Operand) returns (r: ExecResult)
      requires Ready(bus)
      modifies this
      ensures Reflects(ExecStepRegister(Y, true, old(Snapshot(bus))), r, Snapshot(bus))
    {
      var result := y + 1;
      StatusUpdateZN(result);
      y := result;
      r := Finished;
    }

    method OpDex(bus: Bus.Machine, operand: Operand) returns (r: ExecResult)
      requires Ready(bus)
      modifies this
      ensures Reflects(ExecStepRegister(X, false, old(Snapshot(bus))), r, Snapshot(bus))
    {
      var result := x - 1;
      StatusUpdateZN(result);
      x := result;
      r := Finished;
    }

    method OpDey(bus: Bus.Machine, operand: Operand) returns (r: ExecResult)
      requires Ready(bus)
      modifies this
      ensures Reflects(ExecStepRegister(Y, false, old(Snapshot(bus))), r, Snapshot(bus))
    {
      var result := y - 1;
      StatusUpdateZN(result);
      y := result;
      r := Finished;
    }

    method OpTax(bus: Bus.Machine, operand: Operand) returns (r: ExecResult)
      requires Ready(bus)
      modifies this
      ensures Reflects(ExecTransfer(TAX, old(Snapshot(bus))), r, Snapshot(bus))
    {
      x := a;
      StatusUpdateZN(x);
      r := Finished;
    }

    method OpTay(bus: Bus.Machine, operand: Operand) returns (r: ExecResult)
      requires Ready(bus)
      modifies this
      ensures Reflects(ExecTransfer(TAY, old(Snapshot(bus))), r, Snapshot(bus))
    {
      y := a;
      StatusUpdateZN(y);
      r := Finished;
    }

    method OpTsx(bus: Bus.Machine, operand: Operand) returns (r: ExecResult)
      requires Ready(bus)
      modifies this
      ensures Reflects(ExecTransfer(TSX, old(Snapshot(bus))), r, Snapshot(bus))
    {
      x := sp;
      StatusUpdateZN(x);
      r := Finished;
    }

    method OpTxa(bus: Bus.Machine, operand: Operand) returns (r: ExecResult)
      requires Ready(bus)
      modifies this
      ensures Reflects(ExecTransfer(TXA, old(Snapshot(bus))), r, Snapshot(bus))
    {
      a := x;
      StatusUpdateZN(a);
      r := Finished;
    }

    method OpTxs(bus: Bus.Machine, operand: Operand) returns (r: ExecResult)
      requires Ready(bus)
      modifies this
      ensures Reflects(ExecTransfer(TXS, old(Snapshot(bus))), r, Snapshot(bus))
    {
      sp := x;
      r := Finished;
    }

    method OpTya(bus: Bus.Machine, operand: Operand) returns (r: ExecResult)
      requires Ready(bus)
      modifies this
      ensures Reflects(ExecTransfer(TYA, old(Snapshot(bus))), r, Snapshot(bus))
    {
      a := y;
      StatusUpdateZN(a);
      r := Finished;
    }

    method OpClc(bus: Bus.Machine, operand: Operand) returns (r: ExecResult)
      requires Ready(bus)
      modifies this
      ensures Reflects(ExecFlag(C, false, old(Snapshot(bus))), r, Snapshot(bus))
    {
      StatusSet(C, false);
      r := Finished;
    }

    method OpCld(bus: Bus.Machine, operand: Operand) returns (r: ExecResult)
      requires Ready(bus)
      modifies this
      ensures Reflects(ExecFlag(D, false, old(Snapshot(bus))), r, Snapshot(bus))
    {
      StatusSet(D, false);
      r := Finished;
    }

    method OpCli(bus: Bus.Machine, operand: Operand) returns (r: ExecResult)
      requires Ready(bus)
      modifies this
      ensures Reflects(ExecFlag(I, false, old(Snapshot(bus))), r, Snapshot(bus))
    {
      StatusSet(I, false);
      r := Finished;
    }

    method OpClv(bus: Bus.Machine, operand: Operand) returns (r: ExecResult)
      requires Ready(bus)
      modifies this
      ensures Reflects(ExecFlag(V, false, old(Snapshot(bus))), r, Snapshot(bus))
    {
      StatusSet(V, false);
      r := Finished;
    }

    method OpSec(bus: Bus.Machine, operand: Operand) returns (r: ExecResult)
      requires Ready(bus)
      modifies this
      ensures Reflects(ExecFlag(C, true, old(Snapshot(bus))), r, Snapshot(bus))
    {
      StatusSet(C, true);
      r := Finished;
    }

    method OpSed(bus: Bus.Machine, operand: Operand) returns (r: ExecResult)
      requires Ready(bus)
      modifies this
      ensures Reflects(ExecFlag(D, true, old(Snapshot(bus))), r, Snapshot(bus))
    {
      StatusSet(D, true);
      r := Finished;
    }

    method OpSei(bus: Bus.Machine, operand: Operand) returns (r: ExecResult)
      requires Ready(bus)
      modifies this
      ensures Reflects(ExecFlag(I, true, old(Snapshot(bus))), r, Snapshot(bus))
    {
      StatusSet(I, true);
      r := Finished;
    }

    method OpBcc(bus: Bus.Machine, operand: Operand) returns (r: ExecResult)
      requires Ready(bus)
      modifies this
      ensures Reflects(ExecBranch(BCC, operand, old(Snapshot(bus))), r, Snapshot(bus))
    {
      match operand
      case Relative(offset) =>
        if BranchTaken(BCC, p) {
          pc := Branch(pc, offset);
        }
        r := Finished;
      case _ =>
        r := Aborted(Unreachable(BCC));
    }

    method OpBcs(bus: Bus.Machine, operand: Operand) returns (r: ExecResult)
      requires Ready(bus)
      modifies this
      ensures Reflects(ExecBranch(BCS, operand, old(Snapshot(bus))), r, Snapshot(bus))
    {
      match operand
      case Relative(offset) =>
        if BranchTaken(BCS, p) {
          pc := Branch(pc, offset);
        }
        r := Finished;
      case _ =>
        r := Aborted(Unreachable(BCS));
    }

    method OpBeq(bus: Bus.Machine, operand: Operand) returns (r: ExecResult)
      requires Ready(bus)
      modifies this
      ensures Reflects(ExecBranch(BEQ, operand, old(Snapshot(bus))), r, Snapshot(bus))
    {
      match operand
      case Relative(offset) =>
        if BranchTaken(BEQ, p) {
          pc := Branch(pc, offset);
        }
        r := Finished;
      case _ =>
        r := Aborted(Unreachable(BEQ));
    }

    method OpBmi(bus: Bus.Machine, operand: Operand) returns (r: ExecResult)
      requires Ready(bus)
      modifies this
      ensures Reflects(ExecBranch(BMI, operand, old(Snapshot(bus))), r, Snapshot(bus))
    {
      match operand
      case Relative(offset) =>
        if BranchTaken(BMI, p) {
          pc := Branch(pc, offset);
        }
        r := Finished;
      case _ =>
        r := Aborted(Unreachable(BMI));
    }

    method OpBne(bus: Bus.Machine, operand: Operand) returns (r: ExecResult)
      requires Ready(bus)
      modifies this
      ensures Reflects(ExecBranch(BNE, operand, old(Snapshot(bus))), r, Snapshot(bus))
    {
      match operand
      case Relative(offset) =>
        if BranchTaken(BNE, p) {
          pc := Branch(pc, offset);
        }
        r := Finished;
      case _ =>
        r := Aborted(Unreachable(BNE));
    }

    method OpBpl(bus: Bus.Machine, operand: Operand) returns (r: ExecResult)
      requires Ready(bus)
      modifies this
      ensures Reflects(ExecBranch(BPL, operand, old(Snapshot(bus))), r, Snapshot(bus))
    {
      match operand
      case Relative(offset) =>
        if BranchTaken(BPL, p) {
          pc := Branch(pc, offset);
        }
        r := Finished;
      case _ =>
        r := Aborted(Unreachable(BPL));
    }

    method OpBvc(bus: Bus.Machine, operand: Operand) returns (r: ExecResult)
      requires Ready(bus)
      modifies this
      ensures Reflects(ExecBranch(BVC, operand, old(Snapshot(bus))), r, Snapshot(bus))
    {
      match operand
      case Relative(offset) =>
        if BranchTaken(BVC, p) {
          pc := Branch(pc, offset);
        }
        r := Finished;
      case _ =>
        r := Aborted(Unreachable(BVC));
    }

    method OpBvs(bus: Bus.Machine, operand: Operand) returns (r: ExecResult)
      requires Ready(bus)
      modifies this
      ensures Reflects(ExecBranch(BVS, operand, old(Snapshot(bus))), r, Snapshot(bus))
    {
      match operand
      case Relative(offset) =>
        if BranchTaken(BVS, p) {
          pc := Branch(pc, offset);
        }
        r := Finished;
      case _ =>
        r := Aborted(Unreachable(BVS));
    }

    method OpBra(bus: Bus.Machine, operand: Operand) returns (r: ExecResult)
      requires Ready(bus)
      modifies this
      ensures Reflects(ExecBranch(BRA, operand, old(Snapshot(bus))), r, Snapshot(bus))
    {
      match operand
      case Relative(offset) =>
        if BranchTaken(BRA, p) {
          pc := Branch(pc, offset);
        }
        r := Finished;
      case _ =>
        r := Aborted(Unreachable(BRA));
    }

    method OpBbrN(bus: Bus.Machine, operand: Operand, n: BitIndex) returns (r: ExecResult)
      requires Ready(bus)
      modifies this
      ensures Reflects(ExecBranchOnBit(BBRN(n), operand, old(Snapshot(bus))), r, Snapshot(bus))
    {
      // Naming the specification value once, before any field changes, keeps the proof cheap.
      ghost var spec := ExecBranchOnBit(BBRN(n), operand, Snapshot(bus));
      match operand
      case ZpAddrRelative(zp, offset) =>
        var val := bus.Read(zp as Word);
        if !BitIsSet(val, n) {
          pc := Branch(pc, offset);
        }
        r := Finished;
      case _ =>
        r := Aborted(Unreachable(BBRN(n)));
    }

    method OpBbsN(bus: Bus.Machine, operand: Operand, n: BitIndex) returns (r: ExecResult)
      requires Ready(bus)
      modifies this
      ensures Reflects(ExecBranchOnBit(BBSN(n), operand, old(Snapshot(bus))), r, Snapshot(bus))
    {
      // Naming the specification value once, before any field changes, keeps the proof cheap.
      ghost var spec := ExecBranchOnBit(BBSN(n), operand, Snapshot(bus));
      match operand
      case ZpAddrRelative(zp, offset) =>
        var val := bus.Read(zp as Word);
        if BitIsSet(val, n) {
          pc := Branch(pc, offset);
        }
        r := Finished;
      case _ =>
        r := Aborted(Unreachable(BBSN(n)));
    }

    method OpPha(bus: Bus.Machine, operand: Operand) returns (r: ExecResult)
      requires Ready(bus)
      modifies this, bus.ram, bus.ram.Repr
      ensures Ready(bus)
      ensures Reflects(ExecPush(PHA, old(Snapshot(bus))), r, Snapshot(bus))
    {
      StackPushU8(bus, a);
      r := Finished;
    }

    method OpPhp(bus: Bus.Machine, operand: Operand) returns (r: ExecResult)
      requires Ready(bus)
      modifies this, bus.ram, bus.ram.Repr
      ensures Ready(bus)
      ensures Reflects(ExecPush(PHP, old(Snapshot(bus))), r, Snapshot(bus))
    {
      StackPushU8(bus, p | 0x30);
      r := Finished;
    }

    method OpPhx(bus: Bus.Machine, operand: Operand) returns (r: ExecResult)
      requires Ready(bus)
      modifies this, bus.ram, bus.ram.Repr
      ensures Ready(bus)
      ensures Reflects(ExecPush(PHX, old(Snapshot(bus))), r, Snapshot(bus))
    {
      StackPushU8(bus, x);
      r := Finished;
    }

    method OpPhy(bus: Bus.Machine, operand: Operand) returns (r: ExecResult)
      requires Ready(bus)
      modifies this, bus.ram, bus.ram.Repr
      ensures Ready(bus)
      ensures Reflects(ExecPush(PHY, old(Snapshot(bus))), r, Snapshot(bus))
    {
      StackPushU8(bus, y);
      r := Finished;
    }

    method OpPla(bus: Bus.Machine, operand: Operand) returns (r: ExecResult)
      requires Ready(bus)
      modifies this
      ensures Reflects(ExecPull(PLA, old(Snapshot(bus))), r, Snapshot(bus))
    {
      a := StackPullU8(bus);
      StatusUpdateZN(a);
      r := Finished;
    }

    method OpPlx(bus: Bus.Machine, operand: Operand) returns (r: ExecResult)
      requires Ready(bus)
      modifies this
      ensures Reflects(ExecPull(PLX, old(Snapshot(bus))), r, Snapshot(bus))
    {
      x := StackPullU8(bus);
      StatusUpdateZN(x);
      r := Finished;
    }

    method OpPly(bus: Bus.Machine, operand: Operand) returns (r: ExecResult)
      requires Ready(bus)
      modifies this
      ensures Reflects(ExecPull(PLY, old(Snapshot(bus))), r, Snapshot(bus))
    {
      y := StackPullU8(bus);
      StatusUpdateZN(y);
      r := Finished;
    }

    method OpPlp(bus: Bus.Machine, operand: Operand) returns (r: ExecResult)
      requires Ready(bus)
      modifies this
      ensures Reflects(ExecPull(PLP, old(Snapshot(bus))), r, Snapshot(bus))
    {
      var pulled := StackPullU8(bus);
      p := PulledStatus(pulled);
      r := Finished;
    }

    method OpBrk(bus: Bus.Machine, operand: Operand) returns (r: ExecResult)
      requires Ready(bus)
      modifies this, bus.ram, bus.ram.Repr
      ensures Ready(bus)
      ensures Reflects(ExecBrk(old(Snapshot(bus))), r, Snapshot(bus))
    {
      StackPushBreakFrame(bus);
      StatusSet(I, true);
      var low := bus.Read(IRQB_LOW);
      var high := bus.Read(IRQB_LOW + 1);
      pc := Join(low, high);
      r := Finished;
    }

    method OpJmp(bus: Bus.Machine, operand: Operand) returns (r: ExecResult)
      requires Ready(bus)
      modifies this
      ensures Reflects(ExecJmp(operand, old(Snapshot(bus))), r, Snapshot(bus))
    {
      match operand
      case Address(address) =>
        pc := address;
        r := Finished;
      case _ =>
        r := Aborted(Unreachable(JMP));
    }

    method OpJsr(bus: Bus.Machine, operand: Operand) returns (r: ExecResult)
      requires Ready(bus)
      modifies this, bus.ram, bus.ram.Repr
      ensures Ready(bus)
      ensures Reflects(ExecJsr(operand, old(Snapshot(bus))), r, Snapshot(bus))
    {
      match operand
      case Address(address) =>
        StackPushReturnAddress(bus, pc - 1);
        pc := address;
        r := Finished;
      case _ =>
        r := Aborted(Unreachable(JSR));
    }

    method OpRti(bus: Bus.Machine, operand: Operand) returns (r: ExecResult)
      requires Ready(bus)
      modifies this
      ensures Reflects(ExecRti(old(Snapshot(bus))), r, Snapshot(bus))
    {
      var pulled := StackPullU8(bus);
      var status := PulledStatus(pulled);
      var low := StackPullU8(bus);
      var high := StackPullU8(bus);
      p := status;
      pc := Join(low, high);
      r := Finished;
    }

    method OpRts(bus: Bus.Machine, operand: Operand) returns (r: ExecResult)
      requires Ready(bus)
      modifies this
      ensures Reflects(ExecRts(old(Snapshot(bus))), r, Snapshot(bus))
    {
      var low := StackPullU8(bus);
      var high := StackPullU8(bus);
      pc := Join(low, high) + 1;
      r := Finished;
    }

    method OpNop(bus: Bus.Machine, operand: Operand) returns (r: ExecResult)
      requires Ready(bus)
      modifies this
      ensures Reflects(Done(old(Snapshot(bus))), r, Snapshot(bus))
    {
      r := Finished;
    }

    method OpStp(bus: Bus.Machine, operand: Operand) returns (r: ExecResult)
      requires Ready(bus)
      modifies this
      ensures Reflects(Panicked(Unimplemented(STP)), r, Snapshot(bus))
    {
      r := Aborted(Unimplemented(STP));
    }

    method OpWai(bus: Bus.Machine, operand: Operand) returns (r: ExecResult)
      requires Ready(bus)
      modifies this
      ensures Reflects(Panicked(Unimplemented(WAI)), r, Snapshot(bus))
    {
      r := Aborted(Unimplemented(WAI));
    }
    method ExecuteAlu(bus: Bus.Machine, mnemonic: Mnemonic, operand: Operand) returns (r: ExecResult)
      requires Ready(bus) && IsAluOp(mnemonic)
      modifies this, bus.ram, bus.ram.Repr
      ensures Ready(bus)
      ensures Reflects(ExecAlu(mnemonic, operand, old(Snapshot(bus))), r, Snapshot(bus))
    {
      match mnemonic
      case ADC => r := OpAdc(bus, operand);
      case SBC => r := OpSbc(bus, operand);
      case AND => r := OpAnd(bus, operand);
      case ORA => r := OpOra(bus, operand);
      case EOR => r := OpEor(bus, operand);
      case CMP => r := OpCmp(bus, operand);
      case CPX => r := OpCpx(bus, operand);
      case CPY => r := OpCpy(bus, operand);
      case BIT => r := OpBit(bus, operand);
      case _ => assert false;
    }

    method ExecuteLoadStore(bus: Bus.Machine, mnemonic: Mnemonic, operand: Operand) returns (r: ExecResult)
      requires Ready(bus) && IsLoadStoreOp(mnemonic)
      modifies this, bus.ram, bus.ram.Repr
      ensures Ready(bus)
      ensures Reflects(ExecLoadStore(mnemonic, operand, old(Snapshot(bus))), r, Snapshot(bus))
    {
      match mnemonic
      case LDA => r := OpLda(bus, operand);
      case LDX => r := OpLdx(bus, operand);
      case LDY => r := OpLdy(bus, operand);
      case STA => r := OpSta(bus, operand);
      case STX => r := OpStx(bus, operand);
      case STY => r := OpSty(bus, operand);
      case STZ => r := OpStz(bus, operand);
      case _ => assert false;
    }

    method ExecuteModify(bus: Bus.Machine, mnemonic: Mnemonic, operand: Operand) returns (r: ExecResult)
      requires Ready(bus) && IsModifyOp(mnemonic)
      modifies this, bus.ram, bus.ram.Repr
      ensures Ready(bus)
      ensures Reflects(ExecReadModifyWrite(mnemonic, operand, old(Snapshot(bus))), r, Snapshot(bus))
    {
      match mnemonic
      case ASL => r := OpAsl(bus, operand);
      case LSR => r := OpLsr(bus, operand);
      case ROL => r := OpRol(bus, operand);
      case ROR => r := OpRor(bus, operand);
      case INC => r := OpInc(bus, operand);
      case DEC => r := OpDec(bus, operand);
      case RMBN(n) => r := OpRmbN(bus, operand, n);
      case SMBN(n) => r := OpSmbN(bus, operand, n);
      case TRB => r := OpTrb(bus, operand);
      case TSB => r := OpTsb(bus, operand);
      case _ => assert false;
    }

    /** The six register-to-register transfers. */
    method ExecuteTransfer(bus: Bus.Machine, mnemonic: Mnemonic, operand: Operand) returns (r: ExecResult)
      requires Ready(bus) && IsTransfer(mnemonic)
      modifies this
      ensures Ready(bus)
      ensures Reflects(ExecTransfer(mnemonic, old(Snapshot(bus))), r, Snapshot(bus))
    {
      match mnemonic
      case TAX => r := OpTax(bus, operand);
      case TAY => r := OpTay(bus, operand);
      case TSX => r := OpTsx(bus, operand);
      case TXA => r := OpTxa(bus, operand);
      case TXS => r := OpTxs(bus, operand);
      case TYA => r := OpTya(bus, operand);
      case _ => assert false;
    }

    method ExecuteRegister(bus: Bus.Machine, mnemonic: Mnemonic, operand: Operand) returns (r: ExecResult)
      requires Ready(bus) && IsRegisterOp(mnemonic)
      modifies this, bus.ram, bus.ram.Repr
      ensures Ready(bus)
      ensures Reflects(ExecRegister(mnemonic, operand, old(Snapshot(bus))), r, Snapshot(bus))
    {
      if IsTransfer(mnemonic) {
        r := ExecuteTransfer(bus, mnemonic, operand);
      } else {
        match mnemonic
        case INX => r := OpInx(bus, operand);
        case INY => r := OpIny(bus, operand);
        case DEX => r := OpDex(bus, operand);
        case DEY => r := OpDey(bus, operand);
        case _ => assert false;
      }
    }

    method ExecuteFlag(bus: Bus.Machine, mnemonic: Mnemonic, operand: Operand) returns (r: ExecResult)
      requires Ready(bus) && IsFlagOp(mnemonic)
      modifies this, bus.ram, bus.ram.Repr
      ensures Ready(bus)
      ensures Reflects(ExecFlagGroup(mnemonic, operand, old(Snapshot(bus))), r, Snapshot(bus))
    {
      match mnemonic
      case CLC => r := OpClc(bus, operand);
      case CLD => r := OpCld(bus, operand);
      case CLI => r := OpCli(bus, operand);
      case CLV => r := OpClv(bus, operand);
      case SEC => r := OpSec(bus, operand);
      case SED => r := OpSed(bus, operand);
      case SEI => r := OpSei(bus, operand);
      case NOP => r := OpNop(bus, operand);
      case _ => assert false;
    }

    /** The nine branches on a status flag. */
    method ExecuteConditionalBranch(bus: Bus.Machine, mnemonic: Mnemonic, operand: Operand) returns (r: ExecResult)
      requires Ready(bus) && IsBranch(mnemonic)
      modifies this
      ensures Ready(bus)
      ensures Reflects(ExecBranch(mnemonic, operand, old(Snapshot(bus))), r, Snapshot(bus))
    {
      match mnemonic
      case BCC => r := OpBcc(bus, operand);
      case BCS => r := OpBcs(bus, operand);
      case BEQ => r := OpBeq(bus, operand);
      case BMI => r := OpBmi(bus, operand);
      case BNE => r := OpBne(bus, operand);
      case BPL => r := OpBpl(bus, operand);
      case BVC => r := OpBvc(bus, operand);
      case BVS => r := OpBvs(bus, operand);
      case BRA => r := OpBra(bus, operand);
      case _ => assert false;
    }

    method ExecuteBranch(bus: Bus.Machine, mnemonic: Mnemonic, operand: Operand) returns (r: ExecResult)
      requires Ready(bus) && IsBranchOp(mnemonic)
      modifies this, bus.ram, bus.ram.Repr
      ensures Ready(bus)
      ensures Reflects(ExecBranchGroup(mnemonic, operand, old(Snapshot(bus))), r, Snapshot(bus))
    {
      if IsBranch(mnemonic) {
        r := ExecuteConditionalBranch(bus, mnemonic, operand);
      } else if mnemonic.BBRN? {
        r := OpBbrN(bus, operand, mnemonic.n);
      } else {
        r := OpBbsN(bus, operand, mnemonic.n);
      }
    }

    method ExecuteStack(bus: Bus.Machine, mnemonic: Mnemonic, operand: Operand) returns (r: ExecResult)
      requires Ready(bus) && IsStackOp(mnemonic)
      modifies this, bus.ram, bus.ram.Repr
      ensures Ready(bus)
      ensures Reflects(ExecStack(mnemonic, operand, old(Snapshot(bus))), r, Snapshot(bus))
    {
      match mnemonic
      case PHA => r := OpPha(bus, operand);
      case PHP => r := OpPhp(bus, operand);
      case PHX => r := OpPhx(bus, operand);
      case PHY => r := OpPhy(bus, operand);
      case PLA => r := OpPla(bus, operand);
      case PLP => r := OpPlp(bus, operand);
      case PLX => r := OpPlx(bus, operand);
      case PLY => r := OpPly(bus, operand);
      case _ => assert false;
    }

    method ExecuteControl(bus: Bus.Machine, mnemonic: Mnemonic, operand: Operand) returns (r: ExecResult)
      requires Ready(bus) && IsControlOp(mnemonic)
      modifies this, bus.ram, bus.ram.Repr
      ensures Ready(bus)
      ensures Reflects(ExecControl(mnemonic, operand, old(Snapshot(bus))), r, Snapshot(bus))
    {
      match mnemonic
      case BRK => r := OpBrk(bus, operand);
      case JMP => r := OpJmp(bus, operand);
      case JSR => r := OpJsr(bus, operand);
      case RTI => r := OpRti(bus, operand);
      case RTS => r := OpRts(bus, operand);
      case STP => r := OpStp(bus, operand);
      case WAI => r := OpWai(bus, operand);
      case _ => assert false;
    }

    /** Operations on registers and memory data. */
    method ExecuteData(bus: Bus.Machine, mnemonic: Mnemonic, operand: Operand) returns (r: ExecResult)
      requires Ready(bus) && IsDataGroup(GroupOf(mnemonic))
      modifies this, bus.ram, bus.ram.Repr
      ensures Ready(bus)
      ensures Reflects(Exec(mnemonic, operand, old(Snapshot(bus))), r, Snapshot(bus))
    {
      ghost var s0 := Snapshot(bus);
      match GroupOf(mnemonic)
      case Alu =>
        assert Exec(mnemonic, operand, s0) == ExecAlu(mnemonic, operand, s0);
        r := ExecuteAlu(bus, mnemonic, operand);
      case LoadStore =>
        assert Exec(mnemonic, operand, s0) == ExecLoadStore(mnemonic, operand, s0);
        r := ExecuteLoadStore(bus, mnemonic, operand);
      case Modify =>
        assert Exec(mnemonic, operand, s0) == ExecReadModifyWrite(mnemonic, operand, s0);
        r := ExecuteModify(bus, mnemonic, operand);
      case RegisterOps =>
        assert Exec(mnemonic, operand, s0) == ExecRegister(mnemonic, operand, s0);
        r := ExecuteRegister(bus, mnemonic, operand);
      case _ => assert false;
    }

    /** Operations on flags, the program counter and the stack. */
    method ExecuteFlow(bus: Bus.Machine, mnemonic: Mnemonic, operand: Operand) returns (r: ExecResult)
      requires Ready(bus) && IsFlowGroup(GroupOf(mnemonic))
      modifies this, bus.ram, bus.ram.Repr
      ensures Ready(bus)
      ensures Reflects(Exec(mnemonic, operand, old(Snapshot(bus))), r, Snapshot(bus))
    {
      ghost var s0 := Snapshot(bus);
      match GroupOf(mnemonic)
      case FlagOps =>
        assert Exec(mnemonic, operand, s0) == ExecFlagGroup(mnemonic, operand, s0);
        r := ExecuteFlag(bus, mnemonic, operand);
      case BranchOps =>
        assert Exec(mnemonic, operand, s0) == ExecBranchGroup(mnemonic, operand, s0);
        r := ExecuteBranch(bus, mnemonic, operand);
      case StackOps =>
        assert Exec(mnemonic, operand, s0) == ExecStack(mnemonic, operand, s0);
        r := ExecuteStack(bus, mnemonic, operand);
      case ControlOps =>
        assert Exec(mnemonic, operand, s0) == ExecControl(mnemonic, operand, s0);
        r := ExecuteControl(bus, mnemonic, operand);
      case _ => assert false;
    }

    /** The call through the table entry's operation pointer. */
    method Execute(bus: Bus.Machine, mnemonic: Mnemonic, operand: Operand) returns (r: ExecResult)
      requires Ready(bus)
      modifies this, bus.ram, bus.ram.Repr
      ensures Ready(bus)
      ensures Reflects(Exec(mnemonic, operand, old(Snapshot(bus))), r, Snapshot(bus))
    {
      if IsDataGroup(GroupOf(mnemonic)) {
        r := ExecuteData(bus, mnemonic, operand);
      } else {
        r := ExecuteFlow(bus, mnemonic, operand);
      }
    }

    /** `step`, decoding with `table`: `AsWritten` is the emulator's table, `Corrected`
        the one with STZ absolute and STZ absolute,X where the W65C02S has them. */
    method Step(bus: Bus.Machine, table: Table) returns (r: StepReport)
      requires Ready(bus)
      modifies this, bus.ram, bus.ram.Repr
      ensures Ready(bus)
      ensures StepReflects(Semantics.Step(table, old(Snapshot(bus))), r, Snapshot(bus))
    {
      var opcode := FetchU8(bus);
      var operation := Lookup(table, opcode);
      if operation.None? {
        return StepErr(InvalidOpcode(opcode));
      }
      var operand := ResolveOperand(bus, operation.value.mode);
      var result := Execute(bus, operation.value.mnemonic, operand);
      match result
      case Finished => r := StepOk(operation.value.mnemonic);
      case Raised(e) => r := StepErr(e);
      case Aborted(why) => r := StepAbort(why);
    }
  }
}
