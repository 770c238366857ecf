/**
 * The W65C02S instruction set as the emulator decodes it: status flags, addressing
 * modes, mnemonics, the 256-entry opcode table and the operand kinds.
 */
module Isa {
  import opened Prelude

  /** The flags of the processor status register P. */
  datatype Status = C | Z | I | D | B | V | N

  /** The single bit of P a flag occupies; bit 5 belongs to no flag. */
  function Mask(flag: Status): (m: Byte)
    ensures m != 0 && m & (m - 1) == 0
    ensures m & 0x20 == 0
  {
    match flag
    case C => 0x01
    case Z => 0x02
    case I => 0x04
    case D => 0x08
    case B => 0x10
    case V => 0x40
    case N => 0x80
  }

  /** Distinct flags never share a bit. */
  lemma MasksDisjoint(f: Status, g: Status)
    ensures f != g <==> Mask(f) & Mask(g) == 0
  {
  }

  datatype AddressingMode =
    | Absolute                  // a
    | AbsoluteIndexedIndirect   // (a,x)
    | AbsoluteIndexedX          // a,x
    | AbsoluteIndexedY          // a,y
    | AbsoluteIndirect          // (a)
    | Accumulator               // A
    | Immediate                 // #
    | Implied                   // i
    | ProgramCounterRelative    // r
    | Stack                     // s
    | ZeroPage                  // zp
    | ZeroPageIndexedIndirect   // (zp,x)
    | ZeroPageIndexedX          // zp,x
    | ZeroPageIndexedY          // zp,y
    | ZeroPageIndirect          // (zp)
    | ZeroPageIndirectIndexedY  // (zp),y
    | ZeroPageRelative          // zp,r (BBR and BBS)

  /** How many bytes follow the opcode in each addressing mode. */
  function NumOperandBytes(mode: AddressingMode): (n: Byte)
    ensures n <= 2
    ensures n == 0 <==> mode in {AddressingMode.Accumulator, AddressingMode.Implied, Stack}
  {
    match mode
    case Absolute => 2
    case AbsoluteIndexedIndirect => 2
    case AbsoluteIndexedX => 2
    case AbsoluteIndexedY => 2
    case AbsoluteIndirect => 2
    case Accumulator => 0
    case Immediate => 1
    case Implied => 0
    case ProgramCounterRelative => 1
    case Stack => 0
    case ZeroPage => 1
    case ZeroPageIndexedIndirect => 1
    case ZeroPageIndexedX => 1
    case ZeroPageIndexedY => 1
    case ZeroPageIndirect => 1
    case ZeroPageIndirectIndexedY => 1
    case ZeroPageRelative => 2
  }

  /** The bit number carried by BBRn, BBSn, RMBn and SMBn. */
  newtype BitIndex = n: int | 0 <= n < 8

  datatype Mnemonic =
    | ADC | AND | ASL | BBRN(n: BitIndex) | BBSN(n: BitIndex) | BCC | BCS | BEQ | BIT | BMI
    | BNE | BPL | BRA | BRK | BVC | BVS | CLC | CLD | CLI | CLV | CMP | CPX | CPY | DEC
    | DEX | DEY | EOR | INC | INX | INY | JMP | JSR | LDA | LDX | LDY | LSR | NOP | ORA
    | PHA | PHP | PHX | PHY | PLA | PLP | PLX | PLY | RMBN(n: BitIndex) | ROL | ROR | RTI
    | RTS | SBC | SEC | SED | SEI | SMBN(n: BitIndex) | STA | STP | STX | STY | STZ | TAX
    | TAY | TRB | TSB | TSX | TXA | TXS | TYA | WAI

  /** A decoded table entry: how to fetch the operand and what to do with it. */
  datatype Operation = Operation(mode: AddressingMode, mnemonic: Mnemonic)

  /** The opcode table exactly as the emulator lists it, indexed by opcode and laid out
      as the datasheet's matrix: one row per high nibble. */
  function OperationAsWritten(opcode: int): Option<Operation>
  {
    if 0 <= opcode < 256 then OperationRow(opcode / 16, opcode % 16) else None
  }

  /** One row of the table; the opcodes the emulator marks invalid fall to the last case. */
  function OperationRow(high: int, low: int): Option<Operation>
  {
    match high
    case 0x0 => OperationRow0(low)
    case 0x1 => OperationRow1(low)
    case 0x2 => OperationRow2(low)
    case 0x3 => OperationRow3(low)
    case 0x4 => OperationRow4(low)
    case 0x5 => OperationRow5(low)
    case 0x6 => OperationRow6(low)
    case 0x7 => OperationRow7(low)
    case 0x8 => OperationRow8(low)
    case 0x9 => OperationRow9(low)
    case 0xA => OperationRowA(low)
    case 0xB => OperationRowB(low)
    case 0xC => OperationRowC(low)
    case 0xD => OperationRowD(low)
    case 0xE => OperationRowE(low)
    case 0xF => OperationRowF(low)
    case _ => None
  }

  function OperationRow0(low: int): Option<Operation>
  {
    match low
    case 0x0 => Some(Operation(Stack, BRK))
    case 0x1 => Some(Operation(ZeroPageIndexedIndirect, ORA))
    case 0x4 => Some(Operation(ZeroPage, TSB))
    case 0x5 => Some(Operation(ZeroPage, ORA))
    case 0x6 => Some(Operation(ZeroPage, ASL))
    case 0x7 => Some(Operation(ZeroPage, RMBN(0)))
    case 0x8 => Some(Operation(Stack, PHP))
    case 0x9 => Some(Operation(Immediate, ORA))
    case 0xA => Some(Operation(AddressingMode.Accumulator, ASL))
    case 0xC => Some(Operation(Absolute, TSB))
    case 0xD => Some(Operation(Absolute, ORA))
    case 0xE => Some(Operation(Absolute, ASL))
    case 0xF => Some(Operation(ZeroPageRelative, BBRN(0)))
    case _ => None
  }

  function OperationRow1(low: int): Option<Operation>
  {
    match low
    case 0x0 => Some(Operation(ProgramCounterRelative, BPL))
    case 0x1 => Some(Operation(ZeroPageIndirectIndexedY, ORA))
    case 0x2 => Some(Operation(ZeroPageIndirect, ORA))
    case 0x4 => Some(Operation(ZeroPage, TRB))
    case 0x5 => Some(Operation(ZeroPageIndexedX, ORA))
    case 0x6 => Some(Operation(ZeroPageIndexedX, ASL))
    case 0x7 => Some(Operation(ZeroPage, RMBN(1)))
    case 0x8 => Some(Operation(AddressingMode.Implied, CLC))
    case 0x9 => Some(Operation(AbsoluteIndexedY, ORA))
    case 0xA => Some(Operation(AddressingMode.Accumulator, INC))
    case 0xC => Some(Operation(Absolute, TRB))
    case 0xD => Some(Operation(AbsoluteIndexedX, ORA))
    case 0xE => Some(Operation(AbsoluteIndexedX, ASL))
    case 0xF => Some(Operation(ZeroPageRelative, BBRN(1)))
    case _ => None
  }

  function OperationRow2(low: int): Option<Operation>
  {
    match low
    case 0x0 => Some(Operation(Absolute, JSR))
    case 0x1 => Some(Operation(ZeroPageIndexedIndirect, AND))
    case 0x4 => Some(Operation(ZeroPage, BIT))
    case 0x5 => Some(Operation(ZeroPage, AND))
    case 0x6 => Some(Operation(ZeroPage, ROL))
    case 0x7 => Some(Operation(ZeroPage, RMBN(2)))
    case 0x8 => Some(Operation(Stack, PLP))
    case 0x9 => Some(Operation(Immediate, AND))
    case 0xA => Some(Operation(AddressingMode.Accumulator, ROL))
    case 0xC => Some(Operation(Absolute, BIT))
    case 0xD => Some(Operation(Absolute, AND))
    case 0xE => Some(Operation(Absolute, ROL))
    case 0xF => Some(Operation(ZeroPageRelative, BBRN(2)))
    case _ => None
  }

  function OperationRow3(low: int): Option<Operation>
  {
    match low
    case 0x0 => Some(Operation(ProgramCounterRelative, BMI))
    case 0x1 => Some(Operation(ZeroPageIndirectIndexedY, AND))
    case 0x2 => Some(Operation(ZeroPageIndirect, AND))
    case 0x4 => Some(Operation(ZeroPageIndexedX, BIT))
    case 0x5 => Some(Operation(ZeroPageIndexedX, AND))
    case 0x6 => Some(Operation(ZeroPageIndexedX, ROL))
    case 0x7 => Some(Operation(ZeroPage, RMBN(3)))
    case 0x8 => Some(Operation(AddressingMode.Implied, SEC))
    case 0x9 => Some(Operation(AbsoluteIndexedY, AND))
    case 0xA => Some(Operation(AddressingMode.Accumulator, DEC))
    case 0xC => Some(Operation(AbsoluteIndexedX, BIT))
    case 0xD => Some(Operation(AbsoluteIndexedX, AND))
    case 0xE => Some(Operation(AbsoluteIndexedX, ROL))
    case 0xF => Some(Operation(ZeroPageRelative, BBRN(3)))
    case _ => None
  }

  function OperationRow4(low: int): Option<Operation>
  {
    match low
    case 0x0 => Some(Operation(Stack, RTI))
    case 0x1 => Some(Operation(ZeroPageIndexedIndirect, EOR))
    case 0x5 => Some(Operation(ZeroPage, EOR))
    case 0x6 => Some(Operation(ZeroPage, LSR))
    case 0x7 => Some(Operation(ZeroPage, RMBN(4)))
    case 0x8 => Some(Operation(Stack, PHA))
    case 0x9 => Some(Operation(Immediate, EOR))
    case 0xA => Some(Operation(AddressingMode.Accumulator, LSR))
    case 0xC => Some(Operation(Absolute, JMP))
    case 0xD => Some(Operation(Absolute, EOR))
    case 0xE => Some(Operation(Absolute, LSR))
    case 0xF => Some(Operation(ZeroPageRelative, BBRN(4)))
    case _ => None
  }

  function OperationRow5(low: int): Option<Operation>
  {
    match low
    case 0x0 => Some(Operation(ProgramCounterRelative, BVC))
    case 0x1 => Some(Operation(ZeroPageIndirectIndexedY, EOR))
    case 0x2 => Some(Operation(ZeroPageIndirect, EOR))
    case 0x5 => Some(Operation(ZeroPageIndexedX, EOR))
    case 0x6 => Some(Operation(ZeroPageIndexedX, LSR))
    case 0x7 => Some(Operation(ZeroPage, RMBN(5)))
    case 0x8 => Some(Operation(AddressingMode.Implied, CLI))
    case 0x9 => Some(Operation(AbsoluteIndexedY, EOR))
    case 0xA => Some(Operation(Stack, PHY))
    case 0xD => Some(Operation(AbsoluteIndexedX, EOR))
    case 0xE => Some(Operation(AbsoluteIndexedX, LSR))
    case 0xF => Some(Operation(ZeroPageRelative, BBRN(5)))
    case _ => None
  }

  function OperationRow6(low: int): Option<Operation>
  {
    match low
    case 0x0 => Some(Operation(Stack, RTS))
    case 0x1 => Some(Operation(ZeroPageIndexedIndirect, ADC))
    case 0x4 => Some(Operation(ZeroPage, STZ))
    case 0x5 => Some(Operation(ZeroPage, ADC))
    case 0x6 => Some(Operation(ZeroPage, ROR))
    case 0x7 => Some(Operation(ZeroPage, RMBN(6)))
    case 0x8 => Some(Operation(Stack, PLA))
    case 0x9 => Some(Operation(Immediate, ADC))
    case 0xA => Some(Operation(AddressingMode.Accumulator, ROR))
    case 0xC => Some(Operation(AbsoluteIndirect, JMP))
    case 0xD => Some(Operation(Absolute, ADC))
    case 0xE => Some(Operation(Absolute, ROR))
    case 0xF => Some(Operation(ZeroPageRelative, BBRN(6)))
    case _ => None
  }

  function OperationRow7(low: int): Option<Operation>
  {
    match low
    case 0x0 => Some(Operation(ProgramCounterRelative, BVS))
    case 0x1 => Some(Operation(ZeroPageIndirectIndexedY, ADC))
    case 0x2 => Some(Operation(ZeroPageIndirect, ADC))
    case 0x4 => Some(Operation(ZeroPageIndexedX, STZ))
    case 0x5 => Some(Operation(ZeroPageIndexedX, ADC))
    case 0x6 => Some(Operation(ZeroPageIndexedX, ROR))
    case 0x7 => Some(Operation(ZeroPage, RMBN(7)))
    case 0x8 => Some(Operation(AddressingMode.Implied, SEI))
    case 0x9 => Some(Operation(AbsoluteIndexedY, ADC))
    case 0xA => Some(Operation(Stack, PLY))
    case 0xC => Some(Operation(AbsoluteIndexedIndirect, JMP))
    case 0xD => Some(Operation(AbsoluteIndexedX, ADC))
    case 0xE => Some(Operation(AbsoluteIndexedX, ROR))
    case 0xF => Some(Operation(ZeroPageRelative, BBRN(7)))
    case _ => None
  }

  function OperationRow8(low: int): Option<Operation>
  {
    match low
    case 0x0 => Some(Operation(ProgramCounterRelative, BRA))
    case 0x1 => Some(Operation(ZeroPageIndexedIndirect, STA))
    case 0x4 => Some(Operation(ZeroPage, STY))
    case 0x5 => Some(Operation(ZeroPage, STA))
    case 0x6 => Some(Operation(ZeroPage, STX))
    case 0x7 => Some(Operation(ZeroPage, SMBN(0)))
    case 0x8 => Some(Operation(AddressingMode.Implied, DEY))
    case 0x9 => Some(Operation(Immediate, BIT))
    case 0xA => Some(Operation(AddressingMode.Implied, TXA))
    case 0xC => Some(Operation(Absolute, STY))
    case 0xD => Some(Operation(Absolute, STA))
    case 0xE => Some(Operation(Absolute, STX))
    case 0xF => Some(Operation(ZeroPageRelative, BBSN(0)))
    case _ => None
  }

  function OperationRow9(low: int): Option<Operation>
  {
    match low
    case 0x0 => Some(Operation(ProgramCounterRelative, BCC))
    case 0x1 => Some(Operation(ZeroPageIndirectIndexedY, STA))
    case 0x2 => Some(Operation(ZeroPageIndirect, STA))
    case 0x4 => Some(Operation(ZeroPageIndexedX, STY))
    case 0x5 => Some(Operation(ZeroPageIndexedX, STA))
    case 0x6 => Some(Operation(ZeroPageIndexedY, STX))
    case 0x7 => Some(Operation(ZeroPage, SMBN(1)))
    case 0x8 => Some(Operation(AddressingMode.Implied, TYA))
    case 0x9 => Some(Operation(AbsoluteIndexedY, STA))
    case 0xA => Some(Operation(AddressingMode.Implied, TXS))
    case 0xC => Some(Operation(AbsoluteIndexedX, STZ))
    case 0xD => Some(Operation(AbsoluteIndexedX, STA))
    case 0xE => Some(Operation(AbsoluteIndexedY, STZ))
    case 0xF => Some(Operation(ZeroPageRelative, BBSN(1)))
    case _ => None
  }

  function OperationRowA(low: int): Option<Operation>
  {
    match low
    case 0x0 => Some(Operation(Immediate, LDY))
    case 0x1 => Some(Operation(ZeroPageIndexedIndirect, LDA))
    case 0x2 => Some(Operation(Immediate, LDX))
    case 0x4 => Some(Operation(ZeroPage, LDY))
    case 0x5 => Some(Operation(ZeroPage, LDA))
    case 0x6 => Some(Operation(ZeroPage, LDX))
    case 0x7 => Some(Operation(ZeroPage, SMBN(2)))
    case 0x8 => Some(Operation(AddressingMode.Implied, TAY))
    case 0x9 => Some(Operation(Immediate, LDA))
    case 0xA => Some(Operation(AddressingMode.Implied, TAX))
    case 0xC => Some(Operation(Absolute, LDY))
    case 0xD => Some(Operation(Absolute, LDA))
    case 0xE => Some(Operation(Absolute, LDX))
    case 0xF => Some(Operation(ZeroPageRelative, BBSN(2)))
    case _ => None
  }

  function OperationRowB(low: int): Option<Operation>
  {
    match low
    case 0x0 => Some(Operation(ProgramCounterRelative, BCS))
    case 0x1 => Some(Operation(ZeroPageIndirectIndexedY, LDA))
    case 0x2 => Some(Operation(ZeroPageIndirect, LDA))
    case 0x4 => Some(Operation(ZeroPageIndexedX, LDY))
    case 0x5 => Some(Operation(ZeroPageIndexedX, LDA))
    case 0x6 => Some(Operation(ZeroPageIndexedY, LDX))
    case 0x7 => Some(Operation(ZeroPage, SMBN(3)))
    case 0x8 => Some(Operation(AddressingMode.Implied, CLV))
    case 0x9 => Some(Operation(AbsoluteIndexedY, LDA))
    case 0xA => Some(Operation(AddressingMode.Implied, TSX))
    case 0xC => Some(Operation(AbsoluteIndexedX, LDY))
    case 0xD => Some(Operation(AbsoluteIndexedX, LDA))
    case 0xE => Some(Operation(AbsoluteIndexedY, LDX))
    case 0xF => Some(Operation(ZeroPageRelative, BBSN(3)))
    case _ => None
  }

  function OperationRowC(low: int): Option<Operation>
  {
    match low
    case 0x0 => Some(Operation(Immediate, CPY))
    case 0x1 => Some(Operation(ZeroPageIndexedIndirect, CMP))
    case 0x4 => Some(Operation(ZeroPage, CPY))
    case 0x5 => Some(Operation(ZeroPage, CMP))
    case 0x6 => Some(Operation(ZeroPage, DEC))
    case 0x7 => Some(Operation(ZeroPage, SMBN(4)))
    case 0x8 => Some(Operation(AddressingMode.Implied, INY))
    case 0x9 => Some(Operation(Immediate, CMP))
    case 0xA => Some(Operation(AddressingMode.Implied, DEX))
    case 0xB => Some(Operation(AddressingMode.Implied, WAI))
    case 0xC => Some(Operation(Absolute, CPY))
    case 0xD => Some(Operation(Absolute, CMP))
    case 0xE => Some(Operation(Absolute, DEC))
    case 0xF => Some(Operation(ZeroPageRelative, BBSN(4)))
    case _ => None
  }

  function OperationRowD(low: int): Option<Operation>
  {
    match low
    case 0x0 => Some(Operation(ProgramCounterRelative, BNE))
    case 0x1 => Some(Operation(ZeroPageIndirectIndexedY, CMP))
    case 0x2 => Some(Operation(ZeroPageIndirect, CMP))
    case 0x5 => Some(Operation(ZeroPageIndexedX, CMP))
    case 0x6 => Some(Operation(ZeroPageIndexedX, DEC))
    case 0x7 => Some(Operation(ZeroPage, SMBN(5)))
    case 0x8 => Some(Operation(AddressingMode.Implied, CLD))
    case 0x9 => Some(Operation(AbsoluteIndexedY, CMP))
    case 0xA => Some(Operation(AddressingMode.Implied, PHX))
    case 0xB => Some(Operation(AddressingMode.Implied, STP))
    case 0xD => Some(Operation(AbsoluteIndexedX, CMP))
    case 0xE => Some(Operation(AbsoluteIndexedX, DEC))
    case 0xF => Some(Operation(ZeroPageRelative, BBSN(5)))
    case _ => None
  }

  function OperationRowE(low: int): Option<Operation>
  {
    match low
    case 0x0 => Some(Operation(Immediate, CPX))
    case 0x1 => Some(Operation(ZeroPageIndexedIndirect, SBC))
    case 0x4 => Some(Operation(ZeroPage, CPX))
    case 0x5 => Some(Operation(ZeroPage, SBC))
    case 0x6 => Some(Operation(ZeroPage, INC))
    case 0x7 => Some(Operation(ZeroPage, SMBN(6)))
    case 0x8 => Some(Operation(AddressingMode.Implied, INX))
    case 0x9 => Some(Operation(Immediate, SBC))
    case 0xA => Some(Operation(AddressingMode.Implied, NOP))
    case 0xC => Some(Operation(Absolute, CPX))
    case 0xD => Some(Operation(Absolute, SBC))
    case 0xE => Some(Operation(Absolute, INC))
    case 0xF => Some(Operation(ZeroPageRelative, BBSN(6)))
    case _ => None
  }

  function OperationRowF(low: int): Option<Operation>
  {
    match low
    case 0x0 => Some(Operation(ProgramCounterRelative, BEQ))
    case 0x1 => Some(Operation(ZeroPageIndirectIndexedY, SBC))
    case 0x2 => Some(Operation(ZeroPageIndirect, SBC))
    case 0x5 => Some(Operation(ZeroPageIndexedX, SBC))
    case 0x6 => Some(Operation(ZeroPageIndexedX, INC))
    case 0x7 => Some(Operation(ZeroPage, SMBN(7)))
    case 0x8 => Some(Operation(AddressingMode.Implied, SED))
    case 0x9 => Some(Operation(AbsoluteIndexedY, SBC))
    case 0xA => Some(Operation(Stack, PLX))
    case 0xD => Some(Operation(AbsoluteIndexedX, SBC))
    case 0xE => Some(Operation(AbsoluteIndexedX, INC))
    case 0xF => Some(Operation(ZeroPageRelative, BBSN(7)))
    case _ => None
  }

  /**
   * The table the rest of the model decodes with. It differs from the table as
   * written only at 0x9C and 0x9E, where the W65C02S datasheet places STZ absolute
   * and STZ absolute indexed by X (the written table has them as STZ a,x and STZ a,y).
   */
  function OperationAt(opcode: int): (r: Option<Operation>)
    ensures opcode == 0x9C ==> r == Some(Operation(Absolute, STZ))
    ensures opcode == 0x9E ==> r == Some(Operation(AbsoluteIndexedX, STZ))
    ensures opcode != 0x9C && opcode != 0x9E ==> r == OperationAsWritten(opcode)
  {
    if opcode == 0x9C then Some(Operation(Absolute, STZ))
    else if opcode == 0x9E then Some(Operation(AbsoluteIndexedX, STZ))
    else OperationAsWritten(opcode)
  }

  /** The decoding table a step uses: the one the emulator ships, or the corrected one. */
  datatype Table = AsWritten | Corrected

  /** Table lookup by opcode byte. */
  function Lookup(table: Table, opcode: Byte): Option<Operation>
  {
    match table
    case AsWritten => OperationAsWritten(opcode as int)
    case Corrected => OperationAt(opcode as int)
  }

  /** The opcodes the emulator rejects, in the order its own comment lists them. */
  predicate ListedInvalid(opcode: int)
  {
    || opcode == 3 || opcode == 19 || opcode == 35 || opcode == 51 || opcode == 67
    || opcode == 83 || opcode == 99 || opcode == 115 || opcode == 131 || opcode == 147
    || opcode == 163 || opcode == 179 || opcode == 195 || opcode == 211 || opcode == 227
    || opcode == 243 || opcode == 2 || opcode == 34 || opcode == 66 || opcode == 98
    || opcode == 130 || opcode == 194 || opcode == 226 || opcode == 68 || opcode == 84
    || opcode == 212 || opcode == 244 || opcode == 11 || opcode == 27 || opcode == 43
    || opcode == 59 || opcode == 75 || opcode == 91 || opcode == 107 || opcode == 123
    || opcode == 139 || opcode == 155 || opcode == 171 || opcode == 187 || opcode == 235
    || opcode == 251 || opcode == 92 || opcode == 220 || opcode == 252
  }

  // STZ, as the table is written and as the datasheet has it.

  /** The table as written at 0x9C and 0x9E. */
  lemma StzAsWritten()
    ensures OperationAsWritten(0x9C) == Some(Operation(AbsoluteIndexedX, STZ))
    ensures OperationAsWritten(0x9E) == Some(Operation(AbsoluteIndexedY, STZ))
  {
  }

  /** The STZ entries of one row of the table as written. */
  lemma StzRowAsWritten(opcode: int, high: int)
    requires 0 <= high < 16 && 16 * high <= opcode < 16 * high + 16
    ensures OperationAsWritten(opcode) != Some(Operation(Absolute, STZ))
    ensures OperationAsWritten(opcode) == Some(Operation(AbsoluteIndexedX, STZ)) <==> opcode == 0x9C
    ensures OperationAsWritten(opcode) == Some(Operation(AbsoluteIndexedY, STZ)) <==> opcode == 0x9E
  {
  }

  /** As written, no opcode decodes to STZ absolute, the only STZ a,x is 0x9C and
      0x9E decodes to an STZ a,y the W65C02S does not have. */
  lemma StzAbsoluteMissingAsWritten(opcode: int)
    requires 0 <= opcode < 256
    ensures OperationAsWritten(opcode) != Some(Operation(Absolute, STZ))
    ensures OperationAsWritten(opcode) == Some(Operation(AbsoluteIndexedX, STZ)) <==> opcode == 0x9C
    ensures OperationAsWritten(opcode) == Some(Operation(AbsoluteIndexedY, STZ)) <==> opcode == 0x9E
  {
    StzRowAsWritten(opcode, opcode / 16);
  }

  /** The corrected table: STZ absolute is 0x9C, STZ a,x is 0x9E, and no opcode
      decodes to STZ a,y. */
  lemma StzAsDatasheet(opcode: int)
    requires 0 <= opcode < 256
    ensures OperationAt(opcode) == Some(Operation(Absolute, STZ)) <==> opcode == 0x9C
    ensures OperationAt(opcode) == Some(Operation(AbsoluteIndexedX, STZ)) <==> opcode == 0x9E
    ensures OperationAt(opcode) != Some(Operation(AbsoluteIndexedY, STZ))
  {
    StzAbsoluteMissingAsWritten(opcode);
  }

  /** The same opcodes in increasing order. */
  const INVALID_OPCODES: seq<int> :=
    [ 0x02, 0x03, 0x0B, 0x13, 0x1B, 0x22, 0x23, 0x2B, 0x33, 0x3B, 0x42, 0x43, 0x44, 0x4B, 0x53,
      0x54, 0x5B, 0x5C, 0x62, 0x63, 0x6B, 0x73, 0x7B, 0x82, 0x83, 0x8B, 0x93, 0x9B, 0xA3, 0xAB,
      0xB3, 0xBB, 0xC2, 0xC3, 0xD3, 0xD4, 0xDC, 0xE2, 0xE3, 0xEB, 0xF3, 0xF4, 0xFB, 0xFC ]

  /** The table check, one row at a time. */
  lemma MissingIffListedRow(opcode: int, high: int)
    requires 0 <= high < 16 && 16 * high <= opcode < 16 * high + 16
    ensures OperationAsWritten(opcode).None? <==> ListedInvalid(opcode)
  {
  }

  /** An entry is missing from the table exactly when the comment lists its opcode. */
  lemma MissingIffListedAsWritten(opcode: int)
    requires 0 <= opcode < 256
    ensures OperationAsWritten(opcode).None? <==> ListedInvalid(opcode)
  {
    MissingIffListedRow(opcode, opcode / 16);
  }

  lemma MissingIffListed(opcode: int)
    requires 0 <= opcode < 256
    ensures OperationAt(opcode).None? <==> ListedInvalid(opcode)
  {
    MissingIffListedAsWritten(opcode);
  }

  lemma ListedIffSorted(opcode: int)
    ensures ListedInvalid(opcode) <==> opcode in INVALID_OPCODES
  {
  }

  lemma InvalidOpcodesIncreasing()
    ensures |INVALID_OPCODES| == 44
    ensures forall k :: 0 <= k < |INVALID_OPCODES| - 1 ==> INVALID_OPCODES[k] < INVALID_OPCODES[k + 1]
  {
  }

  /** The elements of a sequence, as a set. */
  ghost function Elements(s: seq<int>): set<int>
  {
    set k | 0 <= k < |s| :: s[k]
  }

  /** A sequence whose neighbours increase has pairwise distinct elements: its last
      element is above every earlier one. */
  lemma {:induction false} IncreasingLastIsMax(s: seq<int>)
    requires forall k :: 0 <= k < |s| - 1 ==> s[k] < s[k + 1]
    ensures forall k :: 0 <= k < |s| - 1 ==> s[k] < s[|s| - 1]
  {
    if |s| > 1 {
      var front := s[..|s| - 1];
      assert forall k :: 0 <= k < |front| - 1 ==> front[k] < front[k + 1] by {
        forall k | 0 <= k < |front| - 1 ensures front[k] < front[k + 1] {
          assert front[k] == s[k] && front[k + 1] == s[k + 1];
        }
      }
      IncreasingLastIsMax(front);
      forall k | 0 <= k < |s| - 1 ensures s[k] < s[|s| - 1] {
        if k < |s| - 2 {
          assert s[k] == front[k] && front[|front| - 1] == s[|s| - 2];
        }
      }
    }
  }

  /** An increasing sequence has as many distinct elements as entries. */
  lemma {:induction false} IncreasingElementsCount(s: seq<int>)
    requires forall k :: 0 <= k < |s| - 1 ==> s[k] < s[k + 1]
    ensures |Elements(s)| == |s|
  {
    if |s| > 0 {
      var front := s[..|s| - 1];
      assert forall k :: 0 <= k < |front| - 1 ==> front[k] < front[k + 1] by {
        forall k | 0 <= k < |front| - 1 ensures front[k] < front[k + 1] {
          assert front[k] == s[k] && front[k + 1] == s[k + 1];
        }
      }
      IncreasingElementsCount(front);
      IncreasingLastIsMax(s);
      assert Elements(s) == Elements(front) + {s[|s| - 1]} by {
        forall x | x in Elements(s) ensures x in Elements(front) + {s[|s| - 1]} {
          var k :| 0 <= k < |s| && s[k] == x;
          if k < |s| - 1 {
            assert front[k] == x;
          }
        }
        forall x | x in Elements(front) ensures x in Elements(s) {
          var k :| 0 <= k < |front| && front[k] == x;
          assert s[k] == x;
        }
      }
      assert s[|s| - 1] !in Elements(front) by {
        assert forall k :: 0 <= k < |front| ==> front[k] < s[|s| - 1];
      }
    }
  }

  /** Exactly 44 of the 256 opcodes have no table entry, and they are the listed ones. */
  lemma ExactlyFortyFourInvalid()
    ensures (set opcode | 0 <= opcode < 256 && OperationAt(opcode).None?) == Elements(INVALID_OPCODES)
    ensures |set opcode | 0 <= opcode < 256 && OperationAt(opcode).None?| == 44
  {
    var missing := set opcode | 0 <= opcode < 256 && OperationAt(opcode).None?;
    forall opcode ensures opcode in missing <==> opcode in Elements(INVALID_OPCODES) {
      ListedIffSorted(opcode);
      if 0 <= opcode < 256 {
        MissingIffListed(opcode);
      }
      if opcode in INVALID_OPCODES {
        var k :| 0 <= k < |INVALID_OPCODES| && INVALID_OPCODES[k] == opcode;
        assert opcode in Elements(INVALID_OPCODES);
      }
    }
    InvalidOpcodesIncreasing();
    IncreasingElementsCount(INVALID_OPCODES);
  }

  /** The operand an addressing mode resolves to. A relative offset keeps its raw byte;
      it is read as a two's-complement value when added to PC. */
  datatype Operand =
    | Implied
    | Accumulator
    | Value(value: Byte)
    | Address(address: Word)
    | Relative(offset: Byte)
    | ZpAddrRelative(zp: Byte, offset: Byte)

  /** The errors `step` reports instead of executing. */
  datatype CpuError = InvalidOpcode(opcode: Byte) | InvalidOperand(operand: Operand)

  /** Sign extension of a signed 8-bit offset to 16 bits. */
  function SignExtend(b: Byte): (w: Word)
    ensures Lo(w) == b
    ensures Hi(w) == if b < 0x80 then 0 else 0xFF
  {
    if b < 0x80 then b as Word else b as Word | 0xFF00
  }
}
