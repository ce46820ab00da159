/**
 * The instruction descriptor that the ARM and Thumb decoders fill in
 * (struct arm_instruction): the raw opcode, its size, the instruction
 * type, the rendered text and the operand record.
 */
module DisasmTypes {

  /** The instruction types a decode can report.  `Unknown` is the type a
      cleared descriptor holds (it is also what the Thumb BL/BLX prefix
      reports); `Undefined` is the "UNDEFINED INSTRUCTION" type. */
  datatype InstrType =
    | Unknown
    // branches
    | B | BL | BX | BLX
    // data processing
    | AND | EOR | SUB | RSB | ADD | ADC | SBC | RSC
    | TST | TEQ | CMP | CMN | ORR | MOV | BIC | MVN
    // loads and stores
    | LDR | LDRB | LDRT | LDRBT | LDRH | LDRSB | LDRSH | LDM
    | STR | STRB | STRT | STRBT | STRH | STM
    // status register access
    | MRS | MSR
    // multiplies
    | MUL | MLA | SMULL | SMLAL | UMULL | UMLAL
    // miscellaneous and exception generating
    | CLZ | BKPT | SWI
    // coprocessor
    | CDP | LDC | STC | MCR | MRC
    // semaphores
    | SWP | SWPB
    // enhanced DSP extensions
    | MCRR | MRRC | PLD | QADD | QDADD | QSUB | QDSUB
    | SMLAxy | SMLALxy | SMLAWy | SMULxy | SMULWy | LDRD | STRD
    | Undefined

  /** Shift names as rendered; RRX is the ROR-by-zero encoding. */
  datatype ShiftKind = LSL | LSR | ASR | ROR | RRX

  /** How a bracketed memory operand is laid out. */
  datatype Index =
    | Offset       // [base, off]
    | PreIndexed   // [base, off]!
    | PostIndexed  // [base], off
    | Unindexed    // [base], {option}

  /** One operand of the rendered text; numbers are kept as values, their
      radix and width are a display convention. */
  datatype Operand =
    | Reg(n: int)                                   // r<n>
    | Named(name: string)                           // SP, PC, pc, CPSR, SPSR_fc, BE, LE, ...
    | Imm(value: int)                               // #<value>
    | Num(value: int)                               // a bare number
    | Target(address: bv32)                         // an absolute address
    | Minus(o: Operand)                             // a subtracted offset, -<o>
    | WriteBack(o: Operand)                         // <o>!
    | Coproc(n: int)                                // p<n>
    | CReg(n: int)                                  // c<n>
    | ShiftImm(kind: ShiftKind, amount: int)        // <kind> #<amount>, or RRX alone
    | ShiftReg(kind: ShiftKind, rs: int)            // <kind> r<s>
    | Mem(base: Operand, index: Index, offset: seq<Operand>)
    | RegList(regs: seq<int>, user: bool)           // {r<a>, r<b>, ...} and the ^ suffix
    | Remark(mnemonic: string, operands: seq<Operand>)  // a trailing "; ..." comment

  /** The rendered text: empty as cleared, or a mnemonic (with its
      condition and suffixes, concatenated as the source prints them)
      followed by operands. */
  datatype Text = Empty | Asm(mnemonic: string, operands: seq<Operand>)

  /** The data-processing shifter operand; its constructor is the source's
      `variant` (0, 1 or 2). */
  datatype ShifterOperand =
    | Immediate(immediate: bv32)
    | ImmediateShift(Rm: int, shift: int, shiftImm: int)
    | RegisterShift(Rm: int, shift: int, Rs: int)
  {
    function Variant(): int
    {
      match this
      case Immediate(_) => 0
      case ImmediateShift(_, _, _) => 1
      case RegisterShift(_, _, _) => 2
    }
  }

  /** The offset of a single load/store; its constructor is the source's
      `offset_mode` (0 immediate, 1 register). */
  datatype LoadStoreOffset =
    | ImmOffset(offset: bv32)
    | RegOffset(Rm: int, shift: int, shiftImm: int)
  {
    function OffsetMode(): int
    {
      if ImmOffset? then 0 else 1
    }
  }

  /** The operand record (the source's `info` union, here tagged). */
  datatype Info =
    | NoInfo
    | DataProc(Rd: int, Rn: int, S: int, operand: ShifterOperand)
    | LoadStore(Rd: int, Rn: int, U: int, indexMode: int, offset: LoadStoreOffset)
    | LoadStoreMultiple(Rn: int, registerList: bv32, addressingMode: int, S: int, W: int)
    | Branch(regOperand: int, targetAddress: bv32)

  datatype Descriptor = Descriptor(opcode: bv32, size: int, kind: InstrType, text: Text, info: Info)

  /** What an entry point returns: its status code and the descriptor. */
  datatype Evaluation = Evaluation(status: int, desc: Descriptor)

  /** The descriptor as the entry points leave it after clearing it and
      recording the opcode and the instruction size. */
  function Cleared(opcode: bv32, size: int): Descriptor
  {
    Descriptor(opcode, size, Unknown, Empty, NoInfo)
  }

  datatype Option<T> = None | Some(value: T)

  /** The operand with the write-back mark when `w` holds. */
  function WithWriteBack(w: bool, o: Operand): Operand
  {
    if w then WriteBack(o) else o
  }

  /** The operand negated unless the U (add) bit is set. */
  function SignedBy(up: bool, o: Operand): Operand
  {
    if up then o else Minus(o)
  }

  /** The "all ones" value the source stores in a 32-bit field set to -1. */
  const AllOnes: bv32 := 0xffff_ffff
}
